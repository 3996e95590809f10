/**
 * The socket server: the handshake middleware, the `connection` handler
 * (lazy daily reset, limit selection, device admission, session upsert,
 * initial state), and the per-socket `task_complete` and `disconnect`
 * handlers. Each handler runs as one atomic step on the store.
 */
module Realtime {
  import opened Records
  import opened Store

  const MsPerDay: int := 86400000
  const FreeMaxDevices: int := 1
  const FreeDailyLimit: int := 5
  const FreeTierName := "Free Tier"
  const DeviceLimitMessage := "Device limit reached. Please disconnect other devices."
  const DailyLimitMessage := "Daily limit reached."

  // ---------------------------------------------------------------- clock

  /** `getTodayDateKey()`: the UTC day that contains the instant `nowMs`. */
  function DateKey(nowMs: int): (day: int)
    ensures day * 86400000 <= nowMs < day * 86400000 + 86400000
  {
    nowMs / MsPerDay
  }

  /** Two instants get the same key exactly when they fall in the same UTC day. */
  lemma DateKeyNamesTheDay(nowMs: int, day: int)
    ensures DateKey(nowMs) == day <==> day * 86400000 <= nowMs < day * 86400000 + 86400000
  {
  }

  // ------------------------------------------------------------ handshake

  /** The handshake: `auth` and `query` variants of the token and device id ("" when absent). */
  datatype Handshake = Handshake(authToken: string, queryToken: string, authDeviceId: string, queryDeviceId: string)

  datatype AuthError = NoToken | NoDeviceId | InvalidToken | UserNotFound

  /** The authenticated user and device attached to a socket. */
  datatype Identity = Identity(userId: UserId, deviceId: DeviceId)

  /**
   * The `io.use` middleware. `decode` stands for `jwt.verify` with the
   * server secret: the user id the token carries, or None when it fails.
   */
  function Authenticate(users: map<UserId, User>, hs: Handshake, decode: string -> Option<UserId>): (r: Result<Identity, AuthError>)
    ensures r == Err(NoToken) <==> hs.authToken == "" && hs.queryToken == ""
    ensures var token, deviceId := OrElse(hs.authToken, hs.queryToken), OrElse(hs.authDeviceId, hs.queryDeviceId);
      && (r.Ok? <==> token != "" && deviceId != "" && decode(token).Some? && decode(token).value in users)
      && (token != "" && deviceId == "" ==> r == Err(NoDeviceId))
      && (token != "" && deviceId != "" && decode(token).None? ==> r == Err(InvalidToken))
      && (token != "" && deviceId != "" && decode(token).Some? && decode(token).value !in users ==> r == Err(UserNotFound))
    ensures r.Ok? ==> r.value.userId in users && r.value.deviceId != ""
    ensures r.Ok? ==> decode(OrElse(hs.authToken, hs.queryToken)) == Some(r.value.userId)
    ensures r.Ok? ==> r.value.deviceId == OrElse(hs.authDeviceId, hs.queryDeviceId)
  {
    var token := OrElse(hs.authToken, hs.queryToken);
    var deviceId := OrElse(hs.authDeviceId, hs.queryDeviceId);
    if token == "" then Err(NoToken)
    else if deviceId == "" then Err(NoDeviceId)
    else match decode(token)
      case None => Err(InvalidToken)
      case Some(id) => if id in users then Ok(Identity(id, deviceId)) else Err(UserNotFound)
  }

  /**
   * The `auth` fields win: a query-string token or device id is read only
   * when the matching `auth` field is empty.
   */
  lemma AuthFieldsTakePrecedence(users: map<UserId, User>, hs: Handshake, decode: string -> Option<UserId>, q: Handshake)
    requires hs.authToken != "" && hs.authDeviceId != ""
    requires q.authToken == hs.authToken && q.authDeviceId == hs.authDeviceId
    ensures Authenticate(users, q, decode) == Authenticate(users, hs, decode)
  {
  }

  // --------------------------------------------------------------- limits

  datatype Limits = Limits(maxDevices: int, dailyLimit: int)

  /** Limits on connect: the plan's, or the free tier's 1 device and 5 uses a day. */
  function ConnectLimits(plan: Option<Plan>): (l: Limits)
    ensures plan.None? ==> l == Limits(FreeMaxDevices, FreeDailyLimit)
    ensures plan.Some? ==> l == Limits(plan.value.maxDevices, plan.value.dailyLimit)
  {
    match plan
    case None => Limits(FreeMaxDevices, FreeDailyLimit)
    case Some(p) => Limits(p.maxDevices, p.dailyLimit)
  }

  /** The limit `task_complete` recomputes; it agrees with the one chosen on connect. */
  function TaskLimit(plan: Option<Plan>): (limit: int)
    ensures limit == ConnectLimits(plan).dailyLimit
  {
    if plan.Some? then plan.value.dailyLimit else 5
  }

  // ------------------------------------------------------ session registry

  /** The distinct device ids among a user's session rows. */
  function DevicesOf(rows: seq<Session>, uid: UserId): (r: set<DeviceId>)
    ensures |r| <= |rows|
  {
    DevicesOfBound(rows, uid);
    set s | s in rows && s.userId == uid :: s.deviceId
  }

  /** A user never has more distinct devices than there are session rows. */
  lemma {:induction false} DevicesOfBound(rows: seq<Session>, uid: UserId)
    ensures |set s | s in rows && s.userId == uid :: s.deviceId| <= |rows|
  {
    if rows != [] {
      var init := rows[..|rows| - 1];
      DevicesOfBound(init, uid);
      var a := set s | s in init && s.userId == uid :: s.deviceId;
      var b := set s | s in rows && s.userId == uid :: s.deviceId;
      var last := rows[|rows| - 1];
      assert rows == init + [last];
      if last.userId == uid {
        assert b == a + {last.deviceId};
      } else {
        assert b == a;
      }
    }
  }

  /** `new Set(activeSessions.map(s => s.deviceId))` over the user's rows. */
  method CollectDevices(rows: seq<Session>, uid: UserId) returns (devices: set<DeviceId>)
    ensures devices == DevicesOf(rows, uid)
  {
    devices := {};
    var i := 0;
    while i < |rows|
      invariant 0 <= i <= |rows|
      invariant devices == DevicesOf(rows[..i], uid)
    {
      assert rows[..i + 1] == rows[..i] + [rows[i]];
      if rows[i].userId == uid {
        devices := devices + {rows[i].deviceId};
      }
      i := i + 1;
    }
    assert rows[..i] == rows;
  }

  /** The admission rule: a known device always, a new one only below the limit. */
  predicate Admits(devices: set<DeviceId>, device: DeviceId, maxDevices: int)
    ensures device in devices ==> Admits(devices, device, maxDevices)
    ensures device !in devices ==> (Admits(devices, device, maxDevices) <==> |devices| < maxDevices)
    ensures Admits(devices, device, maxDevices) ==>
      |devices + {device}| <= if |devices| < maxDevices then maxDevices else |devices|
  {
    device in devices || |devices| < maxDevices
  }

  /** The `where` clause of a `Session.destroy`. */
  datatype Where = BySocket(socketId: SocketId) | ByDevice(userId: UserId, deviceId: DeviceId)

  /** The rows a `where` clause picks: one socket's, or one device's of one user. */
  predicate Selects(w: Where, s: Session)
    ensures w.ByDevice? ==> (Selects(w, s) <==> SameDevice(s, Session(w.userId, s.socketId, w.deviceId, s.userAgent)))
    ensures w.BySocket? ==> (Selects(w, s) <==> s.socketId == w.socketId)
  {
    match w
    case BySocket(sock) => s.socketId == sock
    case ByDevice(u, d) => s.userId == u && s.deviceId == d
  }

  /** `Session.destroy({ where })` on the table's rows. */
  function Destroy(rows: seq<Session>, w: Where): (r: seq<Session>)
    ensures |r| <= |rows|
  {
    if rows == [] then []
    else if Selects(w, rows[0]) then Destroy(rows[1..], w)
    else [rows[0]] + Destroy(rows[1..], w)
  }

  /** Exactly the selected rows go; every other row stays, as often as it was there. */
  lemma {:induction false} DestroyRemovesSelected(rows: seq<Session>, w: Where)
    ensures forall s :: multiset(Destroy(rows, w))[s] == if Selects(w, s) then 0 else multiset(rows)[s]
    ensures forall s :: s in Destroy(rows, w) <==> s in rows && !Selects(w, s)
  {
    if rows != [] {
      assert rows == [rows[0]] + rows[1..];
      DestroyRemovesSelected(rows[1..], w);
    }
  }

  /** The destroy-then-create on admission. */
  function Upsert(rows: seq<Session>, row: Session): (r: seq<Session>)
    ensures 0 < |r| <= |rows| + 1 && r[|r| - 1] == row
  {
    Destroy(rows, ByDevice(row.userId, row.deviceId)) + [row]
  }

  /**
   * After an upsert the row's device has exactly one row, the new one, and
   * every row of another device or another user is kept.
   */
  lemma UpsertBindsDevice(rows: seq<Session>, row: Session)
    ensures multiset(Upsert(rows, row))[row] == 1
    ensures forall s :: s in Upsert(rows, row) && SameDevice(s, row) ==> s == row
    ensures forall s :: !SameDevice(s, row) ==> multiset(Upsert(rows, row))[s] == multiset(rows)[s]
  {
    DestroyRemovesSelected(rows, ByDevice(row.userId, row.deviceId));
  }

  /** An upsert adds the row's device to its user's devices and changes no other user's. */
  lemma UpsertDevices(rows: seq<Session>, row: Session, uid: UserId)
    ensures DevicesOf(Upsert(rows, row), uid) == DevicesOf(rows, uid) + (if uid == row.userId then {row.deviceId} else {})
  {
    var r := Upsert(rows, row);
    DestroyRemovesSelected(rows, ByDevice(row.userId, row.deviceId));
    var extra: set<DeviceId> := if uid == row.userId then {row.deviceId} else {};
    forall d | d in DevicesOf(r, uid)
      ensures d in DevicesOf(rows, uid) + extra
    {
      var s :| s in r && s.userId == uid && s.deviceId == d;
      if s != row {
        assert s in Destroy(rows, ByDevice(row.userId, row.deviceId));
      }
    }
    forall d | d in DevicesOf(rows, uid) + extra
      ensures d in DevicesOf(r, uid)
    {
      if d in extra {
        assert row in r;
      } else {
        var s :| s in rows && s.userId == uid && s.deviceId == d;
        assert s in r;
      }
    }
  }

  /**
   * Admission never raises a user's distinct-device count above the limit in
   * force: a known device leaves the set as it was, a new one is admitted
   * only below the limit and adds exactly one.
   */
  lemma AdmissionRespectsDeviceLimit(rows: seq<Session>, row: Session, maxDevices: int)
    requires Admits(DevicesOf(rows, row.userId), row.deviceId, maxDevices)
    ensures row.deviceId in DevicesOf(rows, row.userId) ==>
      DevicesOf(Upsert(rows, row), row.userId) == DevicesOf(rows, row.userId)
    ensures row.deviceId !in DevicesOf(rows, row.userId) ==>
      |DevicesOf(Upsert(rows, row), row.userId)| == |DevicesOf(rows, row.userId)| + 1 <= maxDevices
    ensures |DevicesOf(rows, row.userId)| <= maxDevices ==> |DevicesOf(Upsert(rows, row), row.userId)| <= maxDevices
  {
    UpsertDevices(rows, row, row.userId);
  }

  /** Removing a socket's rows never adds a device to anyone. */
  lemma DisconnectShrinksDevices(rows: seq<Session>, socket: SocketId, uid: UserId)
    ensures DevicesOf(Destroy(rows, BySocket(socket)), uid) <= DevicesOf(rows, uid)
  {
    DestroyRemovesSelected(rows, BySocket(socket));
    forall d | d in DevicesOf(Destroy(rows, BySocket(socket)), uid)
      ensures d in DevicesOf(rows, uid)
    {
      var s :| s in Destroy(rows, BySocket(socket)) && s.userId == uid && s.deviceId == d;
      assert s in rows;
    }
  }

  predicate SameDevice(a: Session, b: Session)
  {
    a.userId == b.userId && a.deviceId == b.deviceId
  }

  /** The registry invariant: at most one row per (user, device). */
  ghost predicate OneRowPerDevice(rows: seq<Session>)
  {
    forall i, j :: 0 <= i < j < |rows| ==> !SameDevice(rows[i], rows[j])
  }

  /** A row whose device has no row in `rest` can be put in front of it. */
  lemma ConsKeepsOneRowPerDevice(x: Session, rest: seq<Session>)
    requires OneRowPerDevice(rest)
    requires forall s :: s in rest ==> !SameDevice(x, s)
    ensures OneRowPerDevice([x] + rest)
  {
  }

  /** The tail of a registry that keeps the invariant keeps it, and its head's device is not in the tail. */
  lemma SplitOneRowPerDevice(rows: seq<Session>)
    requires OneRowPerDevice(rows) && rows != []
    ensures OneRowPerDevice(rows[1..])
    ensures forall s :: s in rows[1..] ==> !SameDevice(rows[0], s)
  {
  }

  lemma {:induction false} DestroyKeepsOneRowPerDevice(rows: seq<Session>, w: Where)
    requires OneRowPerDevice(rows)
    ensures OneRowPerDevice(Destroy(rows, w))
  {
    if rows != [] {
      SplitOneRowPerDevice(rows);
      DestroyKeepsOneRowPerDevice(rows[1..], w);
      if !Selects(w, rows[0]) {
        DestroyRemovesSelected(rows[1..], w);
        ConsKeepsOneRowPerDevice(rows[0], Destroy(rows[1..], w));
      }
    }
  }

  /** The upsert keeps the registry invariant. */
  lemma UpsertKeepsOneRowPerDevice(rows: seq<Session>, row: Session)
    requires OneRowPerDevice(rows)
    ensures OneRowPerDevice(Upsert(rows, row))
  {
    var kept := Destroy(rows, ByDevice(row.userId, row.deviceId));
    DestroyKeepsOneRowPerDevice(rows, ByDevice(row.userId, row.deviceId));
    DestroyRemovesSelected(rows, ByDevice(row.userId, row.deviceId));
    var r := kept + [row];
    forall i, j | 0 <= i < j < |r|
      ensures !SameDevice(r[i], r[j])
    {
      assert r[i] == kept[i];
      if j == |kept| {
        assert kept[i] in kept;
      } else {
        assert r[j] == kept[j];
      }
    }
  }

  // ---------------------------------------------------------------- quota

  /** The lazy reset: a counter stamped with another day starts again from 0 today. */
  function DailyReset(u: User, today: int): (r: User)
    ensures r.lastUsageDate == Some(today)
    ensures r.dailyUsage == if u.lastUsageDate == Some(today) then u.dailyUsage else 0
    ensures r == u.(dailyUsage := r.dailyUsage, lastUsageDate := r.lastUsageDate)
  {
    if u.lastUsageDate != Some(today) then u.(dailyUsage := 0, lastUsageDate := Some(today)) else u
  }

  datatype TaskOutcome = Refused | Counted(user: User)

  /**
   * One `task_complete` on the freshly read user: refused at or above the
   * limit, otherwise one more use stamped with today. The counter is not
   * reset first, whatever day it was stamped with.
   */
  function CompleteTask(u: User, limit: int, today: int): (r: TaskOutcome)
    ensures r.Refused? <==> u.dailyUsage >= limit
    ensures r.Counted? ==> r.user == u.(dailyUsage := u.dailyUsage + 1, lastUsageDate := Some(today))
  {
    if u.dailyUsage >= limit then Refused
    else Counted(u.(dailyUsage := u.dailyUsage + 1, lastUsageDate := Some(today)))
  }

  /** The user after n `task_complete` signals on one day, one after the other. */
  function AfterTasks(u: User, limit: int, today: int, n: nat): User
    decreases n
  {
    if n == 0 then u
    else match CompleteTask(u, limit, today)
      case Refused => AfterTasks(u, limit, today, n - 1)
      case Counted(v) => AfterTasks(v, limit, today, n - 1)
  }

  /** From usage U <= L, n signals leave usage min(U + n, L): never above L, none lost. */
  lemma {:induction false} UsageSaturatesAtLimit(u: User, limit: int, today: int, n: nat)
    requires u.dailyUsage <= limit
    ensures AfterTasks(u, limit, today, n).dailyUsage == if u.dailyUsage + n <= limit then u.dailyUsage + n else limit
    decreases n
  {
    if n > 0 {
      match CompleteTask(u, limit, today)
      case Refused => UsageSaturatesAtLimit(u, limit, today, n - 1);
      case Counted(v) => UsageSaturatesAtLimit(v, limit, today, n - 1);
    }
  }

  /**
   * `task_complete` on a counter stamped with an earlier day keeps counting
   * from the old value and stamps today, so a reconnect later the same day
   * no longer resets it: yesterday's uses count against today's limit.
   */
  lemma StaleCounterCarriesOver(u: User, limit: int, today: int)
    requires u.lastUsageDate != Some(today) && u.dailyUsage < limit
    ensures CompleteTask(u, limit, today).Counted?
    ensures DailyReset(CompleteTask(u, limit, today).user, today).dailyUsage == u.dailyUsage + 1
    ensures DailyReset(u, today).dailyUsage == 0
  {
  }

  /** The plan name sent in `init_state`. */
  function PlanName(plan: Option<Plan>): (name: string)
    ensures plan.None? ==> name == FreeTierName
    ensures plan.Some? ==> name == plan.value.name
  {
    if plan.Some? then plan.value.name else FreeTierName
  }

  /** `name.split(' ')[0]`: the name up to its first space. */
  function FirstWord(name: string): (w: string)
    ensures w <= name
    ensures ' ' !in w
    ensures |w| < |name| ==> name[|w|] == ' '
  {
    if name == [] || name[0] == ' ' then [] else [name[0]] + FirstWord(name[1..])
  }

  /** What an admitted socket is sent: `limit_reached` when already at the limit, then `init_state`. */
  function Greeting(socket: SocketId, u: User, plan: Option<Plan>): (g: seq<Emit>)
    ensures 1 <= |g| <= 2
    ensures g[|g| - 1] == Emit(socket, InitState(u.dailyUsage, ConnectLimits(plan).dailyLimit, PlanName(plan), FirstWord(u.name)))
  {
    var limit := ConnectLimits(plan).dailyLimit;
    (if u.dailyUsage >= limit then [Emit(socket, LimitReached(DailyLimitMessage))] else [])
    + [Emit(socket, InitState(u.dailyUsage, limit, PlanName(plan), FirstWord(u.name)))]
  }

  /**
   * The greeting goes to the connecting socket only, warns exactly when the
   * day's uses already reach the limit, and ends with the initial state.
   */
  lemma GreetingAnnouncesLimit(socket: SocketId, u: User, plan: Option<Plan>)
    ensures forall e :: e in Greeting(socket, u, plan) ==> e.to == socket
    ensures Emit(socket, LimitReached(DailyLimitMessage)) in Greeting(socket, u, plan) <==>
      u.dailyUsage >= ConnectLimits(plan).dailyLimit
    ensures |Greeting(socket, u, plan)| == if u.dailyUsage >= ConnectLimits(plan).dailyLimit then 2 else 1
    ensures var g := Greeting(socket, u, plan);
      |g| > 0 && g[|g| - 1].event == InitState(u.dailyUsage, ConnectLimits(plan).dailyLimit, PlanName(plan), FirstWord(u.name))
  {
  }

  /** The broadcast: one update per row of the user whose socket is not the originating one. */
  function Fanout(rows: seq<Session>, uid: UserId, origin: SocketId, ev: Event): (r: seq<Emit>)
    ensures |r| <= |rows|
  {
    if rows == [] then []
    else
      var init, last := rows[..|rows| - 1], rows[|rows| - 1];
      Fanout(init, uid, origin, ev)
      + (if last.userId == uid && last.socketId != origin then [Emit(last.socketId, ev)] else [])
  }

  /**
   * The broadcast reaches every socket of the user's rows except the
   * originating one, carries the same update to each, and reaches nothing else.
   */
  lemma {:induction false} FanoutTargets(rows: seq<Session>, uid: UserId, origin: SocketId, ev: Event)
    ensures |Fanout(rows, uid, origin, ev)| <= |rows|
    ensures forall e :: e in Fanout(rows, uid, origin, ev) ==> e.event == ev && e.to != origin
    ensures forall e :: e in Fanout(rows, uid, origin, ev) ==>
      exists s :: s in rows && s.userId == uid && s.socketId == e.to
    ensures forall s :: s in rows && s.userId == uid && s.socketId != origin ==>
      Emit(s.socketId, ev) in Fanout(rows, uid, origin, ev)
  {
    if rows != [] {
      var init, last := rows[..|rows| - 1], rows[|rows| - 1];
      assert rows == init + [last];
      FanoutTargets(init, uid, origin, ev);
      var out := Fanout(rows, uid, origin, ev);
      forall e | e in out
        ensures exists s :: s in rows && s.userId == uid && s.socketId == e.to
      {
        if e in Fanout(init, uid, origin, ev) {
          var s :| s in init && s.userId == uid && s.socketId == e.to;
          assert s in rows;
        } else {
          assert last in rows;
        }
      }
    }
  }

  /** Scenario: with a two-device, five-a-day plan, yesterday's 4 uses are forgotten on connect. */
  lemma ScenarioDailyRollover(u: User, plan: Plan, today: int)
    requires plan.maxDevices == 2 && plan.dailyLimit == 5
    requires u.dailyUsage == 4 && u.lastUsageDate == Some(today - 1)
    ensures DailyReset(u, today).dailyUsage == 0
    ensures AfterTasks(DailyReset(u, today), TaskLimit(Some(plan)), today, 1).dailyUsage == 1
    ensures AfterTasks(DailyReset(u, today), TaskLimit(Some(plan)), today, 5).dailyUsage == 5
    ensures CompleteTask(AfterTasks(DailyReset(u, today), TaskLimit(Some(plan)), today, 5), 5, today).Refused?
  {
  }

  /** Scenario: on a one-device tier, a second device of the same user is refused after the first is admitted. */
  lemma ScenarioSecondDeviceRefused(rows: seq<Session>, a: Session, b: Session)
    requires a.userId == b.userId && a.deviceId != b.deviceId
    requires DevicesOf(rows, a.userId) == {}
    ensures Admits(DevicesOf(rows, a.userId), a.deviceId, FreeMaxDevices)
    ensures !Admits(DevicesOf(Upsert(rows, a), b.userId), b.deviceId, FreeMaxDevices)
  {
    UpsertDevices(rows, a, a.userId);
  }

  // ------------------------------------------------------------- handlers

  datatype ConnectResult = AuthFailed(error: AuthError) | DeviceLimitReached | Admitted(userId: UserId)

  /**
   * The handshake middleware followed by the `connection` handler. The reset
   * is saved before the device check, so a refused connection keeps it.
   */
  method Connect(db: Db, hs: Handshake, decode: string -> Option<UserId>, socket: SocketId, userAgent: string, nowMs: int)
    returns (r: ConnectResult)
    modifies db`users, db`sessions, db`outbox, db`closed
    ensures Authenticate(old(db.users), hs, decode).Err? ==>
      && r == AuthFailed(Authenticate(old(db.users), hs, decode).error)
      && db.users == old(db.users) && db.sessions == old(db.sessions)
      && db.outbox == old(db.outbox) && db.closed == old(db.closed)
    ensures Authenticate(old(db.users), hs, decode).Ok? ==>
      var id := Authenticate(old(db.users), hs, decode).value;
      var u := DailyReset(old(db.users)[id.userId], DateKey(nowMs));
      var plan := PlanOf(db.plans, u);
      var admit := Admits(DevicesOf(old(db.sessions), id.userId), id.deviceId, ConnectLimits(plan).maxDevices);
      && db.users == old(db.users)[id.userId := u]
      && (admit ==>
            && r == Admitted(id.userId)
            && db.sessions == Upsert(old(db.sessions), Session(id.userId, socket, id.deviceId, userAgent))
            && db.outbox == old(db.outbox) + Greeting(socket, u, plan)
            && db.closed == old(db.closed))
      && (!admit ==>
            && r == DeviceLimitReached
            && db.sessions == old(db.sessions)
            && db.outbox == old(db.outbox) + [Emit(socket, ErrorEvent(DeviceLimitMessage))]
            && db.closed == old(db.closed) + {socket})
    ensures OneRowPerDevice(old(db.sessions)) ==> OneRowPerDevice(db.sessions)
  {
    var auth := Authenticate(db.users, hs, decode);
    if auth.Err? {
      return AuthFailed(auth.error);
    }
    var uid, device := auth.value.userId, auth.value.deviceId;
    var user := db.users[uid];
    var today := DateKey(nowMs);

    // lazy daily reset, saved at once
    if user.lastUsageDate != Some(today) {
      user := user.(dailyUsage := 0, lastUsageDate := Some(today));
      db.users := db.users[uid := user];
    } else {
      assert db.users == db.users[uid := user];
    }

    // limits: the plan's or the free tier's
    var plan := PlanOf(db.plans, user);
    var maxDevices, dailyLimit := FreeMaxDevices, FreeDailyLimit;
    if plan.Some? {
      maxDevices, dailyLimit := plan.value.maxDevices, plan.value.dailyLimit;
    }
    assert Limits(maxDevices, dailyLimit) == ConnectLimits(plan);

    // device admission
    var devices := CollectDevices(db.sessions, uid);
    if device !in devices && |devices| >= maxDevices {
      db.outbox := db.outbox + [Emit(socket, ErrorEvent(DeviceLimitMessage))];
      db.closed := db.closed + {socket};
      return DeviceLimitReached;
    }

    // session upsert: destroy the device's row, then create the new one
    var row := Session(uid, socket, device, userAgent);
    if OneRowPerDevice(db.sessions) {
      UpsertKeepsOneRowPerDevice(db.sessions, row);
    }
    db.sessions := Destroy(db.sessions, ByDevice(uid, device));
    db.sessions := db.sessions + [row];

    SendGreeting(db, socket, user, plan);
    r := Admitted(uid);
  }

  /** The limit notice, when already at the limit, and then the initial state. */
  method SendGreeting(db: Db, socket: SocketId, user: User, plan: Option<Plan>)
    modifies db`outbox
    ensures db.outbox == old(db.outbox) + Greeting(socket, user, plan)
  {
    var dailyLimit := ConnectLimits(plan).dailyLimit;
    if user.dailyUsage >= dailyLimit {
      db.outbox := db.outbox + [Emit(socket, LimitReached(DailyLimitMessage))];
    }
    db.outbox := db.outbox + [Emit(socket, InitState(user.dailyUsage, dailyLimit, PlanName(plan), FirstWord(user.name)))];
  }

  /** The `forEach` over the user's rows that emits the update to every other socket. */
  method Broadcast(db: Db, rows: seq<Session>, uid: UserId, origin: SocketId, ev: Event)
    modifies db`outbox
    ensures db.outbox == old(db.outbox) + Fanout(rows, uid, origin, ev)
  {
    var i := 0;
    while i < |rows|
      invariant 0 <= i <= |rows|
      invariant db.outbox == old(db.outbox) + Fanout(rows[..i], uid, origin, ev)
    {
      assert rows[..i + 1][..i] == rows[..i];
      assert Fanout(rows[..i + 1], uid, origin, ev) == Fanout(rows[..i], uid, origin, ev)
        + (if rows[i].userId == uid && rows[i].socketId != origin then [Emit(rows[i].socketId, ev)] else []);
      if rows[i].userId == uid && rows[i].socketId != origin {
        db.outbox := db.outbox + [Emit(rows[i].socketId, ev)];
      }
      i := i + 1;
    }
    assert rows[..i] == rows;
  }

  /**
   * The `task_complete` handler of socket `socket` of user `uid`: re-read the
   * user, refuse at the limit, otherwise count one use, tell the socket,
   * broadcast to the user's other sockets, and warn when the limit is reached.
   * A user row that has vanished makes the handler fail before any write.
   */
  method TaskComplete(db: Db, uid: UserId, socket: SocketId, nowMs: int)
    modifies db`users, db`outbox
    ensures uid !in old(db.users) ==> db.users == old(db.users) && db.outbox == old(db.outbox)
    ensures uid in old(db.users) ==>
      var u := old(db.users)[uid];
      var limit := TaskLimit(PlanOf(db.plans, u));
      match CompleteTask(u, limit, DateKey(nowMs))
      case Refused =>
        && db.users == old(db.users)
        && db.outbox == old(db.outbox) + [Emit(socket, LimitReached(DailyLimitMessage))]
      case Counted(v) =>
        && db.users == old(db.users)[uid := v]
        && db.outbox == old(db.outbox) + [Emit(socket, UpdateUsage(v.dailyUsage, limit))]
             + Fanout(db.sessions, uid, socket, UpdateUsage(v.dailyUsage, limit))
             + (if v.dailyUsage >= limit then [Emit(socket, LimitReached(DailyLimitMessage))] else [])
  {
    if uid !in db.users {
      return;
    }
    var current := db.users[uid];
    var plan := PlanOf(db.plans, current);
    var limit := if plan.Some? then plan.value.dailyLimit else 5;
    if current.dailyUsage >= limit {
      db.outbox := db.outbox + [Emit(socket, LimitReached(DailyLimitMessage))];
      return;
    }
    current := current.(dailyUsage := current.dailyUsage + 1);
    current := current.(lastUsageDate := Some(DateKey(nowMs)));
    db.users := db.users[uid := current];
    var ev := UpdateUsage(current.dailyUsage, limit);
    db.outbox := db.outbox + [Emit(socket, ev)];
    Broadcast(db, db.sessions, uid, socket, ev);
    if current.dailyUsage >= limit {
      db.outbox := db.outbox + [Emit(socket, LimitReached(DailyLimitMessage))];
    }
  }

  /** The `disconnect` handler: destroy the rows bound to the closing socket. */
  method Disconnect(db: Db, socket: SocketId)
    modifies db`sessions
    ensures db.sessions == Destroy(old(db.sessions), BySocket(socket))
    ensures OneRowPerDevice(old(db.sessions)) ==> OneRowPerDevice(db.sessions)
    ensures forall uid :: DevicesOf(db.sessions, uid) <= DevicesOf(old(db.sessions), uid)
  {
    ghost var before := db.sessions;
    if OneRowPerDevice(before) {
      DestroyKeepsOneRowPerDevice(before, BySocket(socket));
    }
    forall uid
      ensures DevicesOf(Destroy(before, BySocket(socket)), uid) <= DevicesOf(before, uid)
    {
      DisconnectShrinksDevices(before, socket, uid);
    }
    db.sessions := Destroy(db.sessions, BySocket(socket));
  }
}
