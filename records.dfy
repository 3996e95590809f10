/**
 * The rows of the persistent store that the socket server and the HTTP
 * routes share (users, plans, sessions, transactions), the messages the
 * server emits to sockets, and a few JavaScript value conventions
 * (truthiness of `a || b`, `Number.prototype.toString`).
 */
module Records {

  datatype Option<+T> = None | Some(value: T)

  datatype Result<+T, +E> = Ok(value: T) | Err(error: E)

  type UserId = string
  type PlanId = string
  type SocketId = string
  type DeviceId = string

  /**
   * Stand-in for a bcrypt hash. `bcrypt.compare(x, h)` succeeds exactly when
   * `h == Bcrypt(x)`; salts and one-wayness are not modelled.
   */
  datatype Secret = Bcrypt(plain: string)

  /** A row of the Users table, with the columns the core reads or writes. */
  datatype User = User(
    id: UserId,
    name: string,
    email: string,
    password: Option<Secret>,
    authProvider: string,
    googleId: Option<string>,
    profilePicture: Option<string>,
    credits: int,
    planId: Option<PlanId>,
    dailyUsage: int,
    lastUsageDate: Option<int>,     // a UTC day number (a DATEONLY column)
    resetOtp: Option<Secret>,
    resetOtpExpiry: Option<int>,    // milliseconds since the epoch
    resetOtpAttempts: int)

  /** A row of the Plans table. */
  datatype Plan = Plan(
    id: PlanId,
    name: string,
    price: int,                     // in the smallest currency unit
    currency: string,
    credits: int,
    features: seq<string>,
    maxDevices: int,
    dailyLimit: int,
    durationDays: int)

  /** A row of the Sessions table: one live socket of one device of one user. */
  datatype Session = Session(userId: UserId, socketId: SocketId, deviceId: DeviceId, userAgent: string)

  datatype TxStatus = Pending | Success | Failed

  /** A row of the Transactions table. */
  datatype Transaction = Transaction(
    orderId: string,
    paymentId: string,
    signature: string,
    status: TxStatus,
    amount: int,
    userId: UserId,
    planId: PlanId)

  /** A server-to-client socket message. */
  datatype Event =
    | ErrorEvent(message: string)
    | LimitReached(message: string)
    | InitState(dailyUsage: int, dailyLimit: int, planName: string, firstName: string)
    | UpdateUsage(dailyUsage: int, dailyLimit: int)

  /** One message emitted to one socket. */
  datatype Emit = Emit(to: SocketId, event: Event)

  /** An HTTP response: its status code and its `message` text. */
  datatype Reply = Reply(status: int, message: string)

  /** The `authProvider` of accounts that sign in with Google. */
  const GoogleProvider: string := "google"

  /** The currency of a plan created without one, and of an order for it. */
  const DefaultCurrency: string := "INR"

  /** The 404 message of the plan and payment routes for an unknown plan. */
  const PlanNotFound: string := "Plan not found"

  /** A JSON scalar as it arrives in a request body. */
  datatype Json = JNull | JBool(b: bool) | JNum(n: int) | JStr(s: string)

  /** JavaScript truthiness of an optional request field (absent is `undefined`). */
  predicate Truthy(v: Option<Json>)
    ensures v.None? || v == Some(JNull) ==> !Truthy(v)
    ensures v.Some? && v.value.JNum? ==> (Truthy(v) <==> v.value.n != 0)
    ensures v.Some? && v.value.JStr? ==> (Truthy(v) <==> v.value.s != "")
  {
    match v
    case None => false
    case Some(JNull) => false
    case Some(JBool(b)) => b
    case Some(JNum(n)) => n != 0
    case Some(JStr(s)) => s != ""
  }

  /** JavaScript `a || b` on strings: the empty string is falsy. */
  function OrElse(a: string, b: string): (r: string)
    ensures r == a || r == b
    ensures r == "" ==> a == "" && b == ""
    ensures a != "" ==> r == a
  {
    if a != "" then a else b
  }

  /** The character of a decimal digit. */
  function DigitChar(d: nat): (c: char)
    requires d < 10
    ensures '0' <= c <= '9'
    ensures c as int - '0' as int == d
  {
    ['0', '1', '2', '3', '4', '5', '6', '7', '8', '9'][d]
  }

  /** `n.toString()` for a non-negative integer: decimal digits, no leading zero. */
  function DecimalString(n: nat): (s: string)
    ensures 1 <= |s|
    ensures forall i :: 0 <= i < |s| ==> '0' <= s[i] <= '9'
    ensures n >= 10 ==> s[0] != '0'
    ensures n < 10 ==> |s| == 1
  {
    if n < 10 then [DigitChar(n)] else DecimalString(n / 10) + [DigitChar(n % 10)]
  }

  /** Different numbers print differently. */
  lemma {:induction false} DecimalStringInjective(a: nat, b: nat)
    requires DecimalString(a) == DecimalString(b)
    ensures a == b
  {
    var s := DecimalString(a);
    if a >= 10 && b >= 10 {
      assert DecimalString(a / 10) == s[..|s| - 1] == DecimalString(b / 10);
      DecimalStringInjective(a / 10, b / 10);
      assert DigitChar(a % 10) == s[|s| - 1] == DigitChar(b % 10);
    } else if a < 10 && b < 10 {
      assert DigitChar(a) == s[0] == DigitChar(b);
    }
  }

  /** The number a string of decimal digits denotes, most significant digit first. */
  function Value(s: string): (v: nat)
    requires forall i :: 0 <= i < |s| ==> '0' <= s[i] <= '9'
    ensures |s| == 1 ==> v == s[0] as int - '0' as int
  {
    if s == [] then 0 else 10 * Value(s[..|s| - 1]) + (s[|s| - 1] as int - '0' as int)
  }

  /** Reading back the printed digits gives the number. */
  lemma {:induction false} DecimalStringValue(n: nat)
    ensures Value(DecimalString(n)) == n
  {
    if n >= 10 {
      var s := DecimalString(n);
      assert s[..|s| - 1] == DecimalString(n / 10);
      DecimalStringValue(n / 10);
    }
  }

  function Pow10(k: nat): (p: nat)
    ensures p >= 1
  {
    if k == 0 then 1 else 10 * Pow10(k - 1)
  }

  /** A number with k + 1 digits prints as k + 1 characters. */
  lemma {:induction false} DecimalLength(n: nat, k: nat)
    requires Pow10(k) <= n < Pow10(k + 1)
    ensures |DecimalString(n)| == k + 1
  {
    if k > 0 {
      assert Pow10(k) == 10 * Pow10(k - 1);
      assert Pow10(k + 1) == 10 * Pow10(k);
      DecimalLength(n / 10, k - 1);
    }
  }
}
