/**
 * The Google sign-in callback (find by Google id, else link by e-mail,
 * else create) and the session (de)serialisation of users by id.
 */
module Passport {
  import opened Records
  import opened Store
  import ForgotPassword

  /**
   * The parts of a Google profile the callback reads. A profile without a
   * `photos` array has `photos == None`; reading its first entry throws.
   */
  datatype Profile = Profile(id: string, displayName: string, emails: seq<string>, photos: Option<seq<string>>)

  /** What the callback hands to `done`: the user it found, linked or created, or an error. */
  datatype GoogleOutcome = Existing(userId: UserId) | Linked(userId: UserId) | Created(userId: UserId) | Errored

  /** `profile.photos[0]?.value || null`. */
  function FirstPhoto(photos: seq<string>): (r: Option<string>)
    ensures r.Some? <==> |photos| > 0 && photos[0] != ""
    ensures r.Some? ==> r.value == photos[0]
  {
    if |photos| > 0 && photos[0] != "" then Some(photos[0]) else None
  }

  /** An existing account taken over by Google sign-in. */
  function LinkGoogle(u: User, profile: Profile): (r: User)
    requires profile.photos.Some?
    ensures r.googleId == Some(profile.id) && r.authProvider == GoogleProvider
    ensures r.profilePicture == FirstPhoto(profile.photos.value)
    ensures r.(googleId := u.googleId, authProvider := u.authProvider, profilePicture := u.profilePicture) == u
  {
    u.(googleId := Some(profile.id), authProvider := GoogleProvider, profilePicture := FirstPhoto(profile.photos.value))
  }

  /** The row created for a first Google sign-in: no password, the model's defaults elsewhere. */
  function NewGoogleUser(id: UserId, profile: Profile): (r: User)
    requires |profile.emails| > 0 && profile.photos.Some?
    ensures r.id == id && r.email == profile.emails[0] && r.name == profile.displayName
    ensures r.googleId == Some(profile.id) && r.authProvider == GoogleProvider && r.password.None?
    ensures r.profilePicture == FirstPhoto(profile.photos.value)
    ensures r.credits == 0 && r.planId.None? && r.dailyUsage == 0 && r.lastUsageDate.None?
    ensures r.resetOtp.None? && r.resetOtpExpiry.None? && r.resetOtpAttempts == 0
  {
    User(id, profile.displayName, profile.emails[0], None, GoogleProvider, Some(profile.id),
      FirstPhoto(profile.photos.value), 0, None, 0, None, None, None, 0)
  }

  /** Every row is stored under its own id, as a primary key is. */
  ghost predicate KeyedById(users: map<UserId, User>)
  {
    forall k :: k in users ==> users[k].id == k
  }

  /** No row holds the profile's Google id. */
  ghost predicate NewGoogleId(users: map<UserId, User>, profile: Profile)
  {
    forall k :: k in users ==> users[k].googleId != Some(profile.id)
  }

  /**
   * The callback's decision: Google id first, then e-mail, then a new row.
   * A profile without e-mails throws at the e-mail lookup, and one without
   * photos throws when the picture is read, in both the link and the create
   * branch; either error reaches `done` before anything is saved.
   */
  ghost function GoogleDecision(users: map<UserId, User>, profile: Profile, freshId: UserId): (r: GoogleOutcome)
    requires EmailsUnique(users) && GoogleIdsUnique(users)
    ensures r.Existing? <==> !NewGoogleId(users, profile)
    ensures r.Existing? ==> r.userId in users && users[r.userId].googleId == Some(profile.id)
    ensures r.Errored? <==> NewGoogleId(users, profile) && (|profile.emails| == 0 || profile.photos.None?)
    ensures r.Linked? ==>
      && |profile.emails| > 0 && profile.photos.Some?
      && r.userId in users && users[r.userId].email == profile.emails[0]
    ensures r.Created? ==>
      && r.userId == freshId && |profile.emails| > 0 && profile.photos.Some?
      && forall k :: k in users ==> users[k].email != profile.emails[0]
  {
    UniqueColumnsDetermineLookup(users, ByGoogleId(profile.id));
    match Lookup(users, ByGoogleId(profile.id))
    case Some(uid) => Existing(uid)
    case None =>
      if |profile.emails| == 0 then Errored
      else
        UniqueColumnsDetermineLookup(users, ByEmail(profile.emails[0]));
        match Lookup(users, ByEmail(profile.emails[0]))
        case Some(uid) => if profile.photos.None? then Errored else Linked(uid)
        case None => if profile.photos.None? then Errored else Created(freshId)
  }

  /**
   * The table after the callback: only a link or a create writes, and each
   * writes the one row the decision names.
   */
  ghost function AfterGoogle(users: map<UserId, User>, profile: Profile, freshId: UserId): (after: map<UserId, User>)
    requires EmailsUnique(users) && GoogleIdsUnique(users)
    ensures users.Keys <= after.Keys
    ensures GoogleDecision(users, profile, freshId).Existing? || GoogleDecision(users, profile, freshId).Errored? ==>
      after == users
    ensures GoogleDecision(users, profile, freshId).Linked? ==> after.Keys == users.Keys
    ensures GoogleDecision(users, profile, freshId).Created? ==> after.Keys == users.Keys + {freshId}
  {
    match GoogleDecision(users, profile, freshId)
    case Existing(_) => users
    case Errored => users
    case Linked(uid) => users[uid := LinkGoogle(users[uid], profile)]
    case Created(id) => users[id := NewGoogleUser(id, profile)]
  }

  /**
   * A user already holding the Google id is returned as is, even when
   * another user holds the profile's e-mail.
   */
  lemma GoogleIdTakesPrecedence(users: map<UserId, User>, profile: Profile, freshId: UserId, uid: UserId)
    requires EmailsUnique(users) && GoogleIdsUnique(users)
    requires uid in users && users[uid].googleId == Some(profile.id)
    ensures GoogleDecision(users, profile, freshId) == Existing(uid)
    ensures AfterGoogle(users, profile, freshId) == users
  {
    UniqueColumnsDetermineLookup(users, ByGoogleId(profile.id));
  }

  /**
   * The callback keeps e-mails and Google ids unique and every row under
   * its id, and a successful sign-in ends on a row holding the Google id.
   */
  lemma GoogleKeepsTableSound(users: map<UserId, User>, profile: Profile, freshId: UserId)
    requires EmailsUnique(users) && GoogleIdsUnique(users) && KeyedById(users)
    requires freshId !in users
    ensures var after := AfterGoogle(users, profile, freshId);
      && EmailsUnique(after) && GoogleIdsUnique(after) && KeyedById(after)
      && users.Keys <= after.Keys
    ensures match GoogleDecision(users, profile, freshId)
      case Errored => true
      case Existing(uid) => uid in users && users[uid].googleId == Some(profile.id)
      case Linked(uid) => AfterGoogle(users, profile, freshId)[uid].googleId == Some(profile.id)
      case Created(uid) => AfterGoogle(users, profile, freshId)[uid].googleId == Some(profile.id)
  {
  }

  /**
   * Linked and created accounts are Google accounts: the reset-code route
   * refuses them from then on, even a linked one that still has a password.
   */
  lemma GoogleAccountsCannotRequestOtp(u: User, id: UserId, profile: Profile)
    requires |profile.emails| > 0 && profile.photos.Some?
    ensures ForgotPassword.UsesGoogleLogin(LinkGoogle(u, profile))
    ensures LinkGoogle(u, profile).password == u.password
    ensures ForgotPassword.UsesGoogleLogin(NewGoogleUser(id, profile))
  {
  }

  // --------------------------------------------------------- serialisation

  /** `serializeUser`: only the id goes into the session. */
  function Serialize(u: User): (id: UserId)
    ensures id == u.id
  {
    u.id
  }

  /** `deserializeUser`: the row with that primary key, if any. */
  function Deserialize(users: map<UserId, User>, id: UserId): (r: Option<User>)
    ensures r.Some? <==> id in users
    ensures r.Some? ==> r.value == users[id]
  {
    if id in users then Some(users[id]) else None
  }

  /** A stored user comes back unchanged from its session id. */
  lemma SessionRoundTrip(users: map<UserId, User>, u: User)
    requires KeyedById(users)
    requires u in users.Values
    ensures Deserialize(users, Serialize(u)) == Some(u)
  {
    var k :| k in users && users[k] == u;
  }

  // -------------------------------------------------------------- callback

  /** The GoogleStrategy verify callback. `freshId` is the UUID a create would assign. */
  method GoogleVerify(db: Db, profile: Profile, freshId: UserId) returns (r: GoogleOutcome)
    requires EmailsUnique(db.users) && GoogleIdsUnique(db.users)
    requires freshId !in db.users
    modifies db`users
    ensures r == GoogleDecision(old(db.users), profile, freshId)
    ensures db.users == AfterGoogle(old(db.users), profile, freshId)
  {
    UniqueColumnsDetermineLookup(db.users, ByGoogleId(profile.id));
    var byGoogle := FindOne(db.users, ByGoogleId(profile.id));
    if byGoogle.Some? {
      return Existing(byGoogle.value);
    }
    if |profile.emails| == 0 {
      return Errored;
    }
    UniqueColumnsDetermineLookup(db.users, ByEmail(profile.emails[0]));
    var byEmail := FindOne(db.users, ByEmail(profile.emails[0]));
    if byEmail.Some? {
      var user := db.users[byEmail.value];
      user := user.(googleId := Some(profile.id));
      user := user.(authProvider := GoogleProvider);
      if profile.photos.None? {
        return Errored;
      }
      user := user.(profilePicture := FirstPhoto(profile.photos.value));
      db.users := db.users[byEmail.value := user];
      return Linked(byEmail.value);
    }
    if profile.photos.None? {
      return Errored;
    }
    db.users := db.users[freshId := NewGoogleUser(freshId, profile)];
    r := Created(freshId);
  }
}
