/**
 * The database the handlers share, as one object whose tables the handlers
 * reassign, plus the `findOne` lookups on the Users table and the
 * `User.Plan` association.
 */
module Store {
  import opened Records

  /** The `where` clause of a `User.findOne` lookup. */
  datatype Key = ByEmail(email: string) | ByGoogleId(googleId: string)

  /** The `where` clause of a `findOne`: the e-mail column, or the Google id column. */
  predicate Matches(u: User, key: Key)
    ensures key.ByEmail? ==> (Matches(u, key) <==> u.email == key.email)
    ensures key.ByGoogleId? && u.googleId.None? ==> !Matches(u, key)
    ensures key.ByGoogleId? && u.googleId.Some? ==> (Matches(u, key) <==> u.googleId.value == key.googleId)
  {
    match key
    case ByEmail(e) => u.email == e
    case ByGoogleId(g) => u.googleId == Some(g)
  }

  /** At most one row matches `key`, so `findOne` has one answer. */
  ghost predicate AtMostOne(users: map<UserId, User>, key: Key)
  {
    forall a, b :: a in users && b in users && Matches(users[a], key) && Matches(users[b], key) ==> a == b
  }

  /** The unique constraint on the email column. */
  ghost predicate EmailsUnique(users: map<UserId, User>)
  {
    forall a, b :: a in users && b in users && users[a].email == users[b].email ==> a == b
  }

  /** No Google id is held by two users. */
  ghost predicate GoogleIdsUnique(users: map<UserId, User>)
  {
    forall a, b :: a in users && b in users && users[a].googleId.Some? && users[a].googleId == users[b].googleId ==> a == b
  }

  lemma UniqueColumnsDetermineLookup(users: map<UserId, User>, key: Key)
    requires EmailsUnique(users) && GoogleIdsUnique(users)
    ensures AtMostOne(users, key)
  {
  }

  /** The row `findOne` returns, or None when no row matches. */
  ghost function Lookup(users: map<UserId, User>, key: Key): (r: Option<UserId>)
    requires AtMostOne(users, key)
    ensures r.Some? ==> r.value in users && Matches(users[r.value], key)
    ensures r.None? ==> forall k :: k in users ==> !Matches(users[k], key)
  {
    if exists k :: k in users && Matches(users[k], key) then
      var k :| k in users && Matches(users[k], key); Some(k)
    else
      None
  }

  /** `User.findOne({ where: key })`: a scan of the table. */
  method FindOne(users: map<UserId, User>, key: Key) returns (r: Option<UserId>)
    requires AtMostOne(users, key)
    ensures r == Lookup(users, key)
  {
    var unseen := users.Keys;
    while unseen != {}
      invariant unseen <= users.Keys
      invariant forall k :: k in users && k !in unseen ==> !Matches(users[k], key)
      decreases unseen
    {
      var k :| k in unseen;
      if Matches(users[k], key) {
        return Some(k);
      }
      unseen := unseen - {k};
    }
    return None;
  }

  /** `user.Plan`: the plan the user's planId refers to, if that plan still exists. */
  function PlanOf(plans: map<PlanId, Plan>, u: User): (p: Option<Plan>)
    ensures p.Some? <==> u.planId.Some? && u.planId.value in plans
    ensures p.Some? ==> p.value == plans[u.planId.value]
  {
    if u.planId.Some? && u.planId.value in plans then Some(plans[u.planId.value]) else None
  }

  /** The tables, and the socket-side effects (emitted messages, closed sockets). */
  class Db {
    var users: map<UserId, User>
    var plans: map<PlanId, Plan>
    var sessions: seq<Session>
    var transactions: seq<Transaction>
    var outbox: seq<Emit>
    var closed: set<SocketId>
  }
}
