/**
 * An in-memory stand-in for the MongoDB collections behind
 * database.services: the users and the refresh tokens, each kept in
 * insertion order, and `findOne` as "the first matching document".
 */
module Store {
  import opened Wrappers
  import opened Models
  import opened RefreshTokenSchema

  /** A snapshot of the two collections. */
  datatype Store = Store(users: seq<User>, refreshTokens: seq<RefreshToken>)

  /** The index of the first document satisfying `filter`, if any. */
  function FindIndex<T>(docs: seq<T>, filter: T -> bool): (r: Option<nat>)
    ensures r.Some? ==> r.value < |docs| && filter(docs[r.value])
    ensures r.Some? ==> forall j :: 0 <= j < r.value ==> !filter(docs[j])
    ensures r.None? ==> forall j :: 0 <= j < |docs| ==> !filter(docs[j])
  {
    if |docs| == 0 then None
    else if filter(docs[0]) then Some(0)
    else match FindIndex(docs[1..], filter)
      case None => None
      case Some(k) => Some(k + 1)
  }

  /** `collection.findOne(filter)`: the first matching document, or `null`. */
  function FindOne<T>(docs: seq<T>, filter: T -> bool): (r: Option<T>)
    ensures r.Some? <==> exists i :: 0 <= i < |docs| && filter(docs[i])
    ensures r.Some? ==> r.value in docs && filter(r.value)
  {
    match FindIndex(docs, filter)
    case None => None
    case Some(k) => Some(docs[k])
  }

  /** `users.findOne({ email })`. */
  function UserByEmail(s: Store, email: string): Option<User> {
    FindOne(s.users, (u: User) => u.email == email)
  }

  /** `users.findOne({ _id })`. */
  function UserById(s: Store, id: string): Option<User> {
    FindOne(s.users, (u: User) => u._id == id)
  }

  /** `users.findOne({ email, password })`. */
  function UserByCredentials(s: Store, email: string, password: string): Option<User> {
    FindOne(s.users, (u: User) => u.email == email && u.password == password)
  }

  /** `refreshToken.findOne({ token })`. */
  function RefreshTokenRecord(s: Store, token: string): Option<RefreshToken> {
    FindOne(s.refreshTokens, (rt: RefreshToken) => rt.token == token)
  }

  /** MongoDB's unique index on `_id`. */
  ghost predicate UniqueIds(s: Store) {
    forall i, j :: 0 <= i < j < |s.users| ==> s.users[i]._id != s.users[j]._id
  }

  /** With unique ids, looking a user up by id finds exactly the stored user with that id. */
  lemma UserByIdFinds(s: Store, u: User)
    requires UniqueIds(s)
    requires u in s.users
    ensures UserById(s, u._id) == Some(u)
  {
    var f := (v: User) => v._id == u._id;
    var k := FindIndex(s.users, f);
    var i :| 0 <= i < |s.users| && s.users[i] == u;
    assert f(s.users[i]);
    assert k.Some?;
    assert k.value == i;
  }

  /** The mutable database the services write to. */
  class Database {
    var users: seq<User>
    var refreshTokens: seq<RefreshToken>

    constructor ()
      ensures users == [] && refreshTokens == []
    {
      users := [];
      refreshTokens := [];
    }

    /** The current contents of both collections. */
    function Snapshot(): Store
      reads this
    {
      Store(users, refreshTokens)
    }
  }
}
