/**
 * `UserService` of src/services/users.services.ts: token minting,
 * registration as a transition of the database, and the email-existence
 * query. Every token is signed with the default key (`SECRET_JWT_KEY`), as
 * `signToken` does when no key is passed.
 */
module UsersService {
  import opened Wrappers
  import opened Models
  import opened Collaborators
  import opened RefreshTokenSchema
  import opened Store

  datatype TokenPair = TokenPair(access_token: string, refresh_token: string)

  /** signAccessToken: claims `{ user_id, token_type: AccessToken }` with the access lifetime. */
  function SignAccessToken(user_id: string, env: Env): string {
    env.signToken(SignClaims(user_id, AccessToken), JwtKey, AccessTokenExpiresIn)
  }

  /** signRefreshToken: claims `{ user_id, token_type: RefreshToken }` with the refresh lifetime. */
  function SignRefreshToken(user_id: string, env: Env): string {
    env.signToken(SignClaims(user_id, TokenType.RefreshToken), JwtKey, RefreshTokenExpiresIn)
  }

  /** signAccessAndRefreshToken: both tokens for one user, differing only in token type and lifetime. */
  function SignAccessAndRefreshToken(user_id: string, env: Env): (r: TokenPair)
    ensures r.access_token == env.signToken(SignClaims(user_id, AccessToken), JwtKey, AccessTokenExpiresIn)
    ensures r.refresh_token == env.signToken(SignClaims(user_id, TokenType.RefreshToken), JwtKey, RefreshTokenExpiresIn)
  {
    TokenPair(SignAccessToken(user_id, env), SignRefreshToken(user_id, env))
  }

  /**
   * The user document inserted by `register` under the id the driver
   * assigned: the password is stored hashed and the birth date parsed.
   * User.schema.ts is not part of this model; a new user is Unverified and
   * holds no email-verify or forgot-password token.
   */
  function NewUser(payload: RegisterRequestBody, insertedId: string, env: Env): (u: User)
    ensures u._id == insertedId && u.email == payload.email && u.name == payload.name
    ensures u.password == env.hashPassword(payload.password)
    ensures u.verify == Unverified
  {
    User(insertedId, payload.email, payload.name, env.hashPassword(payload.password),
         env.toDate(payload.date_of_birth), Unverified, "", "")
  }

  /** The database after a registration. */
  function AfterRegister(s: Store, payload: RegisterRequestBody, insertedId: string, now: Date, env: Env): Store {
    var tokens := SignAccessAndRefreshToken(insertedId, env);
    Store(s.users + [NewUser(payload, insertedId, env)],
          s.refreshTokens + [NewRefreshToken(RefreshTokenType(None, insertedId, tokens.refresh_token, None), now)])
  }

  /**
   * Registration adds exactly one user, holding the hashed password, and
   * exactly one refresh-token record, holding the returned refresh token for
   * that user and stamped with the clock; nothing already stored changes.
   */
  lemma RegisterAddsOneOfEach(s: Store, payload: RegisterRequestBody, insertedId: string, now: Date, env: Env)
    ensures var s' := AfterRegister(s, payload, insertedId, now, env);
      && |s'.users| == |s.users| + 1 && s'.users[..|s.users|] == s.users
      && |s'.refreshTokens| == |s.refreshTokens| + 1 && s'.refreshTokens[..|s.refreshTokens|] == s.refreshTokens
      && s'.users[|s.users|]._id == insertedId
      && s'.users[|s.users|].password == env.hashPassword(payload.password)
      && s'.refreshTokens[|s.refreshTokens|].token == SignAccessAndRefreshToken(insertedId, env).refresh_token
      && s'.refreshTokens[|s.refreshTokens|].user_id == insertedId
      && s'.refreshTokens[|s.refreshTokens|].created_at == now
  {
  }

  /** After registering, the email exists and the returned refresh token has a record. */
  lemma RegisteredEmailAndTokenFound(s: Store, payload: RegisterRequestBody, insertedId: string, now: Date, env: Env)
    ensures var s' := AfterRegister(s, payload, insertedId, now, env);
      && UserByEmail(s', payload.email).Some?
      && RefreshTokenRecord(s', SignAccessAndRefreshToken(insertedId, env).refresh_token).Some?
  {
    var s' := AfterRegister(s, payload, insertedId, now, env);
    assert s'.users[|s.users|].email == payload.email;
    assert s'.refreshTokens[|s.refreshTokens|].token == SignAccessAndRefreshToken(insertedId, env).refresh_token;
  }

  /**
   * Registration keeps `_id`s unique when the driver assigns an id no stored
   * user has, so the unique-id facts used by the gates and controllers
   * survive the one transition the service makes.
   */
  lemma {:induction false} RegisterKeepsUniqueIds(s: Store, payload: RegisterRequestBody, insertedId: string, now: Date, env: Env)
    requires UniqueIds(s)
    requires forall u :: u in s.users ==> u._id != insertedId
    ensures UniqueIds(AfterRegister(s, payload, insertedId, now, env))
  {
    var s' := AfterRegister(s, payload, insertedId, now, env);
    forall i, j | 0 <= i < j < |s'.users|
      ensures s'.users[i]._id != s'.users[j]._id
    {
      if j == |s.users| {
        assert s'.users[i] == s.users[i];
        assert s.users[i] in s.users;
      } else {
        assert s'.users[i] == s.users[i] && s'.users[j] == s.users[j];
      }
    }
  }

  /** `checkEmailExists`: true exactly when some stored user has this email; the database is only read. */
  method CheckEmailExists(db: Database, email: string) returns (found: bool)
    ensures found <==> exists u :: u in db.users && u.email == email
  {
    var result := UserByEmail(db.Snapshot(), email);
    found := result.Some?;
  }

  /**
   * `register`: insert the user (the driver assigns `insertedId`), mint the
   * two tokens for its id, insert the refresh-token record created at `now`,
   * and return both tokens.
   */
  method Register(db: Database, payload: RegisterRequestBody, insertedId: string, now: Date, env: Env)
    returns (tokens: TokenPair)
    modifies db
    ensures tokens == SignAccessAndRefreshToken(insertedId, env)
    ensures db.Snapshot() == AfterRegister(old(db.Snapshot()), payload, insertedId, now, env)
  {
    db.users := db.users + [NewUser(payload, insertedId, env)];
    var user_id := insertedId;
    tokens := SignAccessAndRefreshToken(user_id, env);
    db.refreshTokens := db.refreshTokens + [NewRefreshToken(RefreshTokenType(None, user_id, tokens.refresh_token, None), now)];
  }
}
