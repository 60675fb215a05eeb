/**
 * The decisions of src/middlewares/users.middleware.ts: the custom
 * validators (token checks and store lookups) as total functions of the
 * sanitized value and a store snapshot, the per-middleware lists of mapped
 * field errors that `validate` receives, and verifyUserValidator.
 */
module UsersMiddleware {
  import opened Wrappers
  import opened Models
  import opened Collaborators
  import opened JsString
  import opened Errors
  import opened Store
  import opened FieldRules
  import opened Validator

  /** A custom validator's verdict: accepted (with what it attaches to the request) or the thrown `msg`. */
  datatype Check<T> = Accept(value: T) | Reject(msg: Msg)

  /** How a custom validator's `try` block ends: normally, by throwing an error, or by a `JsonWebTokenError`. */
  datatype Attempt<T> = Done(value: T) | Raised(error: AppError) | JwtRaised(message: string)

  function Unauthorized(message: string): AppError {
    NewErrorWithStatus(message, UNAUTHORIZED)
  }

  /**
   * The `catch` of every token validator: a `JsonWebTokenError` becomes a 401
   * `ErrorWithStatus` with the capitalised library message; any other error
   * is rethrown unchanged.
   */
  function CatchTokenError<T>(attempt: Attempt<T>, env: Env): (r: Check<T>)
    ensures attempt.Done? ==> r == Accept(attempt.value)
    ensures attempt.Raised? ==> r == Reject(Thrown(attempt.error))
    ensures attempt.JwtRaised? ==> r == Reject(Thrown(ErrorWithStatus(env.capitalize(attempt.message), UNAUTHORIZED)))
  {
    match attempt
    case Done(v) => Accept(v)
    case Raised(e) => Reject(Thrown(e))
    case JwtRaised(m) => Reject(Thrown(Unauthorized(env.capitalize(m))))
  }

  /** `await verifyToken({ token, secretOrPublicKey })` inside a `try`. */
  function VerifyAttempt(token: string, secret: Secret, env: Env): Attempt<TokenPayload> {
    match env.verifyToken(token, secret)
    case Decoded(p) => Done(p)
    case JsonWebTokenError(m) => JwtRaised(m)
  }

  // ---------------------------------------------------------------- accessTokenValidator

  /** The `try` block of accessTokenValidator: the token is `value.split(' ')[1]`. */
  function AccessTokenAttempt(value: string, env: Env): Attempt<TokenPayload> {
    var parts := SplitOnSpace(value);
    if |parts| < 2 then Raised(Unauthorized(ACCESS_TOKEN_IS_REQUIRED))
    else VerifyAttempt(parts[1], AccessTokenKey, env)
  }

  /** accessTokenValidator's custom check of the trimmed `Authorization` value. */
  function CheckAccessToken(value: string, env: Env): (r: Check<TokenPayload>)
    ensures r.Reject? ==> r.msg.Thrown? && r.msg.error.status == UNAUTHORIZED
  {
    if value == "" then Reject(Thrown(Unauthorized(ACCESS_TOKEN_IS_REQUIRED)))
    else CatchTokenError(AccessTokenAttempt(value, env), env)
  }

  /** An empty value, or one with no second space-separated word, is refused with 401 ACCESS_TOKEN_IS_REQUIRED. */
  lemma AccessTokenRequired(value: string, env: Env)
    requires value == "" || ' ' !in value
    ensures CheckAccessToken(value, env) == Reject(Thrown(ErrorWithStatus(ACCESS_TOKEN_IS_REQUIRED, UNAUTHORIZED)))
  {
    SecondPieceIffSpace(value);
  }

  /**
   * The token verified is exactly the second space-separated word, and the
   * first word (`Bearer` or anything else) is never inspected.
   */
  lemma AccessTokenIsSecondWord(w: string, t: string, rest: string, env: Env)
    requires ' ' !in w && ' ' !in t
    requires rest == [] || rest[0] == ' '
    ensures CheckAccessToken(w + " " + t + rest, env) ==
              match env.verifyToken(t, AccessTokenKey)
              case Decoded(p) => Accept(p)
              case JsonWebTokenError(m) => Reject(Thrown(ErrorWithStatus(env.capitalize(m), UNAUTHORIZED)))
  {
    SecondPiece(w, t, rest);
    assert |w + " " + t + rest| > 0;
  }

  // ---------------------------------------------------------------- refreshTokenValidator

  /**
   * refreshTokenValidator's custom check of the trimmed `refresh_token`: the
   * signature must verify (a failure there wins, as in `Promise.all`) and a
   * stored record must hold exactly this token.
   */
  function CheckRefreshToken(value: string, s: Store, env: Env): (r: Check<TokenPayload>)
    ensures r.Accept? <==>
              && value != ""
              && env.verifyToken(value, RefreshTokenKey).Decoded?
              && exists rt :: rt in s.refreshTokens && rt.token == value
    ensures r.Accept? ==> r.value == env.verifyToken(value, RefreshTokenKey).payload
    ensures value != "" && env.verifyToken(value, RefreshTokenKey).Decoded?
            && (forall rt :: rt in s.refreshTokens ==> rt.token != value) ==>
              r == Reject(Thrown(ErrorWithStatus(USED_REFRESH_TOKEN_OR_NOT_EXIST, UNAUTHORIZED)))
    ensures value == "" ==> r == Reject(Thrown(ErrorWithStatus(REFRESH_TOKEN_IS_REQUIRED, UNAUTHORIZED)))
    ensures value != "" && env.verifyToken(value, RefreshTokenKey).JsonWebTokenError? ==>
              r == Reject(Thrown(ErrorWithStatus(env.capitalize(env.verifyToken(value, RefreshTokenKey).message), UNAUTHORIZED)))
    ensures r.Reject? ==> r.msg.Thrown? && r.msg.error.status == UNAUTHORIZED
  {
    CatchTokenError(
      if value == "" then Raised(Unauthorized(REFRESH_TOKEN_IS_REQUIRED))
      else match env.verifyToken(value, RefreshTokenKey)
        case JsonWebTokenError(m) => JwtRaised(m)
        case Decoded(p) =>
          if RefreshTokenRecord(s, value).None? then Raised(Unauthorized(USED_REFRESH_TOKEN_OR_NOT_EXIST))
          else Done(p),
      env)
  }

  // ---------------------------------------------------------------- emailVerifyTokenValidator

  /**
   * emailVerifyTokenValidator's custom check of the trimmed
   * `email_verify_token`. A missing token is reported with the
   * REFRESH_TOKEN_IS_REQUIRED message, as the code does.
   */
  function CheckEmailVerifyToken(value: string, env: Env): (r: Check<TokenPayload>)
    ensures r.Accept? <==> value != "" && env.verifyToken(value, EmailVerifyTokenKey).Decoded?
    ensures r.Accept? ==> r.value == env.verifyToken(value, EmailVerifyTokenKey).payload
    ensures value == "" ==> r == Reject(Thrown(ErrorWithStatus(REFRESH_TOKEN_IS_REQUIRED, UNAUTHORIZED)))
    ensures value != "" && env.verifyToken(value, EmailVerifyTokenKey).JsonWebTokenError? ==>
              r == Reject(Thrown(ErrorWithStatus(env.capitalize(env.verifyToken(value, EmailVerifyTokenKey).message), UNAUTHORIZED)))
    ensures r.Reject? ==> r.msg.Thrown? && r.msg.error.status == UNAUTHORIZED
  {
    CatchTokenError(
      if value == "" then Raised(Unauthorized(REFRESH_TOKEN_IS_REQUIRED))
      else VerifyAttempt(value, EmailVerifyTokenKey, env),
      env)
  }

  // ---------------------------------------------------------------- forgotPasswordTokenSchema

  /**
   * forgotPasswordTokenSchema's custom check of the trimmed
   * `forgot_password_token`: it must verify, name an existing user (looked
   * up by the ObjectId its `user_id` denotes), and be the token stored on
   * that user.
   */
  function CheckForgotPasswordToken(value: string, s: Store, env: Env): (r: Check<TokenPayload>)
    ensures r.Accept? ==> value != "" && env.verifyToken(value, ForgotPasswordTokenKey) == Decoded(r.value)
    ensures r.Accept? ==> exists u :: u in s.users && u._id == env.toObjectId(r.value.user_id) && u.forgot_password_token == value
    ensures value == "" ==> r == Reject(Thrown(ErrorWithStatus(FORGOT_PASSWORD_TOKEN_IS_REQUIRED, UNAUTHORIZED)))
    ensures value != "" && env.verifyToken(value, ForgotPasswordTokenKey).JsonWebTokenError? ==>
              r == Reject(Thrown(ErrorWithStatus(env.capitalize(env.verifyToken(value, ForgotPasswordTokenKey).message), UNAUTHORIZED)))
    ensures value != "" && env.verifyToken(value, ForgotPasswordTokenKey).Decoded?
            && UserById(s, env.toObjectId(env.verifyToken(value, ForgotPasswordTokenKey).payload.user_id)).None? ==>
              r == Reject(Thrown(ErrorWithStatus(USER_NOT_FOUND, UNAUTHORIZED)))
    ensures value != "" && env.verifyToken(value, ForgotPasswordTokenKey).Decoded?
            && UserById(s, env.toObjectId(env.verifyToken(value, ForgotPasswordTokenKey).payload.user_id)).Some?
            && UserById(s, env.toObjectId(env.verifyToken(value, ForgotPasswordTokenKey).payload.user_id)).value.forgot_password_token != value ==>
              r == Reject(Thrown(ErrorWithStatus(INVALID_FORGOT_PASSWORD_TOKEN, UNAUTHORIZED)))
    ensures r.Reject? ==> r.msg.Thrown? && r.msg.error.status == UNAUTHORIZED
  {
    CatchTokenError(
      if value == "" then Raised(Unauthorized(FORGOT_PASSWORD_TOKEN_IS_REQUIRED))
      else match env.verifyToken(value, ForgotPasswordTokenKey)
        case JsonWebTokenError(m) => JwtRaised(m)
        case Decoded(p) =>
          match UserById(s, env.toObjectId(p.user_id))
          case None => Raised(Unauthorized(USER_NOT_FOUND))
          case Some(u) =>
            if u.forgot_password_token != value then Raised(Unauthorized(INVALID_FORGOT_PASSWORD_TOKEN))
            else Done(p),
      env)
  }

  /**
   * With unique user ids, a forgot-password token is accepted exactly when it
   * verifies and the user it names holds it as their stored token.
   */
  lemma ForgotPasswordTokenAccepted(value: string, s: Store, env: Env)
    requires UniqueIds(s)
    ensures CheckForgotPasswordToken(value, s, env).Accept? <==>
              && value != ""
              && env.verifyToken(value, ForgotPasswordTokenKey).Decoded?
              && exists u :: u in s.users && u._id == env.toObjectId(env.verifyToken(value, ForgotPasswordTokenKey).payload.user_id)
                             && u.forgot_password_token == value
  {
    if value != "" && env.verifyToken(value, ForgotPasswordTokenKey).Decoded? {
      var p := env.verifyToken(value, ForgotPasswordTokenKey).payload;
      if u :| u in s.users && u._id == env.toObjectId(p.user_id) && u.forgot_password_token == value {
        UserByIdFinds(s, u);
      }
    }
  }

  // ---------------------------------------------------------------- verifyUserValidator

  /** verifyUserValidator: `next` with a 403 USER_NOT_VERIFIED error unless the token says Verified. */
  function VerifyUser(decoded: TokenPayload): (next: NextArg)
    ensures next == Proceed <==> decoded.verify == Verified
    ensures next != Proceed ==> next == Fail(ErrorWithStatus(USER_NOT_VERIFIED, FORBIDDEN))
  {
    if decoded.verify != Verified then Fail(NewErrorWithStatus(USER_NOT_VERIFIED, FORBIDDEN)) else Proceed
  }

  // ---------------------------------------------------------------- store lookups

  /** loginMiddleware's custom lookup: a user with this email whose stored password is the hash of the given one. */
  function LoginLookup(email: string, password: string, s: Store, env: Env): (r: Check<User>)
    ensures r.Accept? ==> r.value in s.users && r.value.email == email && r.value.password == env.hashPassword(password)
    ensures r.Reject? <==> forall u :: u in s.users ==> !(u.email == email && u.password == env.hashPassword(password))
    ensures r.Reject? ==> r.msg == Text(EMAIL_OR_PASSWORD_IS_INCORRECT)
  {
    match UserByCredentials(s, email, env.hashPassword(password))
    case None => Reject(Text(EMAIL_OR_PASSWORD_IS_INCORRECT))
    case Some(u) => Accept(u)
  }

  /** registerMiddleware's custom check: the email must not belong to a stored user (`checkEmailExists`). */
  function RegisterEmailCheck(email: string, s: Store): (r: Check<()>)
    ensures r.Reject? <==> exists u :: u in s.users && u.email == email
    ensures r.Reject? ==> r.msg == Text(EMAIL_ALREADY_EXISTS)
  {
    if UserByEmail(s, email).Some? then Reject(Text(EMAIL_ALREADY_EXISTS)) else Accept(())
  }

  /** forgotPasswordValidator's custom lookup: the user with this email. */
  function ForgotPasswordLookup(email: string, s: Store): (r: Check<User>)
    ensures r.Accept? ==> r.value in s.users && r.value.email == email
    ensures r.Reject? <==> forall u :: u in s.users ==> u.email != email
    ensures r.Reject? ==> r.msg == Text(USER_NOT_FOUND)
  {
    match UserByEmail(s, email)
    case None => Reject(Text(USER_NOT_FOUND))
    case Some(u) => Accept(u)
  }

  /**
   * followUserMiddleware's custom check: a well-formed id that denotes an
   * existing user's `_id`, else 404. Any spelling `new ObjectId` maps to the
   * stored id is accepted, not only the stored string itself.
   */
  function FollowUserCheck(value: string, s: Store, env: Env): (r: Check<()>)
    ensures r.Accept? <==> env.isObjectId(value) && exists u :: u in s.users && u._id == env.toObjectId(value)
    ensures !env.isObjectId(value) ==> r == Reject(Thrown(ErrorWithStatus(INVALID_USER_ID, NOT_FOUND)))
    ensures env.isObjectId(value) && (forall u :: u in s.users ==> u._id != env.toObjectId(value)) ==>
              r == Reject(Thrown(ErrorWithStatus(USER_NOT_FOUND, NOT_FOUND)))
    ensures r.Reject? ==> r.msg.Thrown? && r.msg.error.status == NOT_FOUND
  {
    if !env.isObjectId(value) then Reject(Thrown(NewErrorWithStatus(INVALID_USER_ID, NOT_FOUND)))
    else if UserById(s, env.toObjectId(value)).None? then Reject(Thrown(NewErrorWithStatus(USER_NOT_FOUND, NOT_FOUND)))
    else Accept(())
  }

  // ---------------------------------------------------------------- mapped errors per middleware

  function CheckError<T>(c: Check<T>): Option<Msg> {
    match c
    case Accept(_) => None
    case Reject(m) => Some(m)
  }

  function TextError(e: Option<string>): (r: Option<Msg>)
    ensures r.None? <==> e.None?
    ensures r.Some? ==> r.value == Text(e.value)
  {
    match e
    case None => None
    case Some(m) => Some(Text(m))
  }

  /** A chain's first error, or else the error of the check run after it. */
  function FirstError(chain: Option<string>, custom: Option<Msg>): Option<Msg> {
    if chain.Some? then Some(Text(chain.value)) else custom
  }

  /** `errors.mapped()`: the fields that failed, each with its first error, in schema order. */
  function Mapped(fields: seq<(string, Option<Msg>)>, location: Location): (r: seq<(string, FieldError)>)
    ensures |r| <= |fields|
    ensures r == [] <==> forall k :: 0 <= k < |fields| ==> fields[k].1.None?
    ensures forall k :: 0 <= k < |r| ==> (r[k].0, Some(r[k].1.msg)) in fields && r[k].1.location == location
    ensures (forall i, j :: 0 <= i < j < |fields| ==> fields[i].0 != fields[j].0) ==> DistinctKeys(r)
    ensures forall k :: 0 <= k < |fields| && fields[k].1.Some? ==>
              (fields[k].0, FieldError(fields[k].1.value, location)) in r
  {
    if |fields| == 0 then []
    else
      var rest := Mapped(fields[1..], location);
      assert forall k :: 1 <= k < |fields| ==> fields[k] == fields[1..][k - 1];
      match fields[0].1
      case None => rest
      case Some(m) => [(fields[0].0, FieldError(m, location))] + rest
  }

  /**
   * `mapped()` keeps schema order: the entries of a schema are those of its
   * first fields followed by those of the rest.
   */
  lemma {:induction false} MappedKeepsOrder(a: seq<(string, Option<Msg>)>, b: seq<(string, Option<Msg>)>, location: Location)
    ensures Mapped(a + b, location) == Mapped(a, location) + Mapped(b, location)
  {
    if |a| > 0 {
      assert (a + b)[1..] == a[1..] + b;
      MappedKeepsOrder(a[1..], b, location);
    } else {
      assert a + b == b;
    }
  }

  /** A single field contributes its entry exactly when it failed. */
  lemma MappedSingle(name: string, e: Option<Msg>, location: Location)
    ensures e.None? ==> Mapped([(name, e)], location) == []
    ensures e.Some? ==> Mapped([(name, e)], location) == [(name, FieldError(e.value, location))]
  {
  }

  /** accessTokenValidator's mapped errors for an `Authorization` header. */
  function AccessTokenErrors(authorization: string, env: Env): seq<(string, FieldError)> {
    Mapped([("Authorization", CheckError(CheckAccessToken(Trim(authorization), env)))], Headers)
  }

  /** refreshTokenValidator's mapped errors. */
  function RefreshTokenErrors(refresh_token: string, s: Store, env: Env): seq<(string, FieldError)> {
    Mapped([("refresh_token", CheckError(CheckRefreshToken(Trim(refresh_token), s, env)))], Body)
  }

  /** emailVerifyTokenValidator's mapped errors. */
  function EmailVerifyTokenErrors(email_verify_token: string, env: Env): seq<(string, FieldError)> {
    Mapped([("email_verify_token", CheckError(CheckEmailVerifyToken(Trim(email_verify_token), env)))], Body)
  }

  /** verifyForgotPasswordTokenValidator's mapped errors. */
  function VerifyForgotPasswordTokenErrors(forgot_password_token: string, s: Store, env: Env): seq<(string, FieldError)> {
    Mapped([("forgot_password_token", CheckError(CheckForgotPasswordToken(Trim(forgot_password_token), s, env)))], Body)
  }

  /** resetPasswordValidator's mapped errors. */
  function ResetPasswordErrors(forgot_password_token: string, password: string, confirm_password: string, s: Store, env: Env)
    : seq<(string, FieldError)>
  {
    Mapped([
      ("forgot_password_token", CheckError(CheckForgotPasswordToken(Trim(forgot_password_token), s, env))),
      ("password", TextError(PasswordError(password))),
      ("confirm_password", TextError(ConfirmPasswordError(confirm_password, password)))
    ], Body)
  }

  /** loginMiddleware's mapped errors; the lookup uses the trimmed email and password. */
  function LoginErrors(email: string, password: string, s: Store, env: Env): seq<(string, FieldError)> {
    Mapped([
      ("email", FirstError(EmailFormatError(email, env), CheckError(LoginLookup(Trim(email), Trim(password), s, env)))),
      ("password", TextError(PasswordError(password)))
    ], Body)
  }

  /** registerMiddleware's mapped errors. */
  function RegisterErrors(body: RegisterRequestBody, confirm_password: string, s: Store, env: Env): seq<(string, FieldError)> {
    Mapped([
      ("email", FirstError(EmailFormatError(body.email, env), CheckError(RegisterEmailCheck(Trim(body.email), s)))),
      ("name", TextError(NameError(body.name))),
      ("password", TextError(PasswordError(body.password))),
      ("confirm_password", TextError(ConfirmPasswordError(confirm_password, body.password))),
      ("date_of_birth", TextError(DateOfBirthError(body.date_of_birth, env)))
    ], Body)
  }

  /** forgotPasswordValidator's mapped errors. */
  function ForgotPasswordErrors(email: string, s: Store, env: Env): seq<(string, FieldError)> {
    Mapped([("email", FirstError(EmailFormatError(email, env), CheckError(ForgotPasswordLookup(Trim(email), s))))], Body)
  }

  /** followUserMiddleware's mapped errors (this field is not trimmed). */
  function FollowUserErrors(follow_user_id: string, s: Store, env: Env): seq<(string, FieldError)> {
    Mapped([("follow_user_id", CheckError(FollowUserCheck(follow_user_id, s, env)))], Body)
  }

  /** updateMyProfileValidator's mapped errors. */
  function UpdateMyProfileErrors(body: UpdateMyProfileBody, env: Env): seq<(string, FieldError)> {
    var checks := UpdateMyProfileChecks(body, env);
    Mapped(seq(|checks|, k requires 0 <= k < |checks| => (checks[k].0, TextError(checks[k].1))), Body)
  }

  // ---------------------------------------------------------------- what `next` receives

  /** Every refusal of a token gate reaches `next` alone, as the 401 error the gate threw. */
  lemma AccessTokenRefusalForwarded(authorization: string, env: Env)
    requires CheckAccessToken(Trim(authorization), env).Reject?
    ensures ValidationOutcome(AccessTokenErrors(authorization, env)) ==
              Fail(CheckAccessToken(Trim(authorization), env).msg.error)
    ensures ValidationOutcome(AccessTokenErrors(authorization, env)).err.status == UNAUTHORIZED
  {
    var errors := AccessTokenErrors(authorization, env);
    assert |errors| == 1 && Blocking(errors[0].1);
    assert FirstBlocking(errors) == Some(0);
  }

  /** An absent `Authorization` header yields `next(401 ACCESS_TOKEN_IS_REQUIRED)`. */
  lemma MissingAuthorizationForwarded(env: Env)
    ensures ValidationOutcome(AccessTokenErrors("", env)) == Fail(ErrorWithStatus(ACCESS_TOKEN_IS_REQUIRED, UNAUTHORIZED))
  {
    AccessTokenRequired("", env);
    AccessTokenRefusalForwarded("", env);
  }

  /** A gate with no refusal calls `next()` with no argument. */
  lemma AcceptedRefreshTokenProceeds(refresh_token: string, s: Store, env: Env)
    requires CheckRefreshToken(Trim(refresh_token), s, env).Accept?
    ensures ValidationOutcome(RefreshTokenErrors(refresh_token, s, env)) == Proceed
  {
  }

  /** No field of the list failed with an `ErrorWithStatus`. */
  predicate TextOnly(fields: seq<(string, Option<Msg>)>) {
    forall k :: 0 <= k < |fields| ==> fields[k].1.None? || fields[k].1.value.Text?
  }

  /**
   * When every failure is plain text and the first field failed with `m`,
   * `next` receives a 422 EntityError whose entry for that field is `m`.
   */
  lemma FirstTextFailureIs422(fields: seq<(string, Option<Msg>)>, m: string, location: Location)
    requires |fields| > 0 && fields[0].1 == Some(Text(m))
    requires TextOnly(fields)
    requires forall i, j :: 0 <= i < j < |fields| ==> fields[i].0 != fields[j].0
    ensures ValidationOutcome(Mapped(fields, location)).Fail?
    ensures ValidationOutcome(Mapped(fields, location)).err.status == UNPROCESSABLE_ENTITY
    ensures fields[0].0 in ValidationOutcome(Mapped(fields, location)).err.errors
    ensures ValidationOutcome(Mapped(fields, location)).err.errors[fields[0].0] == FieldError(Text(m), location)
  {
    var errors := Mapped(fields, location);
    assert errors[0] == (fields[0].0, FieldError(Text(m), location));
    forall i | 0 <= i < |errors| ensures !Blocking(errors[i].1) {
      var k :| 0 <= k < |fields| && fields[k] == (errors[i].0, Some(errors[i].1.msg));
    }
    EntityErrorCarriesEveryField(errors);
  }

  /**
   * A login whose email is well formed but matches no stored credentials is
   * refused with a 422 EntityError whose `email` entry is
   * EMAIL_OR_PASSWORD_IS_INCORRECT.
   */
  lemma WrongCredentialsAre422(email: string, password: string, s: Store, env: Env)
    requires EmailFormatError(email, env).None?
    requires LoginLookup(Trim(email), Trim(password), s, env).Reject?
    ensures ValidationOutcome(LoginErrors(email, password, s, env)).Fail?
    ensures ValidationOutcome(LoginErrors(email, password, s, env)).err.status == UNPROCESSABLE_ENTITY
    ensures "email" in ValidationOutcome(LoginErrors(email, password, s, env)).err.errors
    ensures ValidationOutcome(LoginErrors(email, password, s, env)).err.errors["email"] ==
              FieldError(Text(EMAIL_OR_PASSWORD_IS_INCORRECT), Body)
  {
    var fields := [
      ("email", FirstError(EmailFormatError(email, env), CheckError(LoginLookup(Trim(email), Trim(password), s, env)))),
      ("password", TextError(PasswordError(password)))
    ];
    assert TextOnly(fields);
    FirstTextFailureIs422(fields, EMAIL_OR_PASSWORD_IS_INCORRECT, Body);
  }

  /**
   * Whatever the other four fields of a registration hold, a plain-message
   * failure `m` of the email field ends in a 422 EntityError whose `email`
   * entry is `m`.
   */
  lemma RegisterEmailFailureIs422(m: string, name: Option<string>, password: Option<string>,
                                  confirm: Option<string>, dob: Option<string>)
    ensures var errors := Mapped([("email", Some(Text(m))), ("name", TextError(name)), ("password", TextError(password)),
                                  ("confirm_password", TextError(confirm)), ("date_of_birth", TextError(dob))], Body);
      && ValidationOutcome(errors).Fail?
      && ValidationOutcome(errors).err.status == UNPROCESSABLE_ENTITY
      && "email" in ValidationOutcome(errors).err.errors
      && ValidationOutcome(errors).err.errors["email"] == FieldError(Text(m), Body)
  {
    var fields := [("email", Some(Text(m))), ("name", TextError(name)), ("password", TextError(password)),
                   ("confirm_password", TextError(confirm)), ("date_of_birth", TextError(dob))];
    assert TextOnly(fields);
    FirstTextFailureIs422(fields, m, Body);
  }

  /** An email already held by a stored user makes registration fail with EMAIL_ALREADY_EXISTS in a 422 EntityError. */
  lemma DuplicateEmailRefused(body: RegisterRequestBody, confirm_password: string, s: Store, env: Env)
    requires EmailFormatError(body.email, env).None?
    requires exists u :: u in s.users && u.email == Trim(body.email)
    ensures ValidationOutcome(RegisterErrors(body, confirm_password, s, env)).Fail?
    ensures ValidationOutcome(RegisterErrors(body, confirm_password, s, env)).err.status == UNPROCESSABLE_ENTITY
    ensures "email" in ValidationOutcome(RegisterErrors(body, confirm_password, s, env)).err.errors
    ensures ValidationOutcome(RegisterErrors(body, confirm_password, s, env)).err.errors["email"] ==
              FieldError(Text(EMAIL_ALREADY_EXISTS), Body)
  {
    assert FirstError(EmailFormatError(body.email, env), CheckError(RegisterEmailCheck(Trim(body.email), s)))
      == Some(Text(EMAIL_ALREADY_EXISTS));
    RegisterEmailFailureIs422(EMAIL_ALREADY_EXISTS, NameError(body.name), PasswordError(body.password),
                              ConfirmPasswordError(confirm_password, body.password), DateOfBirthError(body.date_of_birth, env));
  }

  /** Registration passes validation only for an email no stored user has. */
  lemma RegisterAcceptedEmailIsNew(body: RegisterRequestBody, confirm_password: string, s: Store, env: Env)
    requires ValidationOutcome(RegisterErrors(body, confirm_password, s, env)) == Proceed
    ensures forall u :: u in s.users ==> u.email != Trim(body.email)
  {
    var fields := [
      ("email", FirstError(EmailFormatError(body.email, env), CheckError(RegisterEmailCheck(Trim(body.email), s)))),
      ("name", TextError(NameError(body.name))),
      ("password", TextError(PasswordError(body.password))),
      ("confirm_password", TextError(ConfirmPasswordError(confirm_password, body.password))),
      ("date_of_birth", TextError(DateOfBirthError(body.date_of_birth, env)))
    ];
    assert RegisterErrors(body, confirm_password, s, env) == Mapped(fields, Body);
    assert fields[0].1.None?;
  }
}
