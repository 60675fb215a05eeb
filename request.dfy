/**
 * The request object the middlewares of src/middlewares/users.middleware.ts
 * decorate: each custom validator that accepts attaches what it decoded or
 * found, then `validate` calls `next` once with the outcome. Sanitized body
 * values are passed as arguments rather than written back to the body.
 */
module MiddlewareRequest {
  import opened Wrappers
  import opened Models
  import opened Collaborators
  import opened JsString
  import opened Errors
  import opened Store
  import opened FieldRules
  import opened Validator
  import opened UsersMiddleware

  class Request {
    var decoded_authorization: Option<TokenPayload>
    var decoded_refresh_token: Option<TokenPayload>
    var decoded_email_verify_token: Option<TokenPayload>
    var decoded_forgot_password_token: Option<TokenPayload>
    var user: Option<User>

    /** A fresh request carries nothing decoded. */
    constructor ()
      ensures decoded_authorization.None? && decoded_refresh_token.None? && decoded_email_verify_token.None?
      ensures decoded_forgot_password_token.None? && user.None?
    {
      decoded_authorization := None;
      decoded_refresh_token := None;
      decoded_email_verify_token := None;
      decoded_forgot_password_token := None;
      user := None;
    }

    /** accessTokenValidator. */
    method AccessTokenValidator(authorization: string, env: Env) returns (next: NextArg)
      modifies this`decoded_authorization
      ensures next == ValidationOutcome(AccessTokenErrors(authorization, env))
      ensures decoded_authorization ==
                match CheckAccessToken(Trim(authorization), env)
                case Accept(p) => Some(p)
                case Reject(_) => old(decoded_authorization)
    {
      var check := CheckAccessToken(Trim(authorization), env);
      if check.Accept? {
        decoded_authorization := Some(check.value);
      }
      next := Validate(AccessTokenErrors(authorization, env));
    }

    /** refreshTokenValidator. */
    method RefreshTokenValidator(refresh_token: string, s: Store, env: Env) returns (next: NextArg)
      modifies this`decoded_refresh_token
      ensures next == ValidationOutcome(RefreshTokenErrors(refresh_token, s, env))
      ensures decoded_refresh_token ==
                match CheckRefreshToken(Trim(refresh_token), s, env)
                case Accept(p) => Some(p)
                case Reject(_) => old(decoded_refresh_token)
    {
      var check := CheckRefreshToken(Trim(refresh_token), s, env);
      if check.Accept? {
        decoded_refresh_token := Some(check.value);
      }
      next := Validate(RefreshTokenErrors(refresh_token, s, env));
    }

    /** emailVerifyTokenValidator. */
    method EmailVerifyTokenValidator(email_verify_token: string, env: Env) returns (next: NextArg)
      modifies this`decoded_email_verify_token
      ensures next == ValidationOutcome(EmailVerifyTokenErrors(email_verify_token, env))
      ensures decoded_email_verify_token ==
                match CheckEmailVerifyToken(Trim(email_verify_token), env)
                case Accept(p) => Some(p)
                case Reject(_) => old(decoded_email_verify_token)
    {
      var check := CheckEmailVerifyToken(Trim(email_verify_token), env);
      if check.Accept? {
        decoded_email_verify_token := Some(check.value);
      }
      next := Validate(EmailVerifyTokenErrors(email_verify_token, env));
    }

    /** verifyForgotPasswordTokenValidator. */
    method VerifyForgotPasswordTokenValidator(forgot_password_token: string, s: Store, env: Env) returns (next: NextArg)
      modifies this`decoded_forgot_password_token
      ensures next == ValidationOutcome(VerifyForgotPasswordTokenErrors(forgot_password_token, s, env))
      ensures decoded_forgot_password_token ==
                match CheckForgotPasswordToken(Trim(forgot_password_token), s, env)
                case Accept(p) => Some(p)
                case Reject(_) => old(decoded_forgot_password_token)
    {
      var check := CheckForgotPasswordToken(Trim(forgot_password_token), s, env);
      if check.Accept? {
        decoded_forgot_password_token := Some(check.value);
      }
      next := Validate(VerifyForgotPasswordTokenErrors(forgot_password_token, s, env));
    }

    /** resetPasswordValidator: the forgot-password token, the password and its confirmation. */
    method ResetPasswordValidator(forgot_password_token: string, password: string, confirm_password: string, s: Store, env: Env)
      returns (next: NextArg)
      modifies this`decoded_forgot_password_token
      ensures next == ValidationOutcome(ResetPasswordErrors(forgot_password_token, password, confirm_password, s, env))
      ensures decoded_forgot_password_token ==
                match CheckForgotPasswordToken(Trim(forgot_password_token), s, env)
                case Accept(p) => Some(p)
                case Reject(_) => old(decoded_forgot_password_token)
    {
      var check := CheckForgotPasswordToken(Trim(forgot_password_token), s, env);
      if check.Accept? {
        decoded_forgot_password_token := Some(check.value);
      }
      next := Validate(ResetPasswordErrors(forgot_password_token, password, confirm_password, s, env));
    }

    /** loginMiddleware: the lookup runs whatever the email's format, and attaches the user it finds. */
    method LoginMiddleware(email: string, password: string, s: Store, env: Env) returns (next: NextArg)
      modifies this`user
      ensures next == ValidationOutcome(LoginErrors(email, password, s, env))
      ensures user ==
                match LoginLookup(Trim(email), Trim(password), s, env)
                case Accept(u) => Some(u)
                case Reject(_) => old(user)
    {
      var check := LoginLookup(Trim(email), Trim(password), s, env);
      if check.Accept? {
        user := Some(check.value);
      }
      next := Validate(LoginErrors(email, password, s, env));
    }

    /** forgotPasswordValidator: attaches the user owning the email. */
    method ForgotPasswordValidator(email: string, s: Store, env: Env) returns (next: NextArg)
      modifies this`user
      ensures next == ValidationOutcome(ForgotPasswordErrors(email, s, env))
      ensures user ==
                match ForgotPasswordLookup(Trim(email), s)
                case Accept(u) => Some(u)
                case Reject(_) => old(user)
    {
      var check := ForgotPasswordLookup(Trim(email), s);
      if check.Accept? {
        user := Some(check.value);
      }
      next := Validate(ForgotPasswordErrors(email, s, env));
    }

    /** verifyUserValidator, run after accessTokenValidator has attached the decoded token. */
    method VerifyUserValidator() returns (next: NextArg)
      requires decoded_authorization.Some?
      ensures next == Proceed <==> decoded_authorization.value.verify == Verified
      ensures next != Proceed ==> next == Fail(ErrorWithStatus(USER_NOT_VERIFIED, FORBIDDEN))
    {
      next := VerifyUser(decoded_authorization.value);
    }
  }

  /** registerMiddleware: nothing is attached to the request. */
  method RegisterMiddleware(body: RegisterRequestBody, confirm_password: string, s: Store, env: Env) returns (next: NextArg)
    ensures next == ValidationOutcome(RegisterErrors(body, confirm_password, s, env))
    ensures next == Proceed ==> forall u :: u in s.users ==> u.email != Trim(body.email)
  {
    next := Validate(RegisterErrors(body, confirm_password, s, env));
    if next == Proceed {
      RegisterAcceptedEmailIsNew(body, confirm_password, s, env);
    }
  }

  /** followUserMiddleware: nothing is attached to the request. */
  method FollowUserMiddleware(follow_user_id: string, s: Store, env: Env) returns (next: NextArg)
    ensures next == ValidationOutcome(FollowUserErrors(follow_user_id, s, env))
    ensures next == Proceed <==> env.isObjectId(follow_user_id) && exists u :: u in s.users && u._id == env.toObjectId(follow_user_id)
  {
    next := Validate(FollowUserErrors(follow_user_id, s, env));
  }

  /** updateMyProfileValidator. */
  method UpdateMyProfileValidator(body: UpdateMyProfileBody, env: Env) returns (next: NextArg)
    ensures next == ValidationOutcome(UpdateMyProfileErrors(body, env))
  {
    next := Validate(UpdateMyProfileErrors(body, env));
  }
}
