/**
 * The decisions of server/src/controllers/users.controllers.ts. The
 * `userService` the controllers call is not part of this model, so a
 * controller's result is either a response it sends itself, or the one
 * service call it makes (whose result it then sends with status 200).
 */
module UsersControllers {
  import opened Wrappers
  import opened Models
  import opened Collaborators
  import opened Store

  /** A call into `userService`, with exactly the arguments the controller passes. */
  datatype ServiceCall =
    | Login(user_id: string, verify: UserVerifyStatus)
    | RefreshToken(user_id: string, refresh_token: string, verify: UserVerifyStatus)
    | VerifyEmail(user_id: string)
    | ResendEmailVerifyToken(user_id: string)
    | ResetPassword(password: string, user_id: string)
    | FollowUser(user_id: string, followed_user_id: string)
    | UnFollowUser(user_id: string, followed_user_id: string)

  /**
   * Either `res.status(status).json({ message })` without any service call, or
   * the service call, its result sent as `{ message, result }` (when `successMessage`
   * is present) or as the body itself.
   */
  datatype Reply =
    | Respond(status: int, message: string)
    | Delegate(call: ServiceCall, successMessage: Option<string>)

  /** The request body of reset-password (`ResetPasswordRequestBody`). */
  datatype ResetPasswordRequestBody = ResetPasswordRequestBody(forgot_password_token: string, password: string, confirm_password: string)

  /** loginController: logs in the user that loginMiddleware attached, with that user's own id and status. */
  function LoginController(user: User): (r: Reply)
    ensures r.Delegate? && r.call.Login?
    ensures r.call.user_id == user._id && r.call.verify == user.verify
    ensures r.successMessage == Some(LOGIN_SUCCESS)
  {
    Delegate(Login(user._id, user.verify), Some(LOGIN_SUCCESS))
  }

  /** refreshTokenController: forwards the refresh token's decoded user and status with the presented token. */
  function RefreshTokenController(decoded_refresh_token: TokenPayload, refresh_token: string): (r: Reply)
    ensures r.Delegate? && r.call.RefreshToken?
    ensures r.call.user_id == decoded_refresh_token.user_id && r.call.verify == decoded_refresh_token.verify
    ensures r.call.refresh_token == refresh_token
  {
    Delegate(ServiceCall.RefreshToken(decoded_refresh_token.user_id, refresh_token, decoded_refresh_token.verify), Some(REFRESH_TOKEN_SUCCESS))
  }

  /** An account whose verification is already complete. */
  predicate AlreadyVerified(u: User) {
    u.email_verify_token == "" && u.verify == Verified
  }

  /**
   * verifyEmailTokenController (the user is looked up by the ObjectId the
   * decoded `user_id` denotes): 404 for an unknown user, 200
   * EMAIL_ALREADY_VERIFIED_BEFORE for a verified one, and only otherwise
   * `verifyEmail(user_id)`.
   */
  function VerifyEmailTokenController(decoded_email_verify_token: TokenPayload, s: Store, env: Env): (r: Reply)
    ensures (forall u :: u in s.users ==> u._id != env.toObjectId(decoded_email_verify_token.user_id)) ==> r == Respond(NOT_FOUND, USER_NOT_FOUND)
    ensures r.Delegate? <==> exists u :: u in s.users && u._id == env.toObjectId(decoded_email_verify_token.user_id) && !AlreadyVerified(u)
                                         && UserById(s, env.toObjectId(decoded_email_verify_token.user_id)) == Some(u)
    ensures r.Delegate? ==> r.call == VerifyEmail(decoded_email_verify_token.user_id)
    ensures r.Respond? ==> r == Respond(NOT_FOUND, USER_NOT_FOUND) || r == Respond(OK, EMAIL_ALREADY_VERIFIED_BEFORE)
  {
    var user_id := decoded_email_verify_token.user_id;
    match UserById(s, env.toObjectId(user_id))
    case None => Respond(NOT_FOUND, USER_NOT_FOUND)
    case Some(user) =>
      if AlreadyVerified(user) then Respond(OK, EMAIL_ALREADY_VERIFIED_BEFORE)
      else Delegate(VerifyEmail(user_id), Some(EMAIL_VERIFY_SUCCESS))
  }

  /**
   * resendEmailVerifyController: the same two short-circuits, then
   * `resendEmailVerifyToken` with the found user's id.
   */
  function ResendEmailVerifyController(decoded_authorization: TokenPayload, s: Store, env: Env): (r: Reply)
    ensures (forall u :: u in s.users ==> u._id != env.toObjectId(decoded_authorization.user_id)) ==> r == Respond(NOT_FOUND, USER_NOT_FOUND)
    ensures r.Delegate? <==> exists u :: u in s.users && u._id == env.toObjectId(decoded_authorization.user_id) && !AlreadyVerified(u)
                                         && UserById(s, env.toObjectId(decoded_authorization.user_id)) == Some(u)
    ensures r.Delegate? ==> r.call == ResendEmailVerifyToken(env.toObjectId(decoded_authorization.user_id))
    ensures r.Respond? ==> r == Respond(NOT_FOUND, USER_NOT_FOUND) || r == Respond(OK, EMAIL_ALREADY_VERIFIED_BEFORE)
  {
    match UserById(s, env.toObjectId(decoded_authorization.user_id))
    case None => Respond(NOT_FOUND, USER_NOT_FOUND)
    case Some(user) =>
      if AlreadyVerified(user) then Respond(OK, EMAIL_ALREADY_VERIFIED_BEFORE)
      else Delegate(ResendEmailVerifyToken(user._id), None)
  }

  /** resetPasswordController: the new password from the body, the user from the decoded forgot-password token. */
  function ResetPasswordController(body: ResetPasswordRequestBody, decoded_forgot_password_token: TokenPayload): (r: Reply)
    ensures r.Delegate? && r.call.ResetPassword?
    ensures r.call.password == body.password && r.call.user_id == decoded_forgot_password_token.user_id
  {
    Delegate(ResetPassword(body.password, decoded_forgot_password_token.user_id), None)
  }

  /** The body's other fields play no part in whose password is reset. */
  lemma ResetPasswordIgnoresBodyToken(b1: ResetPasswordRequestBody, b2: ResetPasswordRequestBody, decoded: TokenPayload)
    requires b1.password == b2.password
    ensures ResetPasswordController(b1, decoded) == ResetPasswordController(b2, decoded)
  {
  }

  /**
   * followUserController: following oneself is a 400 and never reaches
   * `followUser`. "Oneself" is decided by comparing the id strings, not the
   * ObjectIds they denote.
   */
  function FollowUserController(decoded_authorization: TokenPayload, follow_user_id: string): (r: Reply)
    ensures r.Respond? <==> decoded_authorization.user_id == follow_user_id
    ensures r.Respond? ==> r == Respond(BAD_REQUEST, CANNOT_FOLLOW_YOURSELF)
    ensures r.Delegate? ==> r.call == FollowUser(decoded_authorization.user_id, follow_user_id)
  {
    var user_id := decoded_authorization.user_id;
    if user_id == follow_user_id then Respond(BAD_REQUEST, CANNOT_FOLLOW_YOURSELF)
    else Delegate(FollowUser(user_id, follow_user_id), None)
  }

  /** unFollowUserController: unfollowing oneself is a 400 and never reaches `unFollowUser`. */
  function UnFollowUserController(decoded_authorization: TokenPayload, followed_user_id: string): (r: Reply)
    ensures r.Respond? <==> decoded_authorization.user_id == followed_user_id
    ensures r.Respond? ==> r == Respond(BAD_REQUEST, ID_CANNOT_OVERLAP)
    ensures r.Delegate? ==> r.call == UnFollowUser(decoded_authorization.user_id, followed_user_id)
  {
    var user_id := decoded_authorization.user_id;
    if user_id == followed_user_id then Respond(BAD_REQUEST, ID_CANNOT_OVERLAP)
    else Delegate(UnFollowUser(user_id, followed_user_id), None)
  }

  /** With unique ids, verify-email calls the service exactly when the named user exists and is not yet verified. */
  lemma VerifyEmailCallsServiceIff(decoded: TokenPayload, s: Store, env: Env)
    requires UniqueIds(s)
    ensures VerifyEmailTokenController(decoded, s, env).Delegate? <==>
              exists u :: u in s.users && u._id == env.toObjectId(decoded.user_id) && !AlreadyVerified(u)
  {
    if u :| u in s.users && u._id == env.toObjectId(decoded.user_id) && !AlreadyVerified(u) {
      UserByIdFinds(s, u);
    }
  }

  /** A stored user that has completed verification gets 200 EMAIL_ALREADY_VERIFIED_BEFORE from both controllers. */
  lemma AlreadyVerifiedShortCircuits(u: User, decoded: TokenPayload, s: Store, env: Env)
    requires UniqueIds(s) && u in s.users && u._id == env.toObjectId(decoded.user_id) && AlreadyVerified(u)
    ensures VerifyEmailTokenController(decoded, s, env) == Respond(OK, EMAIL_ALREADY_VERIFIED_BEFORE)
    ensures ResendEmailVerifyController(decoded, s, env) == Respond(OK, EMAIL_ALREADY_VERIFIED_BEFORE)
  {
    UserByIdFinds(s, u);
  }
}
