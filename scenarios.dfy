/**
 * Properties that span several pieces of the request pipeline: what the
 * service stores is what the gates later find, what a gate accepts is what
 * the controller passes to the service, and what `validate` forwards is
 * what the error handler sends.
 */
module Scenarios {
  import opened Wrappers
  import opened Models
  import opened Collaborators
  import opened Errors
  import opened Store
  import opened Validator
  import opened UsersMiddleware
  import opened UsersService
  import opened UsersControllers
  import opened ErrorHandlers

  /** A user just registered passes the login lookup with the same email and password. */
  lemma RegisteredUserCanLogIn(s: Store, payload: RegisterRequestBody, insertedId: string, now: Date, env: Env)
    ensures LoginLookup(payload.email, payload.password, AfterRegister(s, payload, insertedId, now, env), env).Accept?
  {
    var s' := AfterRegister(s, payload, insertedId, now, env);
    var u := s'.users[|s.users|];
    assert u in s'.users && u.email == payload.email && u.password == env.hashPassword(payload.password);
  }

  /**
   * The refresh token returned by `register` is accepted by the refresh-token
   * gate whenever it verifies under the refresh key (it is signed with the
   * default key, so that is up to the key configuration).
   */
  lemma RegisteredRefreshTokenAccepted(s: Store, payload: RegisterRequestBody, insertedId: string, now: Date, env: Env)
    requires SignAccessAndRefreshToken(insertedId, env).refresh_token != ""
    requires env.verifyToken(SignAccessAndRefreshToken(insertedId, env).refresh_token, RefreshTokenKey).Decoded?
    ensures CheckRefreshToken(SignAccessAndRefreshToken(insertedId, env).refresh_token,
                              AfterRegister(s, payload, insertedId, now, env), env).Accept?
  {
    var s' := AfterRegister(s, payload, insertedId, now, env);
    var t := SignAccessAndRefreshToken(insertedId, env).refresh_token;
    RegisterAddsOneOfEach(s, payload, insertedId, now, env);
    assert s'.refreshTokens[|s.refreshTokens|] in s'.refreshTokens;
  }

  /**
   * After the refresh-token gate accepts a token, the controller passes
   * exactly that token, which has a stored record, to
   * `userService.refreshToken`, for the user named in its payload.
   */
  lemma RefreshFlowUsesStoredToken(value: string, s: Store, env: Env)
    requires CheckRefreshToken(value, s, env).Accept?
    ensures var r := RefreshTokenController(CheckRefreshToken(value, s, env).value, value);
      && r.call.user_id == env.verifyToken(value, RefreshTokenKey).payload.user_id
      && RefreshTokenRecord(s, r.call.refresh_token).Some?
  {
    var rt :| rt in s.refreshTokens && rt.token == value;
    var i :| 0 <= i < |s.refreshTokens| && s.refreshTokens[i] == rt;
  }

  /**
   * After the forgot-password gate accepts a token, the controller resets
   * the password of a stored user who holds that very token.
   */
  lemma ResetFlowTargetsTokenHolder(body: ResetPasswordRequestBody, s: Store, env: Env)
    requires CheckForgotPasswordToken(body.forgot_password_token, s, env).Accept?
    ensures var r := ResetPasswordController(body, CheckForgotPasswordToken(body.forgot_password_token, s, env).value);
      && r.call.password == body.password
      && exists u :: u in s.users && u._id == env.toObjectId(r.call.user_id) && u.forgot_password_token == body.forgot_password_token
  {
  }

  /**
   * The self-follow guard compares id strings while the follow gate compares
   * ObjectIds: another spelling of the caller's own id (say, its hex in upper
   * case) passes the gate when the caller is stored, and then reaches
   * `followUser` as a follow of the caller by the caller.
   */
  lemma SelfFollowBySpelling(decoded: TokenPayload, follow_user_id: string, s: Store, env: Env)
    requires env.isObjectId(follow_user_id)
    requires exists u :: u in s.users && u._id == env.toObjectId(decoded.user_id)
    requires env.toObjectId(follow_user_id) == env.toObjectId(decoded.user_id)
    requires follow_user_id != decoded.user_id
    ensures FollowUserCheck(follow_user_id, s, env).Accept?
    ensures FollowUserController(decoded, follow_user_id) == Delegate(FollowUser(decoded.user_id, follow_user_id), None)
  {
  }

  /**
   * Field errors that `validate` collects reach the client as a 422 with the
   * VALIDATION_ERRORS message and the collected entries.
   */
  lemma CollectedErrorsReachClient(mapped: seq<(string, FieldError)>)
    requires |mapped| > 0 && DistinctKeys(mapped)
    requires forall i :: 0 <= i < |mapped| ==> !Blocking(mapped[i].1)
    ensures var resp := DefaultErrorsHandler(FromAppError(ValidationOutcome(mapped).err)).response;
      && resp.status == Num(UNPROCESSABLE_ENTITY)
      && resp.body == map["message" := Str(VALIDATION_ERRORS), "errors" := ErrorMap(Collected(mapped))]
  {
    EntityErrorCarriesEveryField(mapped);
    AppErrorResponse(ValidationOutcome(mapped).err);
  }

  /**
   * An ErrorWithStatus thrown by a custom validator reaches the client with
   * its own (non-zero) status and its message, and nothing of the other
   * fields.
   */
  lemma ThrownErrorReachesClient(mapped: seq<(string, FieldError)>)
    requires FirstBlocking(mapped).Some?
    ensures var e := mapped[FirstBlocking(mapped).value].1.msg.error;
      e.ErrorWithStatus? && e.status != 0 ==>
        DefaultErrorsHandler(FromAppError(ValidationOutcome(mapped).err)).response ==
        Response(Num(e.status), map["message" := Str(e.message)])
  {
    LaterFieldsNotExamined(mapped, []);
    var e := mapped[FirstBlocking(mapped).value].1.msg.error;
    AppErrorResponse(e);
  }
}
