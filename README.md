# chat_app_ts account service — a Dafny model

This project models the request pipeline of the chat_app_ts account API (Express + MongoDB).
A request goes through four stages:

1. **Gates.** The `users.middleware.ts` validators check the request fields and tokens. Each
   `checkSchema` chain runs every validator of a field. The field reports its first error.
   Token checks verify a JWT and consult the database. An accepting check attaches what it
   decoded or found to the request.
2. **`validate`.** It turns the collected field errors into one `next(...)` call:
   - nothing, when no field failed;
   - the first error a custom validator threw with a status other than 422, alone;
   - otherwise a 422 `EntityError` carrying every field's error.
3. **Controllers.** A controller either answers by itself (404, "already verified", "cannot
   follow yourself") or makes exactly one `userService` call.
4. **Error handlers.** `defaultErrorsHandler` and `errorsHandler` turn whatever reached them
   into the response.

The model also covers `UserService.register` and `checkEmailExists` as operations on a
database object, the token-signing helpers, the `RefreshToken` record and the
`ErrorWithStatus`/`EntityError` classes.

The model makes these choices:

- **Collaborators are parameters.** JWT verify/sign, password hashing, lodash `capitalize`,
  validator.js `isEmail`/`isISO8601`, `ObjectId.isValid`, `new ObjectId(string)` and
  `new Date(string)` are uninterpreted functions inside an `Env` value. `toObjectId` maps a
  string to the stored `_id` it denotes. Lookups by `_id` go through it, so several spellings
  of one id (for example upper- and lower-case hex) find the same user. Nothing is assumed about them beyond what
  their callers rely on.
- **The database.** `Store` is a snapshot of two collections. `findOne` returns the first
  matching document in insertion order. `UniqueIds` states MongoDB's unique `_id` index.
  `Database` is the mutable object that `register` updates. users.services.ts reads
  `database.user` while the middleware reads `database.users`. Both are taken to be the one
  users collection.
- **Absent fields.** An absent request field is the empty string, which is how
  express-validator reads it. The optional profile fields are `Option`s.
- **Messages.** `CLIENT_MESSAGE.X` is represented by the text `"X"`, because
  constants/messages.ts is not part of this model. HTTP statuses are the standard numbers.

Every token is signed with the default key `SECRET_JWT_KEY`, because users.services.ts passes
no key to `signToken`. The gates verify with per-purpose keys. So a freshly issued refresh
token passes `refreshTokenValidator` only if those keys agree, and
`Scenarios.RegisteredRefreshTokenAccepted` states that as a precondition.

Three points follow the code rather than its apparent intent:

- emailVerifyTokenValidator reports a missing token with REFRESH_TOKEN_IS_REQUIRED.
- verifyEmailTokenController and resendEmailVerifyController treat a user as already verified
  only when `email_verify_token` is empty *and* the status is `Verified`.
- followUserMiddleware finds the followed user by ObjectId. followUserController compares the
  two id strings. So another spelling of the caller's own id gets past both checks and reaches
  `followUser` (`Scenarios.SelfFollowBySpelling`).

The `validate` used is the one in server/src/utils/validator.ts. The copy under src/utils is
not part of this model.

## Model

| member | source | states |
|---|---|---|
| JsString.Trim | src/middlewares/users.middleware.ts:24 | the `trim` sanitizer: the result is no longer than the input and neither starts nor ends with JavaScript whitespace |
| JsString.TrimIsSlice | src/middlewares/users.middleware.ts:24 | the trimmed text is the slice of the input between a run of leading and a run of trailing whitespace, so the content between the ends is kept |
| JsString.TrimStart | src/middlewares/users.middleware.ts:24 | leading whitespace removed: the result is a suffix of the input that does not start with whitespace |
| JsString.TrimEnd | src/middlewares/users.middleware.ts:24 | trailing whitespace removed: the result is a prefix of the input that does not end with whitespace |
| JsString.TrimmedIsFixed | src/middlewares/users.middleware.ts:24 | a string with no whitespace at either end is left unchanged by trim |
| JsString.TrimIdempotent | src/middlewares/users.middleware.ts:24 | trimming twice gives the same result as trimming once |
| JsString.SplitOnSpace | src/middlewares/users.middleware.ts:235 | `split(' ')` always yields at least one piece |
| JsString.SplitJoinRoundTrip | src/middlewares/users.middleware.ts:235 | joining the pieces with single spaces gives back the input, and no piece contains a space |
| JsString.SplitWithoutSpace | src/middlewares/users.middleware.ts:235-236 | a string without a space splits into itself alone |
| JsString.SplitAfterWord | src/middlewares/users.middleware.ts:235 | splitting `w + " " + rest` gives `w` followed by the pieces of `rest` |
| JsString.SecondPiece | src/middlewares/users.middleware.ts:235 | the second piece of `"Bearer <token>"` (optionally followed by further space-separated text) is exactly the token |
| JsString.SecondPieceIffSpace | src/middlewares/users.middleware.ts:235-236 | `split(' ')[1]` exists exactly when the string contains a space |
| Errors.NewErrorWithStatus | src/models/Errors.ts:12-20 | the error carries the given message and status |
| Errors.NewEntityError | src/models/Errors.ts:22-29 | the status is always 422, the message defaults to VALIDATION_ERRORS, and the field errors are kept as given |
| RefreshTokenSchema.NewRefreshToken | src/models/schemas/RefreshToken.schema.ts:15-20 | id, user and token are copied; `created_at` is the supplied one, or the current time when absent |
| Store.FindOne | src/middlewares/users.middleware.ts:365 | `findOne` finds a document exactly when one matches the filter, and what it returns is stored and matches |
| Store.FindIndex | src/middlewares/users.middleware.ts:178 | the position found is the first matching document; when none is found, no document matches |
| Store.UserByIdFinds | src/middlewares/users.middleware.ts:95 | with unique ids, looking a stored user up by `_id` returns that very user |
| Validator.FirstBlocking | server/src/utils/validator.ts:18-23 | finds the first field whose error is an ErrorWithStatus with a status other than 422; every earlier field is non-blocking, and `None` means no field blocks |
| Validator.CollectedEntries | server/src/utils/validator.ts:18-25 | with distinct field names, the collected `errors` object holds every field's own error and no other key |
| Validator.LaterFieldsNotExamined | server/src/utils/validator.ts:20-23 | once a blocking error occurs, `next` gets exactly that error and fields after it have no effect |
| Validator.EntityErrorCarriesEveryField | server/src/utils/validator.ts:16-27 | with no blocking error, `next` gets a 422 EntityError with message VALIDATION_ERRORS whose keys are exactly the failed fields, each with its own error |
| Validator.Validate | server/src/utils/validator.ts:7-29 | the loop's outcome is the specified one, and `next()` is called with no argument exactly when no field failed |
| FieldRules.PasswordAccepted | src/middlewares/users.middleware.ts:17-42 | a password passes exactly when, trimmed, it has 6 to 50 characters and a lower-case letter, an upper-case letter, a digit and a symbol |
| FieldRules.PasswordRejectionMessages | src/middlewares/users.middleware.ts:17-42 | an empty password gets PASSWORD_IS_REQUIRED, a trimmed length outside 6..50 gets PASSWORD_LENGTH_MUST_BE_FROM_6_TO_50, a password of the right length lacking a character class gets PASSWORD_MUST_BE_STRONG; an all-whitespace password is always refused |
| FieldRules.ConfirmPasswordAccepted | src/middlewares/users.middleware.ts:44-77 | a confirmation passes exactly when it meets the password rules and equals the trimmed password, which then passes too |
| FieldRules.ConfirmPasswordRejectionMessages | src/middlewares/users.middleware.ts:44-77 | an empty confirmation gets CONFIRM_PASSWORD_IS_REQUIRED, a bad trimmed length CONFIRM_PASSWORD_LENGTH_MUST_BE_FROM_6_TO_50, a weak one CONFIRM_PASSWORD_MUST_BE_STRONG, and one that meets the rules but differs from the trimmed password CONFIRM_PASSWORD_MUST_BE_THE_SAME_AS_PASSWORD |
| FieldRules.StrongPasswordChain | src/middlewares/users.middleware.ts:17-42 | the shared chain reports the required message for an empty value, the length message for a trimmed length outside 6..50, the strength message for a weak value, and nothing otherwise |
| FieldRules.ConfirmPasswordError | src/middlewares/users.middleware.ts:44-77 | a failure of the shared chain is reported as is; after it passes, the field fails with CONFIRM_PASSWORD_MUST_BE_THE_SAME_AS_PASSWORD exactly when the trimmed confirmation differs from the trimmed password |
| FieldRules.OptionalLengthError | src/middlewares/users.middleware.ts:124-136 | an absent optional field is accepted; a present one is accepted exactly when its (trimmed, if so configured) length is in range, and is otherwise rejected with the given message |
| FieldRules.NameError | src/middlewares/users.middleware.ts:138-153 | a name passes exactly when it is present and, trimmed, has 2 to 100 characters; a missing name is NAME_IS_REQUIRED, any other failure is the length message |
| FieldRules.DateOfBirthError | src/middlewares/users.middleware.ts:155-163 | a birth date passes exactly when it is present and, trimmed, is ISO 8601; a missing one is DATE_OF_BIRTH_IS_REQUIRED, any other failure DATE_OF_BIRTH_MUST_BE_ISO8601 |
| FieldRules.EmailFormatError | src/middlewares/users.middleware.ts:168-175 | an email passes the format part of the chain exactly when it is present and, trimmed, is an email; a missing one is EMAIL_IS_REQUIRED, any other failure EMAIL_IS_INVALID |
| FieldRules.LengthEntry | src/middlewares/users.middleware.ts:425-438 | an optional field's entry fails, with that field's message, exactly when the field is present and its (trimmed) length is out of range |
| FieldRules.UpdateMyProfileChecks | src/middlewares/users.middleware.ts:412-486 | one entry per field in schema order, each with its own rule: name 2..100 trimmed, date of birth ISO 8601, bio and location 1..200 trimmed, website 1..400 trimmed, username 1..50 trimmed, avatar and cover photo 1..400 untrimmed, each with its own message; an empty update raises no error |
| UsersMiddleware.CatchTokenError | src/middlewares/users.middleware.ts:248-256 | a JsonWebTokenError becomes a 401 with the capitalised message; any other error is rethrown unchanged |
| UsersMiddleware.CheckAccessToken | src/middlewares/users.middleware.ts:227-259 | every refusal of the Authorization header is a 401 thrown error |
| UsersMiddleware.AccessTokenRequired | src/middlewares/users.middleware.ts:228-242 | an empty header, or one without a space, is refused with ACCESS_TOKEN_IS_REQUIRED (401) |
| UsersMiddleware.AccessTokenIsSecondWord | src/middlewares/users.middleware.ts:235-247 | for `"<word> <token>..."` the outcome depends only on verifying `<token>` with the access-token key |
| UsersMiddleware.CheckRefreshToken | src/middlewares/users.middleware.ts:273-306 | accepted exactly when non-empty, its signature verifies with the refresh key and a stored record holds it; the accepted payload is the decoded one; an empty token is REFRESH_TOKEN_IS_REQUIRED; a JsonWebTokenError becomes a 401 with its capitalised message; a good signature without a record is USED_REFRESH_TOKEN_OR_NOT_EXIST; every refusal is a 401 |
| UsersMiddleware.CheckEmailVerifyToken | src/middlewares/users.middleware.ts:320-344 | accepted exactly when non-empty and verified with the email-verify key, with the decoded payload; an empty token is refused with REFRESH_TOKEN_IS_REQUIRED; a JsonWebTokenError becomes a 401 with its capitalised message; every refusal is a 401 |
| UsersMiddleware.CheckForgotPasswordToken | src/middlewares/users.middleware.ts:79-122 | acceptance needs a verified token whose user (found by the ObjectId of its `user_id`) exists and still holds this very token; an empty token is FORGOT_PASSWORD_TOKEN_IS_REQUIRED; a JsonWebTokenError becomes a 401 with its capitalised message; no such user is USER_NOT_FOUND; a different stored token is INVALID_FORGOT_PASSWORD_TOKEN; every refusal is a 401 |
| UsersMiddleware.ForgotPasswordTokenAccepted | src/middlewares/users.middleware.ts:90-107 | with unique ids, acceptance is equivalent to "verifies, and the user whose `_id` its `user_id` denotes stores this token" |
| UsersMiddleware.VerifyUser | src/middlewares/users.middleware.ts:399-410 | `next()` exactly for Verified users; otherwise a 403 USER_NOT_VERIFIED |
| UsersMiddleware.LoginLookup | src/middlewares/users.middleware.ts:176-185 | the user found is stored with that email and the hash of the password; refusal (EMAIL_OR_PASSWORD_IS_INCORRECT) exactly when no stored user matches both |
| UsersMiddleware.RegisterEmailCheck | src/middlewares/users.middleware.ts:204-210 | refused with EMAIL_ALREADY_EXISTS exactly when some stored user has the email |
| UsersMiddleware.ForgotPasswordLookup | src/middlewares/users.middleware.ts:363-372 | the user found is stored with that email; refusal (USER_NOT_FOUND) exactly when no stored user has it |
| UsersMiddleware.FollowUserCheck | src/middlewares/users.middleware.ts:492-510 | accepted exactly when the id is a valid ObjectId that denotes a stored user's `_id` (in any spelling); a malformed id is INVALID_USER_ID; a well-formed id that denotes no stored user is USER_NOT_FOUND; every refusal is a 404 |
| UsersMiddleware.Mapped | server/src/utils/validator.ts:15 | `errors.mapped()` holds an entry for every failed field, with its own first error and location, and nothing else; it is empty exactly when no field failed; names are distinct when the schema's are |
| UsersMiddleware.MappedKeepsOrder | server/src/utils/validator.ts:15 | the entries follow schema order: mapping a schema gives the entries of its first fields followed by those of the rest |
| UsersMiddleware.MappedSingle | server/src/utils/validator.ts:15 | a single field contributes its entry exactly when it failed |
| UsersMiddleware.AccessTokenRefusalForwarded | src/middlewares/users.middleware.ts:221-265 | a refused access token reaches `next` alone, as the 401 error that was thrown |
| UsersMiddleware.MissingAuthorizationForwarded | src/middlewares/users.middleware.ts:228-233 | a request without an Authorization header gets 401 ACCESS_TOKEN_IS_REQUIRED |
| UsersMiddleware.AcceptedRefreshTokenProceeds | src/middlewares/users.middleware.ts:267-312 | an accepted refresh token lets the request through |
| UsersMiddleware.FirstTextFailureIs422 | server/src/utils/validator.ts:18-27 | when every field error is a plain message, a failing first field ends in a 422 EntityError that records it |
| UsersMiddleware.WrongCredentialsAre422 | src/middlewares/users.middleware.ts:165-191 | a well-formed email with wrong credentials gives a 422 whose `email` entry is EMAIL_OR_PASSWORD_IS_INCORRECT |
| UsersMiddleware.RegisterEmailFailureIs422 | src/middlewares/users.middleware.ts:193-219 | whatever the other registration fields hold, a plain-message failure of the email field gives a 422 whose `email` entry is that message |
| UsersMiddleware.DuplicateEmailRefused | src/middlewares/users.middleware.ts:193-219 | registering an email already stored gives a 422 whose `email` entry is EMAIL_ALREADY_EXISTS |
| UsersMiddleware.RegisterAcceptedEmailIsNew | src/middlewares/users.middleware.ts:204-210 | if registration passes the gate, no stored user has the (trimmed) email |
| MiddlewareRequest.Request.AccessTokenValidator | src/middlewares/users.middleware.ts:221-265 | `next` gets the specified outcome, and `decoded_authorization` is set exactly when the token was accepted |
| MiddlewareRequest.Request.RefreshTokenValidator | src/middlewares/users.middleware.ts:267-312 | `next` gets the specified outcome, and `decoded_refresh_token` is set exactly when the token was accepted |
| MiddlewareRequest.Request.EmailVerifyTokenValidator | src/middlewares/users.middleware.ts:314-350 | `next` gets the specified outcome, and `decoded_email_verify_token` is set exactly when the token was accepted |
| MiddlewareRequest.Request.VerifyForgotPasswordTokenValidator | src/middlewares/users.middleware.ts:379-386 | `next` gets the specified outcome, and `decoded_forgot_password_token` is set exactly when the token was accepted |
| MiddlewareRequest.Request.ResetPasswordValidator | src/middlewares/users.middleware.ts:388-397 | `next` gets the outcome of all three fields, and the decoded forgot-password token is attached when that field was accepted |
| MiddlewareRequest.Request.LoginMiddleware | src/middlewares/users.middleware.ts:165-191 | `next` gets the specified outcome, and `req.user` is the matching user when the lookup ran and succeeded |
| MiddlewareRequest.Request.ForgotPasswordValidator | src/middlewares/users.middleware.ts:352-377 | `next` gets the specified outcome, and `req.user` is the user with that email when the lookup ran and succeeded |
| MiddlewareRequest.Request.VerifyUserValidator | src/middlewares/users.middleware.ts:399-410 | `next()` exactly for a Verified decoded user; otherwise a 403 USER_NOT_VERIFIED |
| MiddlewareRequest.RegisterMiddleware | src/middlewares/users.middleware.ts:193-219 | `next` gets the specified outcome, and letting the request through implies the email is not yet stored |
| MiddlewareRequest.FollowUserMiddleware | src/middlewares/users.middleware.ts:488-514 | the request passes exactly when `follow_user_id` is a valid ObjectId denoting a stored user's `_id` |
| MiddlewareRequest.UpdateMyProfileValidator | src/middlewares/users.middleware.ts:412-486 | `next` gets the outcome of the eight optional field checks |
| UsersService.SignAccessAndRefreshToken | src/services/users.services.ts:13-29 | both tokens carry the same user id and the default key; they differ only in token type and lifetime |
| UsersService.NewUser | src/services/users.services.ts:31-37 | the inserted user has the driver's id, the given email and name, the hashed password, and is Unverified |
| UsersService.RegisterAddsOneOfEach | src/services/users.services.ts:30-52 | registration appends exactly one user and one refresh-token record (holding the returned token for that user, stamped now) and leaves the stored documents unchanged |
| UsersService.RegisteredEmailAndTokenFound | src/services/users.services.ts:30-52 | after registration the email is found and the returned refresh token has a record |
| UsersService.RegisterKeepsUniqueIds | src/services/users.services.ts:30-52 | when the driver assigns a fresh id, registration keeps user ids unique |
| UsersService.CheckEmailExists | src/services/users.services.ts:54-57 | true exactly when a stored user has the email |
| UsersService.Register | src/services/users.services.ts:30-52 | returns the two signed tokens for the new id, and the database becomes exactly the registration's successor state |
| UsersControllers.LoginController | server/src/controllers/users.controllers.ts:38-48 | logs in with the attached user's own id and status, answering LOGIN_SUCCESS |
| UsersControllers.RefreshTokenController | server/src/controllers/users.controllers.ts:56-68 | forwards the decoded user id and status together with the presented token |
| UsersControllers.VerifyEmailTokenController | server/src/controllers/users.controllers.ts:70-93 | 404 when no user has the id the decoded `user_id` denotes; the service is called, with the decoded user id, exactly when that user exists and is not already verified; otherwise 200 EMAIL_ALREADY_VERIFIED_BEFORE |
| UsersControllers.ResendEmailVerifyController | server/src/controllers/users.controllers.ts:95-112 | 404 for an unknown user; a resend, for the found user's stored `_id`, exactly when the user exists and is not already verified; otherwise 200 EMAIL_ALREADY_VERIFIED_BEFORE |
| UsersControllers.ResetPasswordController | server/src/controllers/users.controllers.ts:132-141 | resets the body's password for the user decoded from the forgot-password token |
| UsersControllers.ResetPasswordIgnoresBodyToken | server/src/controllers/users.controllers.ts:136-138 | the token and confirmation in the body do not influence the call |
| UsersControllers.FollowUserController | server/src/controllers/users.controllers.ts:169-182 | 400 CANNOT_FOLLOW_YOURSELF exactly when the id strings are equal; otherwise follows with both ids |
| UsersControllers.UnFollowUserController | server/src/controllers/users.controllers.ts:184-194 | 400 ID_CANNOT_OVERLAP exactly when the ids are equal; otherwise unfollows with both ids |
| UsersControllers.VerifyEmailCallsServiceIff | server/src/controllers/users.controllers.ts:76-88 | with unique ids, the service is called exactly when the user found by id is not already verified |
| UsersControllers.AlreadyVerifiedShortCircuits | server/src/controllers/users.controllers.ts:82-86 | for an already verified user both verification controllers answer 200 EMAIL_ALREADY_VERIFIED_BEFORE without a service call |
| ErrorHandlers.DefaultErrorsHandler | src/middlewares/errors.middleware.ts:5-7 | always responds; the status is `err.status` when truthy, else 500; the body is the error's enumerable properties except `status`, unchanged |
| ErrorHandlers.ErrorsHandler | src/utils/errorsHandler.ts:3-5 | always responds 500 with a body whose single key `error` holds `err.message` |
| ErrorHandlers.ZeroStatusBecomes500 | src/middlewares/errors.middleware.ts:6 | an error with status 0 is sent as 500 with only its message |
| ErrorHandlers.AppErrorResponse | src/middlewares/errors.middleware.ts:6 | an ErrorWithStatus reaches the client as its status and `{ message }`; an EntityError as `{ message, errors }` |
| ErrorHandlers.NativeErrorResponses | src/middlewares/errors.middleware.ts:6 | a native Error's non-enumerable message is dropped by defaultErrorsHandler (500, `{}`) but reported by errorsHandler |
| Scenarios.RegisteredUserCanLogIn | src/services/users.services.ts:30-52 | a user who just registered passes the login lookup with the same email and password |
| Scenarios.RegisteredRefreshTokenAccepted | src/services/users.services.ts:39-46 | the refresh token `register` returns is accepted by the refresh-token gate whenever it verifies under the refresh key |
| Scenarios.RefreshFlowUsesStoredToken | server/src/controllers/users.controllers.ts:56-68 | after the gate accepts, the controller passes a token that has a stored record to `userService.refreshToken`, for the user named in it |
| Scenarios.ResetFlowTargetsTokenHolder | server/src/controllers/users.controllers.ts:132-141 | after the gate accepts, the password is reset for a stored user who holds that very token |
| Scenarios.SelfFollowBySpelling | server/src/controllers/users.controllers.ts:175 | another spelling of a stored caller's own id passes the follow gate and then reaches `followUser`, because the controller compares strings |
| Scenarios.CollectedErrorsReachClient | server/src/utils/validator.ts:27 | collected field errors are sent as 422 with VALIDATION_ERRORS and exactly those entries |
| Scenarios.ThrownErrorReachesClient | server/src/utils/validator.ts:20-23 | a thrown ErrorWithStatus is sent with its own status and message and nothing of the other fields |

## Left out

- JWT signing and verification, password hashing, `capitalize`, `isEmail`, `isISO8601`, `ObjectId.isValid`, ObjectId parsing and date parsing are external libraries. They are uninterpreted parameters.
- Signing failures (a rejected `signToken` promise) are not modelled.
- Promises, `await` and the concurrency of the field chains are not modelled. Each custom validator sees the other fields already trimmed. For the confirm-password check and the login lookup this is an assumption about ordering.
- The database driver, its connection, `insertOne` failures and id generation are not modelled. The driver-assigned id is a parameter, and so is the clock reading behind `new Date()`.
- `new ObjectId(user_id)` throwing on a malformed id (forgotPasswordTokenSchema, the controllers, `register`) is not modelled.
- User.schema.ts is not part of this model. A new user is taken to be Unverified with empty tokens.
- The `userService` methods behind logout, login, refreshToken, verifyEmail, resendEmailVerifyToken, forgotPassword, resetPassword, getProfile, updateMyProfile, getUserInfo, follow, unfollow, changePassword and loginOauth are not part of this model. The controllers are modelled up to the call they make.
- registerController, logoutController, forgotPasswordController, verifyForgotPasswordTokenController, getProfileController, updateMyProfileController, getUserInfoController and changePasswordController only pass their input to the service and send its result, so they have no decision to model. loginOauthController builds a redirect URL from the service result and is left out too.
- express-validator's `isString` is not modelled, because every value is a string. The same goes for non-string JSON bodies.
- String lengths count characters, not UTF-16 code units.
- Request headers are taken as already looked up case-insensitively.
- `for … in` orders integer-like keys first. That order is not modelled; fields are in schema order.
- Errors.FieldError: an express-validator `mapped()` entry also carries `type`, `path` and the sanitized `value`. A 422 response therefore echoes the submitted values, the plaintext password included. The model keeps only `msg` and `location`.
- JSON serialisation of the response (dropping `undefined` values) is not modelled. Neither is `NaN` truthiness.
- MiddlewareRequest.FollowUserMiddleware: `checkSchema` is called without locations, so it looks at every request location. The model reads the field from the body, where followUserController reads it.
- Scenarios.ThrownErrorReachesClient: stated only for an ErrorWithStatus with a non-zero status. A zero status becomes 500, as ErrorHandlers.ZeroStatusBecomes500 shows.
- The media controllers and services, server bootstrap, `wrapRequestHandler`, the routes and the React client are outside the modelled core.
- src/utils/validator.ts is not part of this model. server/src/utils/validator.ts is used in its place.
