/**
 * Shared vocabulary of the account service: the enumerations of
 * constants/enum, the decoded token claims, the stored user record, the HTTP
 * status codes and the client message constants.
 *
 * constants/messages.ts is not part of this model: every CLIENT_MESSAGE
 * constant is represented by its own key name as text, so two different
 * constants are two different strings.
 */
module Models {

  /** UserVerifyStatus: Unverified = 0, Verified = 1, Banned = 2. */
  datatype UserVerifyStatus = Unverified | Verified | Banned

  /** TokenType: the four classes of signed token. */
  datatype TokenType = AccessToken | RefreshToken | ForgotPasswordToken | EmailVerifyToken

  /** The decoded claims of a verified token (the `TokenPayload` request type). */
  datatype TokenPayload = TokenPayload(user_id: string, token_type: TokenType, verify: UserVerifyStatus)

  /** A millisecond timestamp (a JavaScript `Date`). */
  type Date = int

  /** The fields of a stored user document that the core reads or writes. */
  datatype User = User(
    _id: string,
    email: string,
    name: string,
    password: string,
    date_of_birth: Date,
    verify: UserVerifyStatus,
    email_verify_token: string,
    forgot_password_token: string)

  /** The body of a registration request (`RegisterRequestBody`). */
  datatype RegisterRequestBody = RegisterRequestBody(email: string, name: string, password: string, date_of_birth: string)

  // HTTP_STATUS
  const OK := 200
  const BAD_REQUEST := 400
  const UNAUTHORIZED := 401
  const FORBIDDEN := 403
  const NOT_FOUND := 404
  const UNPROCESSABLE_ENTITY := 422
  const INTERNAL_SERVER_ERROR := 500

  // CLIENT_MESSAGE
  const VALIDATION_ERRORS := "VALIDATION_ERRORS"
  const ACCESS_TOKEN_IS_REQUIRED := "ACCESS_TOKEN_IS_REQUIRED"
  const REFRESH_TOKEN_IS_REQUIRED := "REFRESH_TOKEN_IS_REQUIRED"
  const USED_REFRESH_TOKEN_OR_NOT_EXIST := "USED_REFRESH_TOKEN_OR_NOT_EXIST"
  const FORGOT_PASSWORD_TOKEN_IS_REQUIRED := "FORGOT_PASSWORD_TOKEN_IS_REQUIRED"
  const INVALID_FORGOT_PASSWORD_TOKEN := "INVALID_FORGOT_PASSWORD_TOKEN"
  const USER_NOT_FOUND := "USER_NOT_FOUND"
  const USER_NOT_VERIFIED := "USER_NOT_VERIFIED"
  const INVALID_USER_ID := "INVALID_USER_ID"
  const EMAIL_IS_REQUIRED := "EMAIL_IS_REQUIRED"
  const EMAIL_IS_INVALID := "EMAIL_IS_INVALID"
  const EMAIL_OR_PASSWORD_IS_INCORRECT := "EMAIL_OR_PASSWORD_IS_INCORRECT"
  const EMAIL_ALREADY_EXISTS := "EMAIL_ALREADY_EXISTS"
  const PASSWORD_IS_REQUIRED := "PASSWORD_IS_REQUIRED"
  const PASSWORD_LENGTH_MUST_BE_FROM_6_TO_50 := "PASSWORD_LENGTH_MUST_BE_FROM_6_TO_50"
  const PASSWORD_MUST_BE_STRONG := "PASSWORD_MUST_BE_STRONG"
  const CONFIRM_PASSWORD_IS_REQUIRED := "CONFIRM_PASSWORD_IS_REQUIRED"
  const CONFIRM_PASSWORD_LENGTH_MUST_BE_FROM_6_TO_50 := "CONFIRM_PASSWORD_LENGTH_MUST_BE_FROM_6_TO_50"
  const CONFIRM_PASSWORD_MUST_BE_STRONG := "CONFIRM_PASSWORD_MUST_BE_STRONG"
  const CONFIRM_PASSWORD_MUST_BE_THE_SAME_AS_PASSWORD := "CONFIRM_PASSWORD_MUST_BE_THE_SAME_AS_PASSWORD"
  const NAME_IS_REQUIRED := "NAME_IS_REQUIRED"
  const NAME_LENGTH_MUST_BE_FROM_2_TO_100 := "NAME_LENGTH_MUST_BE_FROM_2_TO_100"
  const DATE_OF_BIRTH_IS_REQUIRED := "DATE_OF_BIRTH_IS_REQUIRED"
  const DATE_OF_BIRTH_MUST_BE_ISO8601 := "DATE_OF_BIRTH_MUST_BE_ISO8601"
  const IMAGE_URL_MUST_BE_STRING := "IMAGE_URL_MUST_BE_STRING"
  const BIO_LENGTH := "BIO_LENGTH"
  const LOCATION_LENGTH := "LOCATION_LENGTH"
  const WEBSITE_LENGTH := "WEBSITE_LENGTH"
  const USERNAME_INVALID := "USERNAME_INVALID"
  const LOGIN_SUCCESS := "LOGIN_SUCCESS"
  const REFRESH_TOKEN_SUCCESS := "REFRESH_TOKEN_SUCCESS"
  const EMAIL_ALREADY_VERIFIED_BEFORE := "EMAIL_ALREADY_VERIFIED_BEFORE"
  const EMAIL_VERIFY_SUCCESS := "EMAIL_VERIFY_SUCCESS"
  const CANNOT_FOLLOW_YOURSELF := "CANNOT_FOLLOW_YOURSELF"
  const ID_CANNOT_OVERLAP := "ID_CANNOT_OVERLAP"
}
