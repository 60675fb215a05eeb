/**
 * The library code the core calls but that is not part of this model:
 * `jsonwebtoken` (behind signToken / verifyToken), `hashPassword`, lodash's
 * `capitalize`, validator.js's `isEmail` and `isISO8601`, `ObjectId.isValid`,
 * `new ObjectId(string)` and `new Date(string)`. Each is an arbitrary total function handed to the
 * operations in an `Env`; nothing is assumed about them (in particular
 * `hashPassword` is not assumed injective).
 */
module Collaborators {
  import opened Models

  /** The secrets read from the environment (`process.env.SECRET_JWT_*`). */
  datatype Secret = JwtKey | AccessTokenKey | RefreshTokenKey | EmailVerifyTokenKey | ForgotPasswordTokenKey

  /** The `expiresIn` settings (`ACCESS_TOKEN_EXPIRES_IN`, `REFRESH_TOKEN_EXPIRES_IN`). */
  datatype Lifetime = AccessTokenExpiresIn | RefreshTokenExpiresIn

  /** The claims the service signs: `{ user_id, token_type }`. */
  datatype SignClaims = SignClaims(user_id: string, token_type: TokenType)

  /** What verifying a token yields: its claims, or a `JsonWebTokenError` with the library's message. */
  datatype Decoded = Decoded(payload: TokenPayload) | JsonWebTokenError(message: string)

  datatype Env = Env(
    verifyToken: (string, Secret) -> Decoded,
    signToken: (SignClaims, Secret, Lifetime) -> string,
    hashPassword: string -> string,
    capitalize: string -> string,
    isEmail: string -> bool,
    isISO8601: string -> bool,
    isObjectId: string -> bool,
    // the stored `_id` that `new ObjectId(s)` denotes: hex is parsed
    // case-insensitively, so several spellings may denote one id
    toObjectId: string -> string,
    toDate: string -> Date)
}
