/** The refresh-token document of src/models/schemas/RefreshToken.schema.ts. */
module RefreshTokenSchema {
  import opened Wrappers
  import opened Models

  /** The constructor's argument (`RefreshTokenType`): `_id` and `created_at` may be absent. */
  datatype RefreshTokenType = RefreshTokenType(_id: Option<string>, user_id: string, token: string, created_at: Option<Date>)

  /** A stored refresh-token record. */
  datatype RefreshToken = RefreshToken(_id: Option<string>, user_id: string, token: string, created_at: Date)

  /**
   * `new RefreshToken(init)`, with the clock reading `now` standing for
   * `new Date()`. A `Date` object is always truthy, so any supplied
   * `created_at` is kept.
   */
  function NewRefreshToken(init: RefreshTokenType, now: Date): (r: RefreshToken)
    ensures r._id == init._id
    ensures r.user_id == init.user_id && r.token == init.token
    ensures init.created_at.Some? ==> r.created_at == init.created_at.value
    ensures init.created_at.None? ==> r.created_at == now
  {
    RefreshToken.RefreshToken(init._id, init.user_id, init.token, init.created_at.GetOr(now))
  }
}
