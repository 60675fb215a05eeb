/**
 * The error classes of src/models/Errors.ts and the field errors that
 * express-validator hands to `validate`.
 */
module Errors {
  import opened Wrappers
  import opened Models

  /** Where a checked field was read from. */
  datatype Location = Body | Headers | Params | Query | Cookies

  /**
   * The `msg` of a field error: a custom validator that throws `new Error(m)`
   * leaves the text `m`; one that throws an `ErrorWithStatus` (not an `Error`
   * subclass) leaves that object itself.
   */
  datatype Msg = Text(text: string) | Thrown(error: AppError)

  /**
   * One entry of `errors.mapped()`: `{ msg, location, ... }`. The entry's
   * other properties (`type`, `path`, and the sanitized `value`) are not
   * modelled.
   */
  datatype FieldError = FieldError(msg: Msg, location: Location)

  /** `ErrorsType`: field name to its first error. */
  type ErrorsType = map<string, FieldError>

  /**
   * An `ErrorWithStatus` instance: either a plain one or an `EntityError`
   * (which extends it with the `errors` record). The `EntityError` class
   * always sets status 422; only its constructor `NewEntityError` builds one,
   * so an EntityError is never blocking for `validate`.
   */
  datatype AppError =
    | ErrorWithStatus(message: string, status: int)
    | EntityError(message: string, status: int, errors: ErrorsType)

  /** `new ErrorWithStatus({ message, status })`. */
  function NewErrorWithStatus(message: string, status: int): (e: AppError)
    ensures e.ErrorWithStatus?
    ensures e.message == message && e.status == status
  {
    ErrorWithStatus(message, status)
  }

  /**
   * `new EntityError({ message?, errors })`: the status is always 422 and the
   * message defaults to VALIDATION_ERRORS when none (`undefined`) is given.
   */
  function NewEntityError(message: Option<string>, errors: ErrorsType): (e: AppError)
    ensures e.EntityError?
    ensures e.status == UNPROCESSABLE_ENTITY
    ensures message.None? ==> e.message == VALIDATION_ERRORS
    ensures message.Some? ==> e.message == message.value
    ensures e.errors == errors
  {
    EntityError(message.GetOr(VALIDATION_ERRORS), UNPROCESSABLE_ENTITY, errors)
  }
}
