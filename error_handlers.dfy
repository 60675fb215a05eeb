/**
 * The two terminal error handlers: defaultErrorsHandler
 * (src/middlewares/errors.middleware.ts) and errorsHandler
 * (src/utils/errorsHandler.ts). Their `err` is any thrown value, modelled as
 * an object with enumerable properties (what lodash `omit` copies) and
 * non-enumerable ones (such as the `message` of a native `Error`), which a
 * property read still sees.
 */
module ErrorHandlers {
  import opened Models
  import opened Errors

  /** A JavaScript value as far as the handlers look at it. */
  datatype Value = Undefined | Null | Bool(b: bool) | Num(n: int) | Str(s: string) | ErrorMap(errors: ErrorsType)

  /** JavaScript truthiness (`NaN` is not modelled). */
  predicate Truthy(v: Value) {
    match v
    case Undefined => false
    case Null => false
    case Bool(b) => b
    case Num(n) => n != 0
    case Str(s) => s != ""
    case ErrorMap(_) => true
  }

  /** A thrown object. */
  datatype JsError = JsError(enumerable: map<string, Value>, nonEnumerable: map<string, Value>)

  /** `err[key]`. */
  function Get(err: JsError, key: string): Value {
    if key in err.enumerable then err.enumerable[key]
    else if key in err.nonEnumerable then err.nonEnumerable[key]
    else Undefined
  }

  /** A native `new Error(message)`: its message is not enumerable. */
  function NativeError(message: string): JsError {
    JsError(map[], map["message" := Str(message)])
  }

  /** An `ErrorWithStatus` or `EntityError` instance: its fields are enumerable own properties. */
  function FromAppError(e: AppError): JsError {
    match e
    case ErrorWithStatus(m, st) => JsError(map["message" := Str(m), "status" := Num(st)], map[])
    case EntityError(m, st, errs) => JsError(map["message" := Str(m), "status" := Num(st), "errors" := ErrorMap(errs)], map[])
  }

  /** The response the handler sends: `res.status(status)` and the body object. */
  datatype Response = Response(status: Value, body: map<string, Value>)

  /** What an error handler does: send a response, or pass on with `next`. */
  datatype Handled = Sent(response: Response) | PassedOn(err: JsError)

  /**
   * defaultErrorsHandler: status `err.status || 500`, body `omit(err, ['status'])`;
   * it always responds and never calls `next`.
   */
  function DefaultErrorsHandler(err: JsError): (r: Handled)
    ensures r.Sent?
    ensures Truthy(Get(err, "status")) ==> r.response.status == Get(err, "status")
    ensures !Truthy(Get(err, "status")) ==> r.response.status == Num(INTERNAL_SERVER_ERROR)
    ensures "status" !in r.response.body
    ensures r.response.body.Keys == err.enumerable.Keys - {"status"}
    ensures forall k :: k in err.enumerable && k != "status" ==> r.response.body[k] == err.enumerable[k]
  {
    var status := Get(err, "status");
    Sent(Response(if Truthy(status) then status else Num(INTERNAL_SERVER_ERROR), err.enumerable - {"status"}))
  }

  /**
   * errorsHandler: always 500 with the single-key body `{ error: err.message }`;
   * it always responds and never calls `next`.
   */
  function ErrorsHandler(err: JsError): (r: Handled)
    ensures r.Sent?
    ensures r.response.status == Num(INTERNAL_SERVER_ERROR)
    ensures r.response.body.Keys == {"error"}
    ensures r.response.body["error"] == Get(err, "message")
  {
    Sent(Response(Num(INTERNAL_SERVER_ERROR), map["error" := Get(err, "message")]))
  }

  /** A status of 0 is falsy and becomes 500. */
  lemma ZeroStatusBecomes500(message: string)
    ensures DefaultErrorsHandler(FromAppError(ErrorWithStatus(message, 0))).response ==
              Response(Num(INTERNAL_SERVER_ERROR), map["message" := Str(message)])
  {
    assert (map["message" := Str(message), "status" := Num(0)] - {"status"}) == map["message" := Str(message)];
  }

  /**
   * An error forwarded by `validate` reaches the client with its own status
   * (when non-zero) and a body of its message, plus the field errors for an
   * EntityError.
   */
  lemma AppErrorResponse(e: AppError)
    ensures var resp := DefaultErrorsHandler(FromAppError(e)).response;
      && resp.status == (if e.status != 0 then Num(e.status) else Num(INTERNAL_SERVER_ERROR))
      && resp.body == (if e.EntityError? then map["message" := Str(e.message), "errors" := ErrorMap(e.errors)]
                       else map["message" := Str(e.message)])
  {
    var resp := DefaultErrorsHandler(FromAppError(e)).response;
    if e.EntityError? {
      assert resp.body == map["message" := Str(e.message), "errors" := ErrorMap(e.errors)];
    } else {
      assert resp.body == map["message" := Str(e.message)];
    }
  }

  /** A native `Error` keeps its message out of defaultErrorsHandler's body, but errorsHandler reports it. */
  lemma NativeErrorResponses(message: string)
    ensures DefaultErrorsHandler(NativeError(message)).response == Response(Num(INTERNAL_SERVER_ERROR), map[])
    ensures ErrorsHandler(NativeError(message)).response == Response(Num(INTERNAL_SERVER_ERROR), map["error" := Str(message)])
  {
    var empty: map<string, Value> := map[];
    assert empty - {"status"} == empty;
  }
}
