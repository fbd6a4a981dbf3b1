/** The Express error middleware `GlobalErrorHandler`: it turns whatever
    reached it into exactly one HTTP response. */
module ErrorHandler {
  import opened JsValues
  import opened ApiErrors

  /** What reaches the middleware: a `CustomApiError` or any other thrown value. */
  datatype Thrown = ApiError(error: CustomApiError) | OtherError(value: JsVal)

  /** The one response written: its status and its JSON body. */
  datatype ErrorResponse = ErrorResponse(status: int, body: CustomApiError)

  /** Node's HTTP layer refuses (throws on) a status code outside 100..999. */
  predicate Writable(status: int) {
    100 <= status <= 999
  }

  /** `GlobalErrorHandler(err, req, res, next)`. `writeFails` says whether the
      first `res.status(...).json(...)` throws for a reason outside the model;
      the write in the `catch` block is taken to succeed. */
  function GlobalErrorHandler(err: Thrown, writeFails: bool): (r: ErrorResponse)
    ensures r.status == 500 || (err.ApiError? && r.status == err.error.statusCode)
    ensures err.ApiError? && Writable(err.error.statusCode) && !writeFails ==> r == ErrorResponse(err.error.statusCode, err.error)
    ensures err.OtherError? ==> r.status == 500 && r.body == CustomApiError("Internal Server Error", 500)
    ensures writeFails || (err.ApiError? && !Writable(err.error.statusCode))
      ==> r == ErrorResponse(500, CustomApiError("Internal Server Error", 500))
    ensures Writable(r.status)
  {
    if err.ApiError? && Writable(err.error.statusCode) && !writeFails then
      ErrorResponse(err.error.statusCode, err.error)
    else
      // a non-API error, or the write above threw and the catch block answers
      ErrorResponse(500, InternalServerError(None))
  }

  /** An error built by any of the five factories goes out with its own status
      and itself as the body. */
  lemma FactoryErrorsPassThrough(kind: ErrorKind, msg: Option<string>)
    ensures GlobalErrorHandler(ApiError(MakeError(kind, msg)), false)
      == ErrorResponse(MakeError(kind, msg).statusCode, MakeError(kind, msg))
  {
    StatusesAreStandardAndDistinct(kind, msg, kind, msg);
  }

  /** Nothing of a non-API error reaches the client: any two such errors give
      the same generic response, whether or not the first write fails. */
  lemma OtherErrorsDoNotLeak(v1: JsVal, f1: bool, v2: JsVal, f2: bool)
    ensures GlobalErrorHandler(OtherError(v1), f1) == GlobalErrorHandler(OtherError(v2), f2)
    ensures GlobalErrorHandler(OtherError(v1), f1) == ErrorResponse(500, InternalServerError(None))
  {
  }
}
