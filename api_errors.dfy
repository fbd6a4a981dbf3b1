/** The error record of the server (`CustomApiError`) and the five factory
    functions that build it, each with a fixed HTTP status and a default text. */
module ApiErrors {
  import opened JsValues

  /** A `CustomApiError` as it serialises to JSON: its message and its status.
      (`message`, inherited from `Error`, is not enumerable and is not part of the body.) */
  datatype CustomApiError = CustomApiError(msg: string, statusCode: int)

  /** The five factories; a name for quantifying over them. */
  datatype ErrorKind = NotFound | BadRequest | Unauthorized | Forbidden | InternalServer

  /** `msg || fallback` on an optional string argument. */
  function MessageOr(msg: Option<string>, fallback: string): string {
    if msg.Some? && msg.value != "" then msg.value else fallback
  }

  /** `NotFoundError(msg?)`. */
  function NotFoundError(msg: Option<string>): (e: CustomApiError)
    ensures e.statusCode == 404
    ensures msg.Some? && msg.value != "" ==> e.msg == msg.value
    ensures msg == None || msg == Some("") ==> e.msg == "Not Found"
  {
    CustomApiError(MessageOr(msg, "Not Found"), 404)
  }

  /** `BadRequestError(msg?)`. */
  function BadRequestError(msg: Option<string>): (e: CustomApiError)
    ensures e.statusCode == 400
    ensures msg.Some? && msg.value != "" ==> e.msg == msg.value
    ensures msg == None || msg == Some("") ==> e.msg == "Bad Request"
  {
    CustomApiError(MessageOr(msg, "Bad Request"), 400)
  }

  /** `UnauthorizedError(msg?)`. */
  function UnauthorizedError(msg: Option<string>): (e: CustomApiError)
    ensures e.statusCode == 401
    ensures msg.Some? && msg.value != "" ==> e.msg == msg.value
    ensures msg == None || msg == Some("") ==> e.msg == "Unauthorized"
  {
    CustomApiError(MessageOr(msg, "Unauthorized"), 401)
  }

  /** `ForbiddenError(msg?)`. */
  function ForbiddenError(msg: Option<string>): (e: CustomApiError)
    ensures e.statusCode == 403
    ensures msg.Some? && msg.value != "" ==> e.msg == msg.value
    ensures msg == None || msg == Some("") ==> e.msg == "Forbidden"
  {
    CustomApiError(MessageOr(msg, "Forbidden"), 403)
  }

  /** `InternalServerError(msg?)`. */
  function InternalServerError(msg: Option<string>): (e: CustomApiError)
    ensures e.statusCode == 500
    ensures msg.Some? && msg.value != "" ==> e.msg == msg.value
    ensures msg == None || msg == Some("") ==> e.msg == "Internal Server Error"
  {
    CustomApiError(MessageOr(msg, "Internal Server Error"), 500)
  }

  /** The factory named by a kind. */
  function MakeError(kind: ErrorKind, msg: Option<string>): CustomApiError {
    match kind
    case NotFound => NotFoundError(msg)
    case BadRequest => BadRequestError(msg)
    case Unauthorized => UnauthorizedError(msg)
    case Forbidden => ForbiddenError(msg)
    case InternalServer => InternalServerError(msg)
  }

  /** Every factory produces one of the five standard statuses, and the status
      tells the factory apart: no two kinds share a status. */
  lemma StatusesAreStandardAndDistinct(k1: ErrorKind, m1: Option<string>, k2: ErrorKind, m2: Option<string>)
    ensures MakeError(k1, m1).statusCode in {400, 401, 403, 404, 500}
    ensures MakeError(k1, m1).statusCode == MakeError(k2, m2).statusCode ==> k1 == k2
  {
  }

  /** Every error carries a non-empty message, and it is either the one
      given or the factory's fixed text, whatever the kind and the argument. */
  lemma MessageNeverEmpty(kind: ErrorKind, msg: Option<string>)
    ensures MakeError(kind, msg).msg != ""
    ensures MakeError(kind, msg).msg == MessageOr(msg, MakeError(kind, None).msg)
  {
  }
}
