/** The usual Option and Result wrappers: a lookup that may miss, an HTTP
    handler that answers either a value or an error status. */
module Wrappers {

  datatype Option<+T> = None | Some(value: T)

  /** The HTTP statuses the handlers of the model answer with on their error paths. */
  datatype Status = BadRequest | NotFound | Conflict | ServerError

  /** Numeric code of an error status, as the handlers send it. */
  function Code(s: Status): (code: nat)
    ensures 400 <= code < 600
    ensures s == ServerError <==> code >= 500
  {
    match s
    case BadRequest => 400
    case NotFound => 404
    case Conflict => 409
    case ServerError => 500
  }

  datatype Result<+T> = Ok(value: T) | Err(status: Status)
}
