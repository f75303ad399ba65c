/** Option and Result, the two failure-carrying shapes the model uses for
    Python's `None` returns and raised exceptions, and the HTTP error the
    request handlers raise. */
module Wrappers {

  datatype Option<+T> = None | Some(value: T) {
    function GetOr(default: T): T {
      match this
      case Some(v) => v
      case None => default
    }
  }

  datatype Result<+R, +E> = Ok(value: R) | Err(error: E)

  /** The web framework's `HTTPException`: a status code and a detail text. */
  datatype HttpError = HttpError(status: nat, detail: string)
}
