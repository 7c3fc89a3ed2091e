/** Optional values and results that either carry a value or say why there is none. */
module Outcomes {

  datatype Option<+T> = None | Some(value: T) {
    function GetOr(default: T): T {
      match this
      case Some(v) => v
      case None => default
    }
  }

  /** The outcome of an operation that the service may abandon by throwing. */
  datatype Result<+T, +E> = Ok(value: T) | Err(error: E)
}
