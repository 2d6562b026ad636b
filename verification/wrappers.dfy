/** Optional values and results with an error, used across the model. */
module Wrappers {

  /** A value that may be missing: JavaScript's `undefined`/`null` for a field that is not set. */
  datatype Option<+T> = None | Some(value: T) {
    function GetOr(default: T): T {
      match this
      case Some(v) => v
      case None => default
    }
  }

  /** The outcome of an operation that can throw: `Err` carries the error's message. */
  datatype Result<+T, +E> = Ok(value: T) | Err(error: E)
}
