/** Optional values and results with an error, as the services return them. */
module Wrappers {

  /** Python's `Optional[T]`: a value or `None`. */
  datatype Option<+T> = None | Some(value: T)

  /** The outcome of a call that may raise: the value, or the message of the exception. */
  datatype Result<+T, +E> = Ok(value: T) | Err(error: E) {

    /** The value on success, `default` on failure (a `try`/`except` that falls back). */
    function GetOr(default: T): T {
      match this
      case Ok(v) => v
      case Err(_) => default
    }
  }
}
