/** Optional values and results with an error message. */
module Wrappers {

  /** A value that may be absent: a JSON key that is missing, a lookup that fails. */
  datatype Option<+T> = None | Some(value: T) {

    /** The value, or `default` when absent (Python's `d.get(k, default)`). */
    function GetOr(default: T): T {
      match this
      case Some(v) => v
      case None => default
    }
  }

  /** The outcome of an operation that can abort with a message (a raised `ValueError`). */
  datatype Result<+T> = Ok(value: T) | Err(message: string)
}
