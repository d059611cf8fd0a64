/** The two result datatypes used throughout the model. */
module Wrappers {

  /** A value that may be absent: a nil pointer, a missing key, no match. */
  datatype Option<+T> = None | Some(value: T) {
    function GetOr(default: T): T {
      match this
      case Some(v) => v
      case None => default
    }
  }

  /** A Go `(value, error)` pair. */
  datatype Result<+T, +E> = Ok(value: T) | Err(error: E)
}
