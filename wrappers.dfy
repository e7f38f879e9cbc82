/** Failure-compatible wrappers for the errors the Python code raises. */
module Wrappers {

  datatype Option<+T> = None | Some(value: T) {
    function GetOr(default: T): T {
      match this
      case Some(v) => v
      case None => default
    }
  }

  datatype Result<+R, +E> = Success(value: R) | Failure(error: E)

  /** A result without a value: the call either completed or raised. */
  datatype Outcome<+E> = Pass | Fail(error: E)
}
