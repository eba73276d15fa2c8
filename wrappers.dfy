/** Option and Result, used throughout the model. */
module Wrappers {

  /** A value that may be missing (JavaScript `undefined`). */
  datatype Option<+T> = None | Some(value: T) {
    function GetOr(default: T): T {
      match this
      case Some(v) => v
      case None => default
    }
  }

  /** The outcome of a validation: a typed value or an error. */
  datatype Result<+R, +E> = Success(value: R) | Failure(error: E)
}
