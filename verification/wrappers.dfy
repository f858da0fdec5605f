/** Option and Result, shared by every module of the model. */
module Wrappers {

  /** A value that may be missing (JavaScript `undefined` / `null`). */
  datatype Option<+T> = None | Some(value: T) {

    /** The value, or `default` when it is missing (a JavaScript default parameter). */
    function GetOr(default: T): T {
      match this
      case Some(v) => v
      case None => default
    }
  }

  /** The outcome of an operation that can fail with an error value. */
  datatype Result<+R, +E> = Success(value: R) | Failure(error: E)
}
