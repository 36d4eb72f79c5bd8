/** Option and Result: the model's stand-ins for `null` returns and thrown errors. */
module Wrappers {

  /** A value that may be absent (the source's `T | null`). */
  datatype Option<+T> = None | Some(value: T) {

    /** Returns the wrapped value, or `default` when absent. */
    function GetOr(default: T): T {
      match this
      case Some(v) => v
      case None => default
    }
  }

  /** Either a value or the error that the source would have thrown. */
  datatype Result<+R, +E> = Success(value: R) | Failure(error: E)
}
