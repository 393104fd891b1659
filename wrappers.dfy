/** Option and Result: absent values and error returns. */
module Wrappers {

  datatype Option<+T> = None | Some(value: T) {
    /** The value carried, or `default` when there is none. */
    function GetOr(default: T): T {
      match this
      case Some(v) => v
      case None => default
    }
  }

  /** A Go `(value, error)` pair in which exactly one side is meaningful. */
  datatype Result<+R, +E> = Success(value: R) | Failure(error: E)
}
