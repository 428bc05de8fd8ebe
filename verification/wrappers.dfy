/** Optional values and results with an error, shared by every module. */
module Wrappers {

  /** Python's `None` versus a present value. */
  datatype Option<+T> = None | Some(value: T) {
    function GetOr(default: T): T {
      match this
      case Some(v) => v
      case None => default
    }
  }

  /** A computation that either produced a value or stopped with an error. */
  datatype Result<+T, +E> = Success(value: T) | Failure(error: E)
}
