/** Optional values and results with an error path, shared by every module. */
module Wrappers {

  /** `None` stands for Python's `None`, a missing dictionary key, or a NaN line value. */
  datatype Option<+T> = None | Some(value: T) {
    function GetOr(default: T): T {
      match this
      case Some(v) => v
      case None => default
    }
  }

  /** The outcome of an operation that the source ends by raising an exception. */
  datatype Result<+R, +E> = Success(value: R) | Failure(error: E)
}
