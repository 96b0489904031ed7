/** Optional values and success/failure results, used wherever the client
    either returns nothing (Python's None) or raises an exception. */
module Wrappers {

  /** Python's `Optional[T]`: None, or a value. */
  datatype Option<+T> = None | Some(value: T) {
    function GetOr(default: T): T {
      match this
      case Some(v) => v
      case None => default
    }
  }

  /** The outcome of an operation that may raise: a value, or the exception. */
  datatype Result<+T, +E> = Success(value: T) | Failure(error: E)
}
