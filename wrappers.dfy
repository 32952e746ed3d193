/** Optional values and success/failure results shared by every module. */
module Wrappers {

  /** A value that may be absent (Python `None`, TypeScript `undefined`). */
  datatype Option<T> = None | Some(value: T)
  {
    function GetOr(default: T): T
    {
      match this
      case None => default
      case Some(v) => v
    }
  }

  /** The outcome of an operation that either succeeds with a value or fails with an error. */
  datatype Result<T, E> = Success(value: T) | Failure(error: E)
}
