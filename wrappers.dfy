/** Optional values and fallible results shared by the whole model. */
module Wrappers {
  /** A value that may be absent (Python's `None`). */
  datatype Option<T> = None | Some(value: T)
  {
    function GetOr(default: T): T
    {
      match this
      case Some(v) => v
      case None => default
    }
  }

  /** The outcome of an operation that either produces a value or raises an error. */
  datatype Result<T, E> = Success(value: T) | Failure(error: E)
}
