/** Optional arguments and results that may fail. */
module Wrappers {

  /** A Python argument that may be `None`. */
  datatype Option<+T> = None | Some(value: T)

  /** The value an operation returns, or the error it raises. */
  datatype Result<+T, +E> = Success(value: T) | Failure(error: E)
}
