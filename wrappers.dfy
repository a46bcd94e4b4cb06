/** Optional values and results with an error, shared by every module of the model. */
module Wrappers {

  /** A value that may be absent; Python's `None` where a value was expected. */
  datatype Option<+T> = None | Some(value: T)

  /** A value or the error that the original code raises instead of returning one. */
  datatype Result<+T, +E> = Success(value: T) | Failure(error: E)
}
