/** Optional values and error returns, used where the Python code returns None or raises. */
module Wrappers {

  /** Python's `Optional[T]`: either no value (None) or a value. */
  datatype Option<+T> = None | Some(value: T)

  /** A value or an error message, standing for a raised exception. */
  datatype Result<+R, +E> = Success(value: R) | Failure(error: E)
}
