/** Optional values, and results of functions that raise. */
module Wrappers {
  datatype Option<T> = None | Some(value: T)

  /** The two exceptions that the Python parts raise. */
  datatype Error = ValidationError | ValueError

  datatype Result<T> = Success(value: T) | Failure(error: Error)
}
