/** Option and Result: Python's `None` and raised exceptions, made explicit. */
module Wrappers {

  datatype Option<+T> = None | Some(value: T)

  /** Either the value a call returned or the exception it raised. */
  datatype Result<+R, +E> = Success(value: R) | Failure(error: E)
}
