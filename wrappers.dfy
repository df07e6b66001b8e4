/** Option and Result values: Python's `None`, and a value or the exception a call raised. */
module Wrappers {

  /** A value that may be missing, as `dict.get` returns `None` for a missing key. */
  datatype Option<+T> = None | Some(value: T)

  /** Either the value a call returned or the exception it raised. */
  datatype Result<+R, +E> = Success(value: R) | Failure(error: E)
}
