/** Option and Result, used for Python's `None` and for operations that may raise. */
module Wrappers {

  datatype Option<+T> = None | Some(value: T)

  /** The outcome of a Python call: the value it returned, or the exception it raised. */
  datatype Result<+R, +E> = Success(value: R) | Failure(error: E)
}
