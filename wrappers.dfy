/** Option and Result, used for Python's None and for raised exceptions. */
module Wrappers {

  datatype Option<+T> = None | Some(value: T)

  /** Success carries the value a call returns; Failure the exception it raises. */
  datatype Result<+R, +E> = Success(value: R) | Failure(error: E)
}
