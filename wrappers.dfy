/** Option and Result, the shapes used for Python's None and for raised errors. */
module Wrappers {

  datatype Option<+T> = None | Some(value: T)

  /** Success carries the value an operation returns; Failure the message it raises. */
  datatype Result<+R, +E> = Success(value: R) | Failure(error: E)
}
