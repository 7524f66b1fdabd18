/** Option and Result: the model's stand-ins for Python's None and for raised exceptions. */
module Wrappers {

  datatype Option<+T> = None | Some(value: T)

  /** Success carries what a Python call returns, Failure what it raises. */
  datatype Result<+R, +E> = Success(value: R) | Failure(error: E)
}
