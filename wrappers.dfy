/** Option and Result values for absent data and raised errors. */
module Wrappers {

  /** A value that may be absent, the model of Python's `None`. */
  datatype Option<+T> = None | Some(value: T)

  /** The outcome of a call that may raise: a value, or the error it raises. */
  datatype Result<+R, +E> = Success(value: R) | Failure(error: E)
}
