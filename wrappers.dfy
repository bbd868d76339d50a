/** Option and Result, the wrappers used throughout the model. */
module Wrappers {

  /** A value that may be absent (Python's Optional / None). */
  datatype Option<+T> = None | Some(value: T)

  /** The outcome of an operation that may raise: the value, or the error it raised. */
  datatype Result<+T, +E> = Ok(value: T) | Err(error: E)
}
