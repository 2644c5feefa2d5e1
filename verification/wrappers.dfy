/** Failure-carrying datatypes shared by the model. */
module Wrappers {

  /** A value that may be absent, as Python's `None` default arguments are. */
  datatype Option<+T> = None | Some(value: T)

  /** The outcome of an operation that may raise: a value, or the error it raised. */
  datatype Result<+T, +E> = Ok(value: T) | Err(error: E)
}
