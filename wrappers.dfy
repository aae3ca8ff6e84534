/** The optional value and the outcome of a throwing call, used throughout the model. */
module Wrappers {

  /** A value that may be absent; it stands for a Java reference that may be null. */
  datatype Option<+T> = None | Some(value: T)

  /** The outcome of a call that may throw: a value, or the exception's payload. */
  datatype Result<+T, +E> = Ok(value: T) | Err(error: E)
}
