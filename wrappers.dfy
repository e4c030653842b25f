/** Failure-carrying values shared by the whole model. */
module Wrappers {

  /** A PHP value that may be null. */
  datatype Option<+T> = None | Some(value: T)

  /** The value of an operation, or the exception it throws. */
  datatype Result<+T, +E> = Ok(value: T) | Err(error: E)
}
