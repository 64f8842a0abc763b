/** Failure-carrying result types used across the model. */
module Wrappers {

  datatype Option<+T> = None | Some(value: T)

  /** Success or failure of an operation that yields no value. */
  datatype Outcome<+E> = Pass | Fail(error: E)

  /** Success with a value, or failure with an error. */
  datatype Result<+T, +E> = Ok(value: T) | Err(error: E)
}
