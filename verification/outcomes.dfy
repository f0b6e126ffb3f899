/** Failure-carrying values used throughout the model in place of Python's
    `None` and raised exceptions. */
module Outcomes {

  /** A value that may be absent. */
  datatype Option<+T> = None | Some(value: T)

  /** The value of a call that either returns normally or raises. */
  datatype Result<+T, +E> = Ok(value: T) | Err(error: E)
}
