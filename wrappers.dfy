/** Failure-carrying datatypes shared by the other modules. */
module Wrappers {

  datatype Option<+T> = None | Some(value: T)

  /** The outcome of an operation that may fail with an error value. */
  datatype Result<+T, +E> = Ok(value: T) | Err(error: E)
}
