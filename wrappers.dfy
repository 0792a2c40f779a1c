/** Option and Result, the failure-carrying values used across the model. */
module Wrappers {

  datatype Option<+T> = None | Some(value: T)

  /** The error value of a Go call that returns `(T, error)`: the error text. */
  type Error = string

  datatype Result<+T> = Ok(value: T) | Err(error: Error)
}
