/** Option and Result, the failure-carrying values used across the model. */
module Wrappers {

  datatype Option<+T> = None | Some(value: T)

  /** Either a value or the exception a Python call would raise. */
  datatype Result<+T, +E> = Ok(value: T) | Err(error: E)
}
