/** Option and Result, used for absent values and for the error returns of the services. */
module Wrappers {
  datatype Option<+T> = None | Some(value: T)

  datatype Result<+T, +E> = Ok(value: T) | Err(error: E)

  /** The platform's UUID keys: only their equality matters to this model. */
  type Uuid = int
}
