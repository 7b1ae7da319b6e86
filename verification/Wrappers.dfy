/** Option and Result, the shapes used where the Go code returns (value, ok) or (value, error). */
module Wrappers {

  datatype Option<+T> = None | Some(value: T)

  datatype Result<+T, +E> = Ok(value: T) | Err(error: E)
}
