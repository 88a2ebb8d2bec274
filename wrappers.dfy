/** Option and Result, used for Go's `(value, error)` returns and nil/non-nil errors. */
module Wrappers {

  datatype Option<+T> = None | Some(value: T)

  datatype Result<+T, +E> = Ok(value: T) | Err(error: E)
}
