/** Option and Result, the shapes the model uses for Go's nil values and (value, error) pairs. */
module Wrappers {

  /** A Go reference or interface value that may be nil. */
  datatype Option<+T> = None | Some(value: T)

  /** A Go `(value, error)` pair: exactly one of the two is meaningful. */
  datatype Result<+T, +E> = Ok(value: T) | Err(error: E)
}
