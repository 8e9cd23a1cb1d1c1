/** Option and Result, the two shapes in which Go's `(value, error)` pairs are modelled. */
module Wrappers {

  datatype Option<+T> = None | Some(value: T)

  /** A Go call that returns a value and an error: exactly one of the two is meaningful. */
  datatype Result<+T, +E> = Ok(value: T) | Err(error: E)
}
