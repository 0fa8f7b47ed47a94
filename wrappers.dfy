/** Option and Result values shared by every module of the model. */
module Wrappers {

  datatype Option<+T> = None | Some(value: T)

  /** A Go `(value, error)` pair, or a JavaScript outcome: either a value or an error. */
  datatype Result<+T, +E> = Ok(value: T) | Err(error: E)
}
