/** Option and Result values standing in for Go's `(T, error)` returns and nil references. */
module Wrappers {

  datatype Option<+T> = None | Some(value: T)

  datatype Result<+T, +E> = Ok(value: T) | Err(error: E)
}
