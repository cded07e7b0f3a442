/** Option and Result, the two shapes every component uses for Go's `value, ok` and `value, err`. */
module Wrappers {
  datatype Option<+T> = None | Some(value: T)

  datatype Result<+T, +E> = Ok(value: T) | Err(error: E)
}
