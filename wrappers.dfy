/** Option and Result, the two failure-carrying datatypes the rest of the model uses. */
module Wrappers {

  /** A value that may be absent; stands for Go's nil pointers and nil maps. */
  datatype Option<+T> = None | Some(value: T)

  /** A value or an error; stands for Go's `(T, error)` return pairs. */
  datatype Result<+T, +E> = Ok(value: T) | Err(error: E)
}
