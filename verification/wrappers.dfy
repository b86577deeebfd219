/** Option and Result, the two failure-carrying shapes the model uses in place of
    Go's nil pointers and `(value, error)` pairs. */
module Wrappers {

  /** A value that may be missing: Go's nil pointer or nil slice. */
  datatype Option<+T> = None | Some(value: T)

  /** A value or an error: Go's `(value, error)` return pair with exactly one side meaningful. */
  datatype Result<+T, +E> = Ok(value: T) | Err(error: E)
}
