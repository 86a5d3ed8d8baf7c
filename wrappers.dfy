/** Option and Result: the model's stand-ins for Go's nil pointers and (value, error) returns. */
module Wrappers {

  /** A value that may be absent, as a Go `*string` may be nil. */
  datatype Option<+T> = None | Some(value: T)

  /** Either a value or an error; Go returns the pair (value, err) with exactly one of them meaningful. */
  datatype Result<+T, +E> = Success(value: T) | Failure(error: E)
}
