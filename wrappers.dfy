/**
 * Optional values, the model's rendering of Go's nil-able pointers, and
 * results, its rendering of Go's `(value, error)` returns.
 */
module Wrappers {

  datatype Option<+T> = None | Some(value: T)

  datatype Result<+T, +E> = Success(value: T) | Failure(error: E)
}
