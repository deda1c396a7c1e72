/** Failure-compatible wrappers used throughout the model: Go's nil-able values become
    `Option`, and a `(value, error)` pair becomes `Result`. */
module Wrappers {

  datatype Option<+T> = None | Some(value: T)

  datatype Result<+R, +E> = Success(value: R) | Failure(error: E)
}
