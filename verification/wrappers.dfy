/** Failure-compatible wrappers used throughout the model: `Option` for values
    that may be absent (PHP `null`) and `Result` for computations that either
    return a value or throw. */
module Wrappers {

  datatype Option<+T> = None | Some(value: T)

  datatype Result<+R, +E> = Success(value: R) | Failure(error: E)

}
