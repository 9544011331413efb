/** Wrappers used across the model: an optional value
    (a dictionary key that may be missing) and a success-or-error result
    (an operation that may raise). */
module Wrappers {

  datatype Option<+T> = None | Some(value: T)

  datatype Result<+R, +E> = Success(value: R) | Failure(error: E)
}
