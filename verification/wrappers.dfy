/** Option stands for a reference that may be null; Result for a call that
    either returns a value or throws one of the errors of the caller's
    error type. */
module Wrappers {

  datatype Option<+T> = None | Some(value: T)

  datatype Result<+R, +E> = Success(value: R) | Failure(error: E)
}
