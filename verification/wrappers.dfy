/** Failure-carrying value types shared by the whole model. */
module Wrappers {

  /** A value that may be absent; Go's nil slices and nil errors map to None. */
  datatype Option<+T> = None | Some(value: T)

  /** A value or the error that replaced it. */
  datatype Result<+T, +E> = Success(value: T) | Failure(error: E)
}
