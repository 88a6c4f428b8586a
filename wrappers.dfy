/** Failure-carrying wrappers shared by the modules of the model. */
module Wrappers {

  /** A value that may be absent (Python's `None`). */
  datatype Option<+T> = None | Some(value: T)

  /** Either a value or the error Python would raise instead. */
  datatype Result<+T, +E> = Success(value: T) | Failure(error: E)
}
