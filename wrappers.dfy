/** Option and Result wrappers shared by the model. */
module Wrappers {

  /** A value that may be absent: Go's nil pointer, or an optional query parameter. */
  datatype Option<+T> = None | Some(value: T)

  /** Either a value or an error: Go's `(value, error)` return pair. */
  datatype Result<+T, +E> = Success(value: T) | Failure(error: E)
}
