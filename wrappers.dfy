/** Optional values and results with an error, shared by every module. */
module Wrappers {

  /** A value that may be absent: a Go value that may be nil. */
  datatype Option<+T> = None | Some(value: T)

  /** A value or the error that prevented it: the model of Go's `(value, error)` pair. */
  datatype Result<+T, +E> = Ok(value: T) | Err(error: E)
}
