/** Failure-compatible wrappers shared by the cache and the client models. */
module Wrappers {

  /** A value that may be missing (Go's nil pointer or the second `ok` result). */
  datatype Option<+T> = None | Some(value: T)

  /** A value or the error that replaced it (Go's `(T, error)` pair). */
  datatype Result<+T, +E> = Success(value: T) | Failure(error: E)
}
