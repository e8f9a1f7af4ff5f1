/** Failure-compatible helper types used across the model. */
module Wrappers {

  /** A value that may be absent: JavaScript's `undefined`/`null` for a field. */
  datatype Option<T> = None | Some(value: T)

  /** The outcome of an operation that either returns a value or throws. */
  datatype Result<T, E> = Success(value: T) | Failure(error: E)
}
