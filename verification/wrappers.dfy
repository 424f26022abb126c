/** An optional value and a success-or-error result. */
module Wrappers {

  /** A value that may be absent: an optional record or request field, a
      price that cannot be read. */
  datatype Option<+T> = None | Some(value: T)

  /** The outcome of an operation that either yields a value or fails with an error. */
  datatype Result<+R, +E> = Success(value: R) | Failure(error: E)
}
