/** Failure-compatible wrappers used throughout the model. */
module Wrappers {

  /** A value that may be absent (a nil pointer or an unset field in the source). */
  datatype Option<+T> = None | Some(value: T)

  /** The outcome of an operation that returns `(value, error)`; errors carry their message. */
  datatype Result<+T> = Ok(value: T) | Err(error: string)
}
