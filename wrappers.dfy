/** Go-style error plumbing: an optional value (a nil pointer is `None`),
    an error value, and the `(value, error)` outcome of a fallible step. */
module Wrappers {

  datatype Option<+T> = None | Some(value: T)

  /** A Go `error`; errors are compared by value. */
  datatype Error = Error(message: string)

  /** The outcome of a step that either yields a value or fails with an error. */
  datatype Result<+T> = Ok(value: T) | Err(error: Error)
}
