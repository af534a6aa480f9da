/** Failure-compatible result types shared by the whole model. */
module Wrappers {

  /** A value that may be absent (a `null`, an `undefined` or a failed match). */
  datatype Option<+T> = None | Some(value: T)

  /** The outcome of an operation that may throw: its value, or the message of the thrown error. */
  datatype Result<+T> = Success(value: T) | Failure(error: string)
}
