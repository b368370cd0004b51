/** Failure-compatible result types used for the exceptions the Python code raises. */
module Wrappers {

  datatype Option<+T> = None | Some(value: T)

  /** The outcome of a step that may raise: a value, or the exception's message. */
  datatype Result<+T> = Success(value: T) | Failure(error: string)
}
