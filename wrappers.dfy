/** Failure-compatible results for the operations whose Python originals raise
    `ValueError` (or return `None`) on bad input. */
module Wrappers {

  datatype Option<+T> = None | Some(value: T)

  /** `Failure` carries the message of the exception the source raises. */
  datatype Result<+T> = Success(value: T) | Failure(error: string)
}
