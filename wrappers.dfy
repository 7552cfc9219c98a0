/** The two failure-compatible wrappers the model uses for the source's
    `T | null` returns and its thrown errors. */
module Wrappers {

  /** A value or nothing: the source's `T | null`. */
  datatype Option<+T> = None | Some(value: T)

  /** A value or an error message: a call that may throw. */
  datatype Result<+T> = Success(value: T) | Failure(error: string)
}
