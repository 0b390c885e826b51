/** Option and Result, the two failure-carrying values the model uses. */
module Wrappers {

  datatype Option<+T> = None | Some(value: T)

  /** The outcome of a Go call that returns a value and an `error`. */
  datatype Result<+T> = Success(value: T) | Failure(error: string)
}
