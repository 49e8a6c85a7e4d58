/** Option and Result, the failure-carrying values the rest of the model returns. */
module Wrappers {

  /** A value that may be absent; stands for a Go nil reference or an absent map entry. */
  datatype Option<+T> = None | Some(value: T)

  /** A value or the error a Go function returned instead of it. */
  datatype Result<+T, +E> = Success(value: T) | Failure(error: E)
}
