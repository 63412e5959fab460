/** Option and Result values used across the model. */
module Wrappers {

  /** A value that may be absent, as JavaScript's `null` state fields are. */
  datatype Option<+T> = None | Some(value: T) {
    function GetOr(default: T): T {
      match this
      case Some(v) => v
      case None => default
    }
  }

  /** The outcome of an operation that resolves or rejects. */
  datatype Result<+T, +E> = Success(value: T) | Failure(error: E)
}
