/** Option and Result, the two failure-carrying datatypes used throughout the model. */
module Wrappers {

  datatype Option<+T> = None | Some(value: T) {
    /** The wrapped value, or `default` when there is none (Python's `d.get(k, default)`). */
    function GetOr(default: T): T {
      match this
      case Some(v) => v
      case None => default
    }
  }

  /** An operation that either produced a value or raised an exception. */
  datatype Result<+R, +E> = Success(value: R) | Failure(error: E)
}
