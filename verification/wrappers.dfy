/** Failure-carrying datatypes used across the model: an optional JSON field
    and the outcome of an operation that can raise. */
module Wrappers {

  /** A value that may be absent, as a key missing from a JSON object. */
  datatype Option<+T> = None | Some(value: T) {

    /** The carried value, or `default` when absent (Python's `dict.get(key, default)`). */
    function GetOr(default: T): T {
      match this
      case Some(v) => v
      case None => default
    }
  }

  /** The outcome of a call that either returns a value or raises with a message. */
  datatype Result<+R, +E> = Success(value: R) | Failure(error: E)
}
