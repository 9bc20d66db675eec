/** Optional values and results, the model's stand-in for Python's `None`
    and for errors raised to a caller. */
module Wrappers {

  datatype Option<+T> = None | Some(value: T) {
    /** The value, or `default` when there is none (Python's `x or default`
        for an optional value). */
    function GetOr(default: T): T {
      match this
      case Some(v) => v
      case None => default
    }
  }

  /** A computation that either succeeds with a value or raises an error. */
  datatype Result<+R, +E> = Success(value: R) | Failure(error: E)
}
