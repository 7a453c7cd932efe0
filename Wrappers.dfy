/** Option and Result values standing in for Python's None and raised exceptions. */
module Wrappers {

  /** A value that may be missing: an absent dictionary key, or Python's None. */
  datatype Option<+T> = None | Some(value: T) {

    /** The value, or `default` when missing: `d.get(key, default)`. */
    function GetOr(default: T): T {
      match this
      case Some(v) => v
      case None => default
    }
  }

  /** A computation that either produces a value or raises an exception with a message. */
  datatype Result<+T, +E> = Success(value: T) | Failure(error: E)
}
