/** Optional values and results with an error, used for the absent keys and the
    thrown "not found" errors of the entity store. */
module Wrappers {

  /** A value that may be absent (`undefined` or a missing key). */
  datatype Option<+T> = None | Some(value: T) {

    /** The value if present, otherwise `default`. */
    function GetOr(default: T): T {
      match this
      case Some(v) => v
      case None => default
    }
  }

  /** The outcome of an operation that either produces a value or fails. */
  datatype Result<+T, +E> = Success(value: T) | Failure(error: E)
}
