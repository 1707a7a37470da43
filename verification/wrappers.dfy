/** Optional values, the model's stand-in for an SQL NULL, and results that may fail. */
module Wrappers {

  datatype Option<+T> = None | Some(value: T) {

    /** The value, or `default` when there is none (SQL `COALESCE`). */
    function GetOr(default: T): T {
      match this
      case Some(v) => v
      case None => default
    }
  }

  /** The outcome of an endpoint that either completes or raises. */
  datatype Result<+R, +E> = Success(value: R) | Failure(error: E)
}
