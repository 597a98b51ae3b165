/** Optional values and fallible results, for SQL NULLs and Go errors. */
module Wrappers {

  datatype Option<+T> = None | Some(value: T) {

    function GetOr(fallback: T): T {
      match this
      case Some(v) => v
      case None => fallback
    }
  }

  datatype Result<+T, +E> = Success(value: T) | Failure(error: E)
}
