/** Optional values and results with an error, the shapes Go expresses with nil pointers
    and `(value, error)` pairs. */
module Wrappers {

  datatype Option<+T> = None | Some(value: T) {
    /** The value, or `default` when there is none (Go: dereference a pointer or use the zero value). */
    function GetOr(default: T): T {
      match this
      case Some(v) => v
      case None => default
    }
  }

  datatype Result<+T, +E> = Success(value: T) | Failure(error: E)
}
