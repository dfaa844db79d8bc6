/** Optional values (Kotlin's nullable types) and success/failure results
    (Kotlin's `Result<T>`). */
module Wrappers {

  datatype Option<T> = None | Some(value: T) {
    /** Kotlin's elvis operator `x ?: default`. */
    function GetOr(default: T): T {
      match this
      case Some(v) => v
      case None => default
    }
  }

  datatype Result<T, E> = Ok(value: T) | Err(error: E)
}
