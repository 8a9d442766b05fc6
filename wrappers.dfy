/** Optional values and success/failure results, as the platform reply channels use them. */
module Wrappers {

  /** A value that may be absent (Swift `nil`, Java and Kotlin `null`). */
  datatype Option<+T> = None | Some(value: T) {
    function GetOr(default: T): T {
      match this
      case Some(v) => v
      case None => default
    }
  }

  /** The reply a platform call hands back: a value, or an error. */
  datatype Result<+R, +E> = Success(value: R) | Failure(error: E)
}
