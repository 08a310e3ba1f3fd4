/** The nullable references of the source (`T?`) become `Option<T>`. */
module Wrappers {
  datatype Option<+T> = None | Some(value: T) {
    /** Kotlin's elvis operator `value ?: default`. */
    function GetOr(default: T): T
    {
      match this
      case Some(v) => v
      case None => default
    }
  }
}
