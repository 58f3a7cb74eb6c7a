/** Kotlin's nullable values (`T?`), as an option type. */
module Wrappers {
  datatype Option<+T> = None | Some(value: T) {
    /** `this ?: default` */
    function GetOr(default: T): T {
      match this
      case Some(v) => v
      case None => default
    }
  }
}
