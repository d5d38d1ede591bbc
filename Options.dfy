/** A nullable value: Kotlin's `T?` (a `String?`, a `ReadableMap?`). */
module Options {

  datatype Option<+T> = None | Some(value: T) {

    /** The value, or `default` when absent: Kotlin's `x ?: default`. */
    function GetOr(default: T): T {
      match this
      case Some(v) => v
      case None => default
    }
  }
}
