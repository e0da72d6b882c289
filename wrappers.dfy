/** Kotlin's nullable values, as an Option datatype. */
module Wrappers {

  datatype Option<+T> = None | Some(value: T) {

    /** Kotlin's elvis operator `x ?: default`. */
    function GetOr(default: T): T {
      match this
      case Some(v) => v
      case None => default
    }
  }

  /** Kotlin's string template `"${x}"` for a nullable string: null prints as "null". */
  function TemplateText(s: Option<string>): string {
    s.GetOr("null")
  }
}
