/** The optional value of JavaScript: `undefined`/`null` versus a value. */
module Wrappers {

  datatype Option<+T> = None | Some(value: T) {

    /** `x ?? fallback`: the value when present, otherwise the fallback. */
    function GetOr(fallback: T): T {
      match this
      case Some(v) => v
      case None => fallback
    }
  }
}
