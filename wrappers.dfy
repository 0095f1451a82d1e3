/** Optional values: the model's rendering of JavaScript's `undefined`/`null`. */
module Wrappers {

  datatype Option<+T> = None | Some(value: T) {

    /** `x ?? d` for an optional value. */
    function GetOr(default: T): T {
      match this
      case Some(v) => v
      case None => default
    }
  }
}
