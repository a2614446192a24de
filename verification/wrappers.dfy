/** An optional value: a JavaScript field that is either `undefined` or set. */
module Wrappers {

  datatype Option<+T> = None | Some(value: T) {

    /** The value if set, otherwise the given default (the `?? d` of JavaScript). */
    function GetOr(default: T): T {
      match this
      case Some(v) => v
      case None => default
    }
  }
}
