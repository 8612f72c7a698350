/** The Some/None datatype used wherever the plugin reads a value that may be
    `undefined` in JavaScript. */
module Wrappers {

  datatype Option<+T> = None | Some(value: T) {

    /** The carried value, or `default` when there is none (JavaScript's
        `x || default` for a missing `x`). */
    function GetOr(default: T): T {
      match this
      case Some(v) => v
      case None => default
    }
  }
}
