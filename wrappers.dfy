/** The optional value: `None` stands for a JavaScript property that is
    `undefined` (absent or not yet assigned). */
module Wrappers {

  datatype Option<+T> = None | Some(value: T) {

    /** `x ?? d` and JavaScript default parameters: the value if present, else `d`. */
    function GetOr(default: T): T {
      match this
      case Some(v) => v
      case None => default
    }
  }
}
