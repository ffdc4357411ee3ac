/** The optional value used wherever the storefront reads a field that may be
    missing (`undefined`/`null` in JavaScript), or a parse that may fail. */
module Wrappers {

  datatype Option<+T> = None | Some(value: T) {

    /** The value, or `default` when there is none. */
    function GetOr(default: T): T {
      match this
      case Some(v) => v
      case None => default
    }
  }
}
