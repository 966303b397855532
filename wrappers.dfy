/** The optional value of a configuration key or of an argument that may be left out. */
module Wrappers {

  datatype Option<+T> = None | Some(value: T) {

    /** The value if there is one, `default` otherwise (`x ?? default`). */
    function GetOr(default: T): T {
      match this
      case Some(v) => v
      case None => default
    }
  }
}
