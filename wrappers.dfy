/** The Option type shared by the other modules: `None` stands for a value
    that is absent (a missing key, a Python `None`, a failed parse). */
module Wrappers {

  datatype Option<+T> = None | Some(value: T) {

    /** The value held, or `default` when there is none. */
    function GetOr(default: T): T {
      match this
      case Some(v) => v
      case None => default
    }
  }
}
