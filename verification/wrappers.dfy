/** The optional-value and thrown-or-returned result datatypes shared by the whole model. */
module Wrappers {

  /** A value that may be absent: a missing JavaScript property or `undefined`. */
  datatype Option<+T> = None | Some(value: T) {

    /** The value, or `default` when absent. */
    function GetOr(default: T): T {
      match this
      case Some(v) => v
      case None => default
    }
  }

  /** The outcome of a call that may throw: it either returns a value or raises an error. */
  datatype Outcome<+T, +E> = Returned(value: T) | Threw(error: E)
}
