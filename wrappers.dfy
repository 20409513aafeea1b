/** The optional values of the Python source (`X | None`). */
module Wrappers {

  datatype Option<+T> = None | Some(value: T) {

    /** `self or default` for a value that is truthy exactly when present. */
    function GetOr(default: T): T {
      match this
      case Some(v) => v
      case None => default
    }
  }
}
