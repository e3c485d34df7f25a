/** The absent-or-present value used for the form's nullable fields and for
    the validator's "no error / first error" answer. */
module Wrappers {

  datatype Option<+T> = None | Some(value: T) {

    /** The value, or `default` when absent. */
    function GetOr(default: T): T {
      match this
      case Some(v) => v
      case None => default
    }
  }
}
