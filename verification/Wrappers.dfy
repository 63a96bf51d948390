/** Optional values and the outcome of a validation. */
module Wrappers {

  /** A Python value that may be `None`. */
  datatype Option<+T> = None | Some(value: T) {
    function GetOr(default: T): T {
      match this
      case Some(v) => v
      case None => default
    }
  }

  /** A check that either passes or reports why it failed. */
  datatype Outcome<+E> = Pass | Fail(error: E)
}
