/** Optional values: the `field?: T` members of the page records and the
    `Partial<T>` drafts, where `x || d` and `x ?? d` fall back to a default. */
module Wrappers {

  datatype Option<+T> = None | Some(value: T) {

    /** The value, or `default` when absent. */
    function GetOr(default: T): T {
      match this
      case Some(v) => v
      case None => default
    }
  }
}
