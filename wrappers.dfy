/** Optional values: the Python `None` of a dictionary lookup, a dialog or a failed call. */
module Wrappers {

  datatype Option<+T> = None | Some(value: T) {

    /** The wrapped value, or `default` when there is none. */
    function GetOr(default: T): T {
      match this
      case Some(v) => v
      case None => default
    }
  }
}
