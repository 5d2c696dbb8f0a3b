/** Optional values: a JSON field that may be absent, a nullable column. */
module Wrappers {

  datatype Option<+T> = None | Some(value: T) {

    /** The value if present, else `default`. */
    function GetOr(default: T): T {
      match this
      case Some(v) => v
      case None => default
    }
  }
}
