/** Optional values: `None` stands for a pandas NaN cell ("undefined"),
    which must stay distinguishable from a numeric zero. */
module Wrappers {

  datatype Option<+T> = None | Some(value: T) {

    /** The value of a defined cell, or `default` for an undefined one. */
    function GetOr(default: T): T {
      match this
      case Some(v) => v
      case None => default
    }
  }
}
