/** Optional values: a D-Bus path that holds "no value", a JSON field that is
    absent or null, a configuration key that is not set. */
module Wrappers {

  datatype Option<+T> = None | Some(value: T) {

    /** The carried value, or `default` when there is none. */
    function GetOr(default: T): T {
      match this
      case Some(v) => v
      case None => default
    }
  }
}
