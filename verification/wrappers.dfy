/** Optional values. `None` stands for JavaScript's `undefined` (a missing
    property or an unset id); `Some(v)` for a present value. */
module Wrappers {

  datatype Option<+T> = None | Some(value: T) {

    /** The value, or `default` when it is missing. */
    function GetOr(default: T): T {
      match this
      case Some(v) => v
      case None => default
    }
  }
}
