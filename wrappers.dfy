/** Python's `None`-or-value, as an algebraic datatype. */
module Wrappers {

  datatype Option<T> = None | Some(value: T) {

    /** The value, or `default` for `None` (Python's `d.get(key, default)`). */
    function GetOr(default: T): T {
      match this
      case Some(v) => v
      case None => default
    }
  }
}
