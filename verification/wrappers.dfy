/** An optional value, for JavaScript values that may be `null` or `undefined`. */
module Wrappers {

  /** A value that may be absent: a missing JSON field, a `null` state slot. */
  datatype Option<+T> = None | Some(value: T) {

    /** Returns the wrapped value, or `default` when absent (JavaScript `x || default`
        on a value that is never falsy when present). */
    function GetOr(default: T): (r: T)
      ensures Some? ==> r == value
      ensures None? ==> r == default
    {
      match this
      case Some(v) => v
      case None => default
    }
  }
}
