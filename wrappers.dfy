/** Optional values: a JavaScript value that may be `null` or `undefined`. */
module Wrappers {

  datatype Option<T> = None | Some(value: T) {
    predicate IsSome() {
      Some?
    }

    /** `x ?? d`: the value when present, the default otherwise. */
    function GetOr(d: T): (r: T)
      ensures Some? ==> r == value
      ensures None? ==> r == d
    {
      match this
      case Some(v) => v
      case None => d
    }
  }
}
