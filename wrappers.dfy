/** The optional value used for JSON fields that may be absent. */
module Wrappers {

  datatype Option<+T> = None | Some(value: T) {

    /** Python's `d.get(key, default)` once the key's presence is known. */
    function GetOr(default: T): (r: T)
      ensures Some? ==> r == value
      ensures None? ==> r == default
    {
      match this
      case Some(v) => v
      case None => default
    }
  }
}
