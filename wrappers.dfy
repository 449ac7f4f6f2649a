/** An optional value: Python's `None` or a value, and a missing dictionary key. */
module Wrappers {

  datatype Option<T> = None | Some(value: T)
  {
    /** `d.get(key, default)` once the lookup has been made. */
    function GetOr(default: T): (r: T)
      ensures this.Some? ==> r == this.value
      ensures this.None? ==> r == default
    {
      match this
      case None => default
      case Some(v) => v
    }
  }
}
