// Optional values: a metadata key that may be absent, a statement cell that
// may be empty, a text that may not read back.
module Wrappers {

  datatype Option<+T> = None | Some(value: T) {

    // Python's `dict.get(key, default)` once the lookup is done: the value
    // when there is one, the fallback otherwise.
    function GetOr(fallback: T): (r: T)
      ensures Some? ==> r == value
      ensures None? ==> r == fallback
    {
      if Some? then value else fallback
    }
  }
}
