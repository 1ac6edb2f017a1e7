/** The Some/None datatype used wherever the budget monitor may have no value:
    a numeric coercion that yields NaN, an override that does not apply, a row
    that raises no alert. */
module Wrappers {

  datatype Option<+T> = None | Some(value: T) {

    /** The encapsulated value as a sequence of length one, or the empty sequence. */
    function ToSeq(): (s: seq<T>)
      ensures Some? <==> |s| == 1
      ensures None? <==> s == []
      ensures Some? ==> s[0] == value
    {
      match this
      case Some(v) => [v]
      case None => []
    }
  }
}
