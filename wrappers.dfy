/** The optional value used wherever the game scripts hold a reference that may be null. */
module Wrappers {

  datatype Option<+T> = None | Some(value: T) {

    /** The value held, or `fallback` when there is none: the C# `??` operator. */
    function GetOr(fallback: T): (r: T)
      ensures Some? ==> r == value
      ensures None? ==> r == fallback
    {
      match this
      case Some(v) => v
      case None => fallback
    }
  }
}
