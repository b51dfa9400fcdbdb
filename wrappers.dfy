/** An argument that a JavaScript caller may leave out (`undefined`), so that a
    destructuring default applies. */
module Wrappers {

  datatype Option<+T> = None | Some(value: T) {

    /** The value, or the default when the argument was left out. */
    function GetOr(default: T): (r: T)
      ensures Some? ==> r == value
      ensures None? ==> r == default
    {
      match this
      case Some(v) => v
      case None => default
    }
  }
}
