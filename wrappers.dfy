/** The optional value used for absent route parameters, absent query
    parameters and absent keys of a partial update. */
module Wrappers {

  datatype Option<T> = None | Some(value: T) {

    /** The value, or `default` when absent (JavaScript's `x ?? default`). */
    function GetOr(default: T): (r: T)
      ensures Some? ==> r == value
      ensures None? ==> r == default
    {
      match this
      case Some(v) => v
      case None => default
    }
  }
}
