/** The optional value used wherever the source works with `nil`. */
module Wrappers {

  datatype Option<+T> = None | Some(value: T) {

    /** The value, or `default` when absent (Ruby's `x || default`). */
    function GetOr(default: T): T {
      match this
      case Some(v) => v
      case None => default
    }

    /** The value as a list of at most one element. */
    function ToSeq(): (r: seq<T>)
      ensures |r| <= 1 && (r == [] <==> None?)
      ensures Some? ==> r == [value]
    {
      if Some? then [value] else []
    }
  }
}
