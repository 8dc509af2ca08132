/** The Option datatype used for "zero or one emitted event". */
module Wrappers {

  datatype Option<+T> = None | Some(value: T) {

    /** The values held: empty for None, one element for Some. */
    function ToSeq(): (s: seq<T>)
      ensures |s| <= 1
      ensures Some? <==> |s| == 1
      ensures Some? ==> s[0] == value
    {
      if Some? then [value] else []
    }
  }
}
