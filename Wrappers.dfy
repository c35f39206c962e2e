/** The optional value used wherever the client returns `None` or a value. */
module Wrappers {

  datatype Option<+T> = None | Some(value: T)

  /** The value as a list of at most one element. */
  function ToSeq<T>(o: Option<T>): (r: seq<T>)
    ensures |r| <= 1
  {
    if o.Some? then [o.value] else []
  }
}
