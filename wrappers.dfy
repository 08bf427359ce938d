/** Swift optionals (`T?`) as a datatype. */
module Wrappers {

  datatype Option<+T> = None | Some(value: T)

  /** The elements an optional carries, as a sequence of length at most one. */
  function OptionToSeq<T>(o: Option<T>): (r: seq<T>)
    ensures |r| <= 1
    ensures o.None? ==> r == []
    ensures o.Some? ==> r == [o.value]
  {
    match o
    case None => []
    case Some(v) => [v]
  }
}
