/** Optional values: the model's stand-in for Go's nil-able pointers and
    JavaScript's null. */
module Optional {

  datatype Option<+T> = None | Some(value: T)

  /** The zero- or one-element sequence holding the value, if any. */
  function AsSeq<T>(o: Option<T>): (s: seq<T>)
    ensures |s| <= 1
    ensures o.None? <==> s == []
    ensures o.Some? ==> s == [o.value]
  {
    match o
    case None => []
    case Some(v) => [v]
  }
}
