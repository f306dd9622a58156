/** Swift optionals (`T?`) and the `first` accessor of arrays. */
module Options {

  /** `None` plays Swift's `nil`. */
  datatype Option<+T> = None | Some(value: T)

  /** Swift's `Array.first`: the head of the sequence, or `nil` when it is empty. */
  function First<T>(s: seq<T>): (r: Option<T>)
    ensures r.None? <==> |s| == 0
    ensures r.Some? ==> r.value == s[0]
  {
    if |s| == 0 then None else Some(s[0])
  }
}
