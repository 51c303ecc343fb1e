/** Small shared vocabulary: optional values, the alerts the screens show, and
    the first-match search that JavaScript's `Array.prototype.find` performs. */
module Common {

  /** A value that may be absent (JavaScript's `null` / `undefined`). */
  datatype Option<T> = None | Some(value: T)

  /** A blocking alert shown to the user: a title and a message. */
  datatype Alert = Alert(title: string, message: string)

  /** The index of the first element of `s` that satisfies `p`, or None when no
      element does; `find` returns the element at this index. */
  function FindIndex<T>(s: seq<T>, p: T -> bool): (r: Option<nat>)
    ensures r.Some? ==> r.value < |s| && p(s[r.value])
    ensures r.Some? ==> forall j :: 0 <= j < r.value ==> !p(s[j])
    ensures r.None? <==> forall i :: 0 <= i < |s| ==> !p(s[i])
  {
    if |s| == 0 then None
    else if p(s[0]) then Some(0)
    else match FindIndex(s[1..], p)
      case None => None
      case Some(k) => Some(k + 1)
  }
}
