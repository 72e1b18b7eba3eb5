/** First-match search, the shape of every `query(...).filter(...).first()`
    in the backend: rows come back in primary-key order and the first match
    is kept. */
module Search {
  import opened Wrappers

  /** The position of the first element satisfying `p`, or None when no
      element does. */
  function First<T>(s: seq<T>, p: T -> bool): (r: Option<nat>)
    ensures r.Some? ==> r.value < |s| && p(s[r.value])
    ensures r.Some? ==> forall j :: 0 <= j < r.value ==> !p(s[j])
    ensures r.None? <==> forall j :: 0 <= j < |s| ==> !p(s[j])
  {
    if s == [] then None
    else if p(s[0]) then Some(0)
    else match First(s[1..], p)
      case None => None
      case Some(i) => Some(i + 1)
  }
}
