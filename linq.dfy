/** The LINQ pipeline `xs.Where(p).MinBy(key)` the resolvers use to pick one candidate. */
module Linq {
  import opened Wrappers

  /**
   * The position in `s` of `s.Where(p).MinBy(key)`: among the elements that
   * satisfy `p`, one whose key is least; MinBy scans in enumeration order and
   * only replaces its current pick by a strictly smaller key, so on ties the
   * earliest such element wins. None when no element satisfies `p`.
   */
  function WhereMinByIndex<T>(s: seq<T>, p: T -> bool, key: T -> nat): (r: Option<nat>)
    ensures r.None? <==> forall i :: 0 <= i < |s| ==> !p(s[i])
    ensures r.Some? ==> r.value < |s| && p(s[r.value])
    ensures r.Some? ==> forall j :: 0 <= j < |s| && p(s[j]) ==> key(s[r.value]) <= key(s[j])
    ensures r.Some? ==> forall j :: 0 <= j < r.value && p(s[j]) ==> key(s[r.value]) < key(s[j])
  {
    if |s| == 0 then None
    else
      var last := |s| - 1;
      var prev := WhereMinByIndex(s[..last], p, key);
      if !p(s[last]) then prev
      else if prev.None? || key(s[last]) < key(s[prev.value]) then Some(last)
      else prev
  }

  /** `s.Where(p).MinBy(key)`: the element at `WhereMinByIndex`, null (None) when nothing passes the filter. */
  function WhereMinBy<T>(s: seq<T>, p: T -> bool, key: T -> nat): (r: Option<T>)
    ensures r.None? <==> forall i :: 0 <= i < |s| ==> !p(s[i])
    ensures r.Some? ==> exists k :: 0 <= k < |s| && s[k] == r.value && p(s[k])
                          && (forall j :: 0 <= j < |s| && p(s[j]) ==> key(s[k]) <= key(s[j]))
                          && (forall j :: 0 <= j < k && p(s[j]) ==> key(s[k]) < key(s[j]))
  {
    match WhereMinByIndex(s, p, key)
    case None => None
    case Some(k) => Some(s[k])
  }
}
