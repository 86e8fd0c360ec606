/** The two Swift standard-library sequence operations the core relies on. */
module Seqs {
  import opened Wrappers

  /**
   * `firstIndex(where:)` (and `first(where:)`, which returns the element at that index):
   * the smallest index whose element satisfies `p`, or `None` when there is none.
   */
  function FirstIndex<T>(s: seq<T>, p: T -> bool): (r: Option<nat>)
    ensures r.Some? ==> r.value < |s| && p(s[r.value])
    ensures r.Some? ==> forall j :: 0 <= j < r.value ==> !p(s[j])
    ensures r.None? <==> forall j :: 0 <= j < |s| ==> !p(s[j])
    decreases |s|
  {
    if |s| == 0 then None
    else if p(s[0]) then Some(0)
    else
      match FirstIndex(s[1..], p)
      case None => None
      case Some(k) => Some(k + 1)
  }

  /** `compactMap`: apply `f` to each element in order and keep the non-nil results. */
  function CompactMap<A, B>(s: seq<A>, f: A -> Option<B>): (r: seq<B>)
    ensures |r| <= |s|
    ensures forall i :: 0 <= i < |r| ==> exists j :: 0 <= j < |s| && f(s[j]) == Some(r[i])
    decreases |s|
  {
    if |s| == 0 then []
    else
      match f(s[0])
      case Some(y) => [y] + CompactMap(s[1..], f)
      case None => CompactMap(s[1..], f)
  }

  /** When `f` never yields nil, `compactMap` is an order-preserving map. */
  lemma {:induction false} CompactMapTotal<A, B>(s: seq<A>, f: A -> Option<B>)
    requires forall j :: 0 <= j < |s| ==> f(s[j]).Some?
    ensures |CompactMap(s, f)| == |s|
    ensures forall i :: 0 <= i < |s| ==> Some(CompactMap(s, f)[i]) == f(s[i])
    decreases |s|
  {
    if |s| > 0 {
      CompactMapTotal(s[1..], f);
      var tail := CompactMap(s[1..], f);
      assert CompactMap(s, f) == [f(s[0]).value] + tail;
      forall i | 0 < i < |s|
        ensures Some(CompactMap(s, f)[i]) == f(s[i])
      {
        assert CompactMap(s, f)[i] == tail[i - 1];
        assert s[1..][i - 1] == s[i];
      }
    }
  }
}
