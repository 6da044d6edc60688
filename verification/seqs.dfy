/** The two array operations the resolution uses: `find`/`findIndex` and `filter`. */
module Seqs {
  import opened Wrappers

  /** `Array.prototype.findIndex`: the position of the first element satisfying `p`, if any. */
  function FindIndex<T>(s: seq<T>, p: T -> bool): (r: Option<nat>)
    ensures r.Some? ==> r.value < |s| && p(s[r.value])
    ensures r.Some? ==> forall j :: 0 <= j < r.value ==> !p(s[j])
    ensures r.None? <==> forall j :: 0 <= j < |s| ==> !p(s[j])
  {
    if s == [] then None
    else if p(s[0]) then Some(0)
    else match FindIndex(s[1..], p)
      case None => None
      case Some(i) => Some(i + 1)
  }

  /** `Array.prototype.filter`: the elements satisfying `p`, in their original order. */
  function Filter<T>(s: seq<T>, p: T -> bool): (r: seq<T>)
    ensures |r| <= |s|
    ensures forall k :: 0 <= k < |r| ==> r[k] in s && p(r[k])
    ensures forall j :: 0 <= j < |s| && p(s[j]) ==> s[j] in r
  {
    if s == [] then [] else (if p(s[0]) then [s[0]] else []) + Filter(s[1..], p)
  }

  /** Filtering distributes over concatenation: the relative order of kept elements is preserved. */
  lemma {:induction false} FilterAppend<T>(a: seq<T>, b: seq<T>, p: T -> bool)
    ensures Filter(a + b, p) == Filter(a, p) + Filter(b, p)
  {
    if a == [] {
      assert a + b == b;
    } else {
      assert (a + b)[1..] == a[1..] + b;
      FilterAppend(a[1..], b, p);
    }
  }

  /**
   * The head of a filtered sequence is the first qualifying element: the filter
   * is non-empty exactly when `findIndex` finds something, and then its first
   * element is the element found.
   */
  lemma {:induction false} FilterHeadIsFirstMatch<T>(s: seq<T>, p: T -> bool)
    ensures Filter(s, p) != [] <==> FindIndex(s, p).Some?
    ensures Filter(s, p) != [] ==> Filter(s, p)[0] == s[FindIndex(s, p).value]
  {
    if s != [] && !p(s[0]) {
      FilterHeadIsFirstMatch(s[1..], p);
    }
  }
}
