/** The array operations the services and the cart are built from:
    `findIndex`/`find` (first element satisfying a test) and `filter`. */
module Seqs {
  import opened Types

  /** The index of the first element of `s` that satisfies `p`, if any. */
  function FindIndex<T>(s: seq<T>, p: T -> bool): (r: Option<nat>)
    ensures r.Some? ==> r.value < |s| && p(s[r.value])
    ensures r.Some? ==> forall j :: 0 <= j < r.value ==> !p(s[j])
    ensures r.None? <==> forall j :: 0 <= j < |s| ==> !p(s[j])
  {
    if |s| == 0 then None
    else if p(s[0]) then Some(0)
    else match FindIndex(s[1..], p)
      case None => None
      case Some(k) => Some(k + 1)
  }

  /** The elements of `s` that satisfy `p`, in their order in `s`. */
  function Filter<T>(s: seq<T>, p: T -> bool): (r: seq<T>)
    ensures |r| <= |s|
    ensures forall i :: 0 <= i < |r| ==> r[i] in s && p(r[i])
    ensures forall i :: 0 <= i < |s| && p(s[i]) ==> s[i] in r
    ensures multiset(r) <= multiset(s)
  {
    if |s| == 0 then []
    else
      assert s == [s[0]] + s[1..];
      (if p(s[0]) then [s[0]] else []) + Filter(s[1..], p)
  }

  /** Filtering keeps every occurrence of an element that passes the test and
      none of one that fails it. */
  lemma {:induction false} FilterCounts<T>(s: seq<T>, p: T -> bool)
    ensures forall x :: multiset(Filter(s, p))[x] == if p(x) then multiset(s)[x] else 0
  {
    if |s| > 0 {
      assert s == [s[0]] + s[1..];
      FilterCounts(s[1..], p);
    }
  }

  /** Filtering a concatenation filters each part and keeps them in order. */
  lemma {:induction false} FilterAppend<T>(s: seq<T>, t: seq<T>, p: T -> bool)
    ensures Filter(s + t, p) == Filter(s, p) + Filter(t, p)
  {
    if |s| == 0 {
      assert s + t == t;
    } else {
      assert (s + t)[1..] == s[1..] + t;
      FilterAppend(s[1..], t, p);
    }
  }

  /** When every element passes the test, filtering changes nothing. */
  lemma {:induction false} FilterKeepsAll<T>(s: seq<T>, p: T -> bool)
    requires forall i :: 0 <= i < |s| ==> p(s[i])
    ensures Filter(s, p) == s
  {
    if |s| > 0 {
      FilterKeepsAll(s[1..], p);
    }
  }

  /** Filtering twice with the same test is filtering once. */
  lemma FilterIdempotent<T>(s: seq<T>, p: T -> bool)
    ensures Filter(Filter(s, p), p) == Filter(s, p)
  {
    FilterKeepsAll(Filter(s, p), p);
  }

  /** When no element passes the test, nothing is kept. */
  lemma FilterDropsAll<T>(s: seq<T>, p: T -> bool)
    requires forall i :: 0 <= i < |s| ==> !p(s[i])
    ensures Filter(s, p) == []
  {
    if Filter(s, p) != [] {
      var k :| 0 <= k < |s| && s[k] == Filter(s, p)[0];
    }
  }

  /** Two sequences on which the test gives the same answers, index by index,
      have their first match at the same index. */
  lemma FindIndexSameAnswers<T>(s: seq<T>, t: seq<T>, p: T -> bool)
    requires |s| == |t|
    requires forall j :: 0 <= j < |s| ==> p(s[j]) == p(t[j])
    ensures FindIndex(s, p) == FindIndex(t, p)
  {
    var a, b := FindIndex(s, p), FindIndex(t, p);
    assert a.Some? ==> p(t[a.value]);
    assert b.Some? ==> p(s[b.value]);
  }

  /** Appending an element keeps the first match of the old elements;
      without one, the new element is found if it matches. */
  lemma FindIndexAppend<T>(s: seq<T>, x: T, p: T -> bool)
    ensures FindIndex(s, p).Some? ==> FindIndex(s + [x], p) == FindIndex(s, p)
    ensures FindIndex(s, p).None? && p(x) ==> FindIndex(s + [x], p) == Some(|s|)
    ensures FindIndex(s, p).None? && !p(x) ==> FindIndex(s + [x], p).None?
  {
    assert forall j :: 0 <= j < |s| ==> (s + [x])[j] == s[j];
    assert (s + [x])[|s|] == x;
  }
}
