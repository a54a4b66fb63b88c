/** `Array.prototype.filter` and `Array.prototype.find` and what they
    promise: a filter keeps exactly the elements that pass the test, in their
    original order; a find stops at the first element that passes. */
module Seqs {
  import opened Types

  /** `a` can be obtained from `b` by deleting elements. */
  predicate IsSubsequence<T(==)>(a: seq<T>, b: seq<T>)
    decreases |b|
  {
    |a| == 0 || (|b| > 0 && ((a[0] == b[0] && IsSubsequence(a[1..], b[1..])) || IsSubsequence(a, b[1..])))
  }

  function Filter<T>(s: seq<T>, keep: T -> bool): (r: seq<T>)
    ensures |r| <= |s|
    ensures forall i :: 0 <= i < |r| ==> keep(r[i])
  {
    if s == [] then [] else (if keep(s[0]) then [s[0]] else []) + Filter(s[1..], keep)
  }

  /** An element is in the result exactly when it is in the input and passes. */
  lemma {:induction false} FilterMembership<T>(s: seq<T>, keep: T -> bool, x: T)
    ensures x in Filter(s, keep) <==> x in s && keep(x)
  {
    if s != [] {
      FilterMembership(s[1..], keep, x);
      assert s == [s[0]] + s[1..];
    }
  }

  /** Every element that passes is kept as often as it occurs; the others vanish. */
  lemma {:induction false} FilterCount<T>(s: seq<T>, keep: T -> bool, x: T)
    ensures multiset(Filter(s, keep))[x] == if keep(x) then multiset(s)[x] else 0
  {
    if s != [] {
      FilterCount(s[1..], keep, x);
      assert s == [s[0]] + s[1..];
    }
  }

  /** The result is the input with some elements deleted: order is kept. */
  lemma {:induction false} FilterSubsequence<T>(s: seq<T>, keep: T -> bool)
    ensures IsSubsequence(Filter(s, keep), s)
  {
    if s != [] {
      FilterSubsequence(s[1..], keep);
      var r := Filter(s, keep);
      if keep(s[0]) {
        assert r[0] == s[0] && r[1..] == Filter(s[1..], keep);
      } else {
        assert r == Filter(s[1..], keep);
      }
    }
  }

  /** When every element passes, the filter gives back the input. */
  lemma {:induction false} FilterKeepsAll<T>(s: seq<T>, keep: T -> bool)
    requires forall i :: 0 <= i < |s| ==> keep(s[i])
    ensures Filter(s, keep) == s
  {
    if s != [] {
      FilterKeepsAll(s[1..], keep);
    }
  }

  /** Filtering a prepended element is deciding on it, then filtering the rest. */
  lemma FilterPrepend<T>(x: T, s: seq<T>, keep: T -> bool)
    ensures Filter([x] + s, keep) == (if keep(x) then [x] else []) + Filter(s, keep)
  {
    assert ([x] + s)[1..] == s;
  }

  /** `find` as a position: the first element that passes the test, and none
      when no element passes. */
  function FirstWhere<T>(s: seq<T>, hit: T -> bool): (r: Option<nat>)
    ensures r.Some? ==> r.value < |s| && hit(s[r.value])
    ensures r.Some? ==> forall j :: 0 <= j < r.value ==> !hit(s[j])
    ensures r.None? ==> forall j :: 0 <= j < |s| ==> !hit(s[j])
  {
    if s == [] then None
    else if hit(s[0]) then Some(0)
    else match FirstWhere(s[1..], hit)
      case None => None
      case Some(i) => Some(i + 1)
  }

  /** No element appears twice. */
  predicate Distinct<T(==)>(s: seq<T>)
  {
    forall a, b :: 0 <= a < b < |s| ==> s[a] != s[b]
  }

  /** In a sequence without repeats, an element after one that passes is
      never the one found. */
  lemma FirstWhereNotLater<T>(s: seq<T>, hit: T -> bool, i: nat, j: nat)
    requires i < j < |s| && Distinct(s) && hit(s[i])
    ensures FirstWhere(s, hit).Some?
    ensures s[FirstWhere(s, hit).value] != s[j]
  {
    var r := FirstWhere(s, hit);
    assert r.Some? && r.value <= i;
  }
}
