/** Array helpers the storefront uses: `filter`, `map` and `find`. */
module Seqs {
  import opened Base

  /** `s.filter(keep)`: the elements that pass, in their original order. */
  function Filter<T(==,!new)>(s: seq<T>, keep: T -> bool): (r: seq<T>)
    ensures |r| <= |s|
    ensures forall k :: 0 <= k < |r| ==> keep(r[k])
    ensures forall x :: x in r <==> x in s && keep(x)
  {
    if |s| == 0 then []
    else
      assert forall x :: x in s <==> x == s[0] || x in s[1..];
      (if keep(s[0]) then [s[0]] else []) + Filter(s[1..], keep)
  }

  /** Filtering a concatenation filters each part: relative order is kept. */
  lemma {:induction false} FilterConcat<T(!new)>(a: seq<T>, b: seq<T>, keep: T -> bool)
    ensures Filter(a + b, keep) == Filter(a, keep) + Filter(b, keep)
    decreases |a|
  {
    if |a| > 0 {
      assert (a + b)[1..] == a[1..] + b;
      FilterConcat(a[1..], b, keep);
    } else {
      assert a + b == b;
    }
  }

  /** Nothing is dropped exactly when every element passes. */
  lemma {:induction false} FilterKeepsAll<T(!new)>(s: seq<T>, keep: T -> bool)
    ensures Filter(s, keep) == s <==> forall k :: 0 <= k < |s| ==> keep(s[k])
    decreases |s|
  {
    if |s| > 0 {
      FilterKeepsAll(s[1..], keep);
      if Filter(s, keep) == s {
        assert s[0] in Filter(s, keep);
      }
      if forall k :: 0 <= k < |s| ==> keep(s[k]) {
        assert forall k :: 0 <= k < |s[1..]| ==> keep(s[1..][k]) by {
          forall k | 0 <= k < |s[1..]| ensures keep(s[1..][k]) {
            assert s[1..][k] == s[k + 1];
          }
        }
      }
    }
  }

  /** The elements are ranked in strictly increasing order (so none repeats). */
  predicate Ascending<T>(s: seq<T>, rank: T -> int) {
    forall i, j :: 0 <= i < j < |s| ==> rank(s[i]) < rank(s[j])
  }

  /** What is kept is ranked above `b` when everything was. */
  lemma {:induction false} FilterKeepsAbove<T(!new)>(s: seq<T>, keep: T -> bool, rank: T -> int, b: int)
    requires forall k :: 0 <= k < |s| ==> b < rank(s[k])
    ensures forall k :: 0 <= k < |Filter(s, keep)| ==> b < rank(Filter(s, keep)[k])
    decreases |s|
  {
    if |s| > 0 {
      FilterKeepsAbove(s[1..], keep, rank, b);
      var rest := Filter(s[1..], keep);
      assert Filter(s, keep) == (if keep(s[0]) then [s[0]] else []) + rest;
    }
  }

  /** Filtering keeps the relative order of what it keeps. */
  lemma {:induction false} FilterKeepsAscending<T(!new)>(s: seq<T>, keep: T -> bool, rank: T -> int)
    requires Ascending(s, rank)
    ensures Ascending(Filter(s, keep), rank)
    decreases |s|
  {
    if |s| > 0 {
      var tail := s[1..];
      FilterKeepsAscending(tail, keep, rank);
      FilterKeepsAbove(tail, keep, rank, rank(s[0]));
      var rest := Filter(tail, keep);
      if keep(s[0]) {
        var r := [s[0]] + rest;
        assert Filter(s, keep) == r;
        forall i, j | 0 <= i < j < |r| ensures rank(r[i]) < rank(r[j]) {
          assert r[j] == rest[j - 1];
          if i > 0 {
            assert r[i] == rest[i - 1];
          }
        }
      } else {
        assert Filter(s, keep) == rest;
      }
    }
  }

  /** `s.map(f)`. */
  function Map<T, U>(s: seq<T>, f: T -> U): (r: seq<U>)
    ensures |r| == |s|
    ensures forall k :: 0 <= k < |s| ==> r[k] == f(s[k])
  {
    seq(|s|, k requires 0 <= k < |s| => f(s[k]))
  }

  /** Mapping a concatenation maps each part. */
  lemma MapConcat<T, U>(a: seq<T>, b: seq<T>, f: T -> U)
    ensures Map(a + b, f) == Map(a, f) + Map(b, f)
  {
    assert forall k :: 0 <= k < |a + b| ==> (a + b)[k] == if k < |a| then a[k] else b[k - |a|];
  }

  /** `s.findIndex(p)` as an option: the first position whose element satisfies `p`. */
  function FindFirst<T>(s: seq<T>, p: T -> bool): (r: Option<nat>)
    ensures r.Some? ==> r.value < |s| && p(s[r.value])
    ensures r.Some? ==> forall k :: 0 <= k < r.value ==> !p(s[k])
    ensures r.None? ==> forall k :: 0 <= k < |s| ==> !p(s[k])
  {
    if |s| == 0 then None
    else if p(s[0]) then Some(0)
    else
      match FindFirst(s[1..], p)
      case Some(i) => Some(i + 1)
      case None => None
  }
}
