/**
 * The array operations the views are written with: `filter`, a `reduce` sum,
 * `Math.max`/`Math.min` over a mapped list, `Math.round`, and the
 * "last element or 0" read.
 */
module Seqs {
  import opened DriverTypes

  /** `Array.prototype.filter`: the elements of `s` that satisfy `p`, in their order. */
  function Filter<T(!new)>(p: T -> bool, s: seq<T>): (r: seq<T>)
    ensures |r| <= |s|
    ensures forall x :: x in r <==> x in s && p(x)
  {
    if s == [] then [] else (if p(s[0]) then [s[0]] else []) + Filter(p, s[1..])
  }

  lemma {:induction false} FilterAppend<T(!new)>(p: T -> bool, a: seq<T>, b: seq<T>)
    ensures Filter(p, a + b) == Filter(p, a) + Filter(p, b)
  {
    if a == [] {
      assert a + b == b;
    } else {
      assert (a + b)[1..] == a[1..] + b;
      FilterAppend(p, a[1..], b);
    }
  }

  /** Filtering a list with a known first element decides that element, then filters the rest. */
  lemma FilterCons<T(!new)>(p: T -> bool, x: T, s: seq<T>)
    ensures Filter(p, [x] + s) == (if p(x) then [x] else []) + Filter(p, s)
  {
    assert ([x] + s)[1..] == s;
  }

  /** A one-element list is kept or dropped whole. */
  lemma FilterSingleton<T(!new)>(p: T -> bool, x: T)
    ensures Filter(p, [x]) == if p(x) then [x] else []
  {
    assert [x][1..] == [];
  }

  /** A predicate every element satisfies keeps the whole list. */
  lemma {:induction false} FilterKeepsAll<T(!new)>(p: T -> bool, s: seq<T>)
    requires forall x :: x in s ==> p(x)
    ensures Filter(p, s) == s
  {
    if s != [] {
      FilterKeepsAll(p, s[1..]);
    }
  }

  /** Two predicates that agree on every element select the same elements. */
  lemma {:induction false} FilterExtensional<T(!new)>(p: T -> bool, q: T -> bool, s: seq<T>)
    requires forall x :: x in s ==> p(x) == q(x)
    ensures Filter(p, s) == Filter(q, s)
  {
    if s != [] {
      FilterExtensional(p, q, s[1..]);
    }
  }

  /** Filtering the first `k` elements gives a prefix of filtering them all. */
  lemma FilterOfPrefix<T(!new)>(p: T -> bool, s: seq<T>, k: nat)
    requires k <= |s|
    ensures Filter(p, s[..k]) <= Filter(p, s)
  {
    assert s == s[..k] + s[k..];
    FilterAppend(p, s[..k], s[k..]);
  }

  /** `a` is `b` with some elements deleted, the rest kept in order. */
  predicate IsSubsequence<T(==)>(a: seq<T>, b: seq<T>)
    decreases |b|
  {
    if b == [] then a == []
    else IsSubsequence(a, b[1..]) || (a != [] && a[0] == b[0] && IsSubsequence(a[1..], b[1..]))
  }

  lemma {:induction false} SubsequenceLength<T>(a: seq<T>, b: seq<T>)
    requires IsSubsequence(a, b)
    ensures |a| <= |b|
    decreases |b|
  {
    if b != [] {
      if IsSubsequence(a, b[1..]) {
        SubsequenceLength(a, b[1..]);
      } else {
        SubsequenceLength(a[1..], b[1..]);
      }
    }
  }

  /** `filter` keeps the surviving elements in their original order. */
  lemma {:induction false} FilterIsSubsequence<T(!new)>(p: T -> bool, s: seq<T>)
    ensures IsSubsequence(Filter(p, s), s)
  {
    if s != [] {
      FilterIsSubsequence(p, s[1..]);
      var f := Filter(p, s);
      if p(s[0]) {
        assert f == [s[0]] + Filter(p, s[1..]);
        assert f != [] && f[0] == s[0] && f[1..] == Filter(p, s[1..]);
      } else {
        assert f == Filter(p, s[1..]);
      }
    }
  }

  /** A stricter predicate selects a subsequence of what a looser one selects. */
  lemma {:induction false} FilterNarrowing<T(!new)>(p: T -> bool, q: T -> bool, s: seq<T>)
    requires forall x :: x in s && q(x) ==> p(x)
    ensures IsSubsequence(Filter(q, s), Filter(p, s))
  {
    if s != [] {
      FilterNarrowing(p, q, s[1..]);
      var fq, fp := Filter(q, s[1..]), Filter(p, s[1..]);
      var a, b := Filter(q, s), Filter(p, s);
      if q(s[0]) {
        assert a == [s[0]] + fq && b == [s[0]] + fp;
        assert a != [] && b != [] && a[0] == b[0] && a[1..] == fq && b[1..] == fp;
      } else if p(s[0]) {
        assert a == fq && b == [s[0]] + fp;
        assert b != [] && b[1..] == fp;
      } else {
        assert a == fq && b == fp;
      }
    }
  }

  /** `reduce((acc, x) => acc + x, 0)`: the total, accumulated left to right. */
  function Sum(s: seq<real>): real
  {
    if s == [] then 0.0 else Sum(s[..|s| - 1]) + s[|s| - 1]
  }

  lemma {:induction false} SumAppend(a: seq<real>, b: seq<real>)
    ensures Sum(a + b) == Sum(a) + Sum(b)
    decreases |b|
  {
    if b == [] {
      assert a + b == a;
    } else {
      var c := b[..|b| - 1];
      assert (a + b)[..|a + b| - 1] == a + c;
      SumAppend(a, c);
    }
  }

  /** A total of `n` values that each lie in `[lo, hi]` lies in `[n * lo, n * hi]`. */
  lemma {:induction false} SumBounds(s: seq<real>, lo: real, hi: real)
    requires forall i :: 0 <= i < |s| ==> lo <= s[i] <= hi
    ensures (|s| as real) * lo <= Sum(s) <= (|s| as real) * hi
  {
    if s != [] {
      var init := s[..|s| - 1];
      SumBounds(init, lo, hi);
      assert (|s| as real) * lo == (|init| as real) * lo + lo;
      assert (|s| as real) * hi == (|init| as real) * hi + hi;
    }
  }

  /** `Math.max(...s)` for a non-empty list: an element no other exceeds. */
  function MaxOf(s: seq<real>): (m: real)
    requires |s| > 0
    ensures m in s
    ensures forall i :: 0 <= i < |s| ==> s[i] <= m
  {
    if |s| == 1 then s[0]
    else
      var rest := MaxOf(s[1..]);
      if s[0] >= rest then s[0] else rest
  }

  /** `Math.min(...s)` for a non-empty list: an element no other undercuts. */
  function MinOf(s: seq<real>): (m: real)
    requires |s| > 0
    ensures m in s
    ensures forall i :: 0 <= i < |s| ==> m <= s[i]
  {
    if |s| == 1 then s[0]
    else
      var rest := MinOf(s[1..]);
      if s[0] <= rest then s[0] else rest
  }

  /** `Math.round`: the nearest integer, a half rounded up (towards +infinity). */
  function Round(x: real): (n: int)
    ensures n as real - 0.5 <= x < n as real + 0.5
  {
    (x + 0.5).Floor
  }

  lemma RoundMonotone(x: real, y: real)
    requires x <= y
    ensures Round(x) <= Round(y)
  {
  }

  lemma RoundWhole(n: int)
    ensures Round(n as real) == n
  {
  }

  /**
   * `Math.round(s.reduce(+, 0) / s.length)`. An empty list divides zero by
   * zero, and the NaN that produces is `None` here.
   */
  function RoundedMean(s: seq<real>): (r: Option<int>)
    ensures r.Some? <==> |s| > 0
  {
    if |s| == 0 then None else Some(Round(Sum(s) / (|s| as real)))
  }

  lemma DivideBounds(x: real, n: real, lo: real, hi: real)
    requires n > 0.0 && n * lo <= x <= n * hi
    ensures lo <= x / n <= hi
  {
  }

  /** A mean of values that each lie in `[lo, hi]` lies in `[lo, hi]`. */
  lemma MeanWithinBounds(s: seq<real>, lo: real, hi: real)
    requires |s| > 0
    requires forall i :: 0 <= i < |s| ==> lo <= s[i] <= hi
    ensures lo <= Sum(s) / (|s| as real) <= hi
  {
    SumBounds(s, lo, hi);
    DivideBounds(Sum(s), |s| as real, lo, hi);
  }

  /** The rounded mean never leaves the rounded extremes of the list. */
  lemma RoundedMeanWithinExtremes(s: seq<real>)
    requires |s| > 0
    ensures Round(MinOf(s)) <= RoundedMean(s).value <= Round(MaxOf(s))
  {
    MeanWithinBounds(s, MinOf(s), MaxOf(s));
    RoundMonotone(MinOf(s), Sum(s) / (|s| as real));
    RoundMonotone(Sum(s) / (|s| as real), MaxOf(s));
  }

  /** For whole-number values the rounded mean lies between the smallest and the largest. */
  lemma RoundedMeanOfWholeNumbers(s: seq<real>)
    requires |s| > 0
    requires forall i :: 0 <= i < |s| ==> s[i] == s[i].Floor as real
    ensures MinOf(s) <= RoundedMean(s).value as real <= MaxOf(s)
  {
    RoundedMeanWithinExtremes(s);
    var lo, hi := MinOf(s), MaxOf(s);
    RoundWhole(lo.Floor);
    RoundWhole(hi.Floor);
  }

  /**
   * `s[s.length - 1]?.field || 0`: the field of the last element, 0 for an
   * empty list (`undefined || 0`). For a present number `x || 0` is `x`,
   * since the only falsy numbers are 0, for which it gives 0 anyway, and NaN,
   * which this model does not have.
   */
  function LastOrZero<T>(s: seq<T>, field: T -> real): real
  {
    if |s| == 0 then 0.0 else field(s[|s| - 1])
  }

  /** The newest entry is the one read, whatever came before it. */
  lemma LastOrZeroReadsNewest<T>(s: seq<T>, x: T, field: T -> real)
    ensures LastOrZero(s + [x], field) == field(x)
    ensures LastOrZero([], field) == 0.0
  {
  }
}
