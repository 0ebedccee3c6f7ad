/**
 * The array reductions the views use (`reduce` sums, `Math.max(...)`, means,
 * `reverse`, `filter`), as functions on sequences with their properties.
 */
module Seqs {

  /** `xs.reduce((acc, x) => acc + x, 0)`: a left fold. */
  function Sum(xs: seq<real>): real
  {
    if xs == [] then 0.0 else Sum(xs[..|xs| - 1]) + xs[|xs| - 1]
  }

  /** `Math.max(...xs)` for a non-empty array: an upper bound that is attained. */
  function Max(xs: seq<real>): (m: real)
    requires |xs| > 0
    ensures forall i :: 0 <= i < |xs| ==> xs[i] <= m
    ensures exists i :: 0 <= i < |xs| && xs[i] == m
  {
    if |xs| == 1 then xs[0]
    else
      var m := Max(xs[..|xs| - 1]);
      assert forall i :: 0 <= i < |xs| - 1 ==> xs[..|xs| - 1][i] == xs[i];
      if xs[|xs| - 1] > m then xs[|xs| - 1] else m
  }

  /** The arithmetic mean, and exactly 0 for an empty sequence. */
  function Mean(xs: seq<real>): real
  {
    if |xs| == 0 then 0.0 else Sum(xs) / (|xs| as real)
  }

  /** Every element is at most `hi`, so the sum is at most n*hi. */
  lemma {:induction false} SumAtMost(xs: seq<real>, hi: real)
    requires forall i :: 0 <= i < |xs| ==> xs[i] <= hi
    ensures Sum(xs) <= (|xs| as real) * hi
  {
    if xs != [] {
      var init := xs[..|xs| - 1];
      assert forall i :: 0 <= i < |init| ==> init[i] == xs[i];
      SumAtMost(init, hi);
    }
  }

  /** Every element is at least `lo`, so the sum is at least n*lo. */
  lemma {:induction false} SumAtLeast(xs: seq<real>, lo: real)
    requires forall i :: 0 <= i < |xs| ==> lo <= xs[i]
    ensures (|xs| as real) * lo <= Sum(xs)
  {
    if xs != [] {
      var init := xs[..|xs| - 1];
      assert forall i :: 0 <= i < |init| ==> init[i] == xs[i];
      SumAtLeast(init, lo);
    }
  }

  /** A mean of values in [lo, hi] lies in [lo, hi]. */
  lemma MeanBounds(xs: seq<real>, lo: real, hi: real)
    requires |xs| > 0
    requires forall i :: 0 <= i < |xs| ==> lo <= xs[i] <= hi
    ensures lo <= Mean(xs) <= hi
  {
    SumAtMost(xs, hi);
    SumAtLeast(xs, lo);
    QuotientAtMost(Sum(xs), |xs| as real, hi);
    QuotientAtLeast(Sum(xs), |xs| as real, lo);
  }

  /** The mean never exceeds the maximum. */
  lemma MeanAtMostMax(xs: seq<real>)
    requires |xs| > 0
    ensures Mean(xs) <= Max(xs)
  {
    var m, total, n := Max(xs), Sum(xs), |xs| as real;
    SumAtMost(xs, m);
    QuotientAtMost(total, n, m);
    assert Mean(xs) == total / n;
  }

  lemma QuotientAtMost(a: real, n: real, b: real)
    requires n > 0.0 && a <= n * b
    ensures a / n <= b
  {
    var q := a / n;
    assert q * n == a;
    if q > b {
      assert q * n > b * n;
    }
  }

  lemma QuotientAtLeast(a: real, n: real, b: real)
    requires n > 0.0 && n * b <= a
    ensures b <= a / n
  {
    var q := a / n;
    assert q * n == a;
    if q < b {
      assert q * n < b * n;
    }
  }

  /** `xs.reverse()` as a value. */
  function Reverse<T>(xs: seq<T>): (r: seq<T>)
    ensures |r| == |xs|
    ensures forall i :: 0 <= i < |xs| ==> r[i] == xs[|xs| - 1 - i]
  {
    if xs == [] then [] else [xs[|xs| - 1]] + Reverse(xs[..|xs| - 1])
  }

  /** `xs.filter(p)`: the elements satisfying `p`, in their original order. */
  function Keep<T>(xs: seq<T>, p: T -> bool): (r: seq<T>)
    ensures |r| <= |xs|
    ensures forall i :: 0 <= i < |r| ==> p(r[i])
  {
    if xs == [] then [] else Keep(xs[..|xs| - 1], p) + (if p(xs[|xs| - 1]) then [xs[|xs| - 1]] else [])
  }

  /** Keep drops exactly the elements failing `p`: each element that passes keeps its multiplicity. */
  lemma {:induction false} KeepCounts<T>(xs: seq<T>, p: T -> bool, x: T)
    ensures multiset(Keep(xs, p))[x] == if p(x) then multiset(xs)[x] else 0
  {
    if xs != [] {
      var init, last := xs[..|xs| - 1], xs[|xs| - 1];
      assert xs == init + [last];
      KeepCounts(init, p, x);
    }
  }

  /** A predicate that holds everywhere removes nothing. */
  lemma {:induction false} KeepAll<T>(xs: seq<T>, p: T -> bool)
    requires forall i :: 0 <= i < |xs| ==> p(xs[i])
    ensures Keep(xs, p) == xs
  {
    if xs != [] {
      var init := xs[..|xs| - 1];
      assert forall i :: 0 <= i < |init| ==> init[i] == xs[i];
      KeepAll(init, p);
    }
  }

  lemma KeepSnoc<T>(xs: seq<T>, x: T, p: T -> bool)
    ensures Keep(xs + [x], p) == Keep(xs, p) + (if p(x) then [x] else [])
  {
    assert (xs + [x])[..|xs|] == xs;
  }

  /** Filtering by `p` and then by `q` keeps what filtering once by `p && q` keeps. */
  lemma {:induction false} KeepTwice<T>(xs: seq<T>, p: T -> bool, q: T -> bool, pq: T -> bool)
    requires forall i :: 0 <= i < |xs| ==> pq(xs[i]) == (p(xs[i]) && q(xs[i]))
    ensures Keep(Keep(xs, p), q) == Keep(xs, pq)
  {
    if xs != [] {
      var init, last := xs[..|xs| - 1], xs[|xs| - 1];
      assert forall i :: 0 <= i < |init| ==> init[i] == xs[i];
      KeepTwice(init, p, q, pq);
      assert Keep(xs, p) == Keep(init, p) + (if p(last) then [last] else []);
      if p(last) {
        KeepSnoc(Keep(init, p), last, q);
      } else {
        assert Keep(xs, p) == Keep(init, p);
      }
    }
  }
}
