/** Folds over sequences: the model's `filter`, `reduce` and `.length`. */
module Seqs {

  /** `xs.filter(p)`: the elements of `xs` satisfying `p`, in their original order. */
  function Filter<T>(xs: seq<T>, p: T -> bool): (r: seq<T>)
    ensures |r| <= |xs|
    ensures forall i :: 0 <= i < |r| ==> r[i] in xs && p(r[i])
    ensures forall i :: 0 <= i < |xs| && p(xs[i]) ==> xs[i] in r
    decreases |xs|
  {
    if xs == [] then []
    else if p(xs[0]) then [xs[0]] + Filter(xs[1..], p)
    else Filter(xs[1..], p)
  }

  /** `ys` occurs in `xs` in order, possibly with gaps (an order-preserving sub-list). */
  predicate IsSubsequence<T(==)>(ys: seq<T>, xs: seq<T>)
    decreases |xs|
  {
    if xs == [] then ys == []
    else (ys != [] && ys[0] == xs[0] && IsSubsequence(ys[1..], xs[1..])) || IsSubsequence(ys, xs[1..])
  }

  lemma {:induction false} FilterIsSubsequence<T>(xs: seq<T>, p: T -> bool)
    ensures IsSubsequence(Filter(xs, p), xs)
    decreases |xs|
  {
    if xs != [] {
      FilterIsSubsequence(xs[1..], p);
      if p(xs[0]) {
        assert Filter(xs, p)[1..] == Filter(xs[1..], p);
      }
    }
  }

  /** Filtering keeps everything exactly when every element satisfies the predicate. */
  lemma {:induction false} FilterAll<T>(xs: seq<T>, p: T -> bool)
    ensures Filter(xs, p) == xs <==> forall i :: 0 <= i < |xs| ==> p(xs[i])
    decreases |xs|
  {
    if xs != [] {
      var tail := xs[1..];
      FilterAll(tail, p);
      if !p(xs[0]) {
        assert |Filter(xs, p)| <= |tail| < |xs|;
      } else {
        assert xs == [xs[0]] + tail;
        assert (forall i :: 0 <= i < |xs| ==> p(xs[i])) <==> (forall i :: 0 <= i < |tail| ==> p(tail[i])) by {
          assert forall i :: 0 <= i < |tail| ==> tail[i] == xs[i + 1];
        }
      }
    }
  }

  lemma {:induction false} FilterAppend<T>(xs: seq<T>, ys: seq<T>, p: T -> bool)
    ensures Filter(xs + ys, p) == Filter(xs, p) + Filter(ys, p)
    decreases |xs|
  {
    if xs != [] {
      assert (xs + ys)[1..] == xs[1..] + ys;
      FilterAppend(xs[1..], ys, p);
    } else {
      assert xs + ys == ys;
    }
  }

  /** `xs.reduce((sum, x) => sum + f(x), 0)`. */
  function SumBy<T>(xs: seq<T>, f: T -> nat): nat
    decreases |xs|
  {
    if xs == [] then 0 else f(xs[0]) + SumBy(xs[1..], f)
  }

  lemma {:induction false} SumByAppend<T>(xs: seq<T>, ys: seq<T>, f: T -> nat)
    ensures SumBy(xs + ys, f) == SumBy(xs, f) + SumBy(ys, f)
    decreases |xs|
  {
    if xs == [] {
      assert xs + ys == ys;
    } else {
      assert (xs + ys)[1..] == xs[1..] + ys;
      SumByAppend(xs[1..], ys, f);
    }
  }

  /** A sum of terms each bounded by `k` is bounded by `k` times their number. */
  lemma {:induction false} SumByBounded<T>(xs: seq<T>, f: T -> nat, k: nat)
    requires forall i :: 0 <= i < |xs| ==> f(xs[i]) <= k
    ensures SumBy(xs, f) <= k * |xs|
    decreases |xs|
  {
    if xs != [] {
      assert forall i :: 0 <= i < |xs| - 1 ==> xs[1..][i] == xs[i + 1];
      SumByBounded(xs[1..], f, k);
    }
  }

  /** The 0/1 indicator of a predicate. */
  function Indicator<T>(p: T -> bool): T -> nat {
    x => if p(x) then 1 else 0
  }

  /** `xs.filter(p).length` equals the number of elements that satisfy `p`, as a sum of 0/1 terms. */
  lemma {:induction false} FilterLengthIsCount<T>(xs: seq<T>, p: T -> bool)
    ensures |Filter(xs, p)| == SumBy(xs, Indicator(p))
    decreases |xs|
  {
    if xs != [] {
      FilterLengthIsCount(xs[1..], p);
    }
  }

  /** Filtering two arrangements of the same elements keeps the same number of them. */
  lemma FilterLengthPermutation<T>(xs: seq<T>, ys: seq<T>, p: T -> bool)
    requires multiset(xs) == multiset(ys)
    ensures |Filter(xs, p)| == |Filter(ys, p)|
  {
    FilterLengthIsCount(xs, p);
    FilterLengthIsCount(ys, p);
    SumByPermutation(xs, ys, Indicator(p));
  }

  /** Taking one term out of a sum. */
  lemma SumByRemove<T>(ys: seq<T>, i: nat, f: T -> nat)
    requires i < |ys|
    ensures SumBy(ys, f) == f(ys[i]) + SumBy(ys[..i] + ys[i + 1..], f)
  {
    var front, back := ys[..i], ys[i + 1..];
    var middle := [ys[i]] + back;
    assert ys == front + middle;
    SumByAppend(front, middle, f);
    assert middle[1..] == back;
    SumByAppend(front, back, f);
  }

  /** Taking the first element of `xs` out of both sides of a permutation leaves a permutation. */
  lemma RemoveOne<T>(xs: seq<T>, ys: seq<T>, i: nat)
    requires xs != [] && i < |ys| && ys[i] == xs[0] && multiset(xs) == multiset(ys)
    ensures multiset(xs[1..]) == multiset(ys[..i] + ys[i + 1..])
  {
    var x := xs[0];
    assert xs == [x] + xs[1..];
    assert ys == ys[..i] + [x] + ys[i + 1..];
    assert multiset(xs[1..]) == multiset(xs) - multiset{x};
    assert multiset(ys[..i] + ys[i + 1..]) == multiset(ys) - multiset{x};
  }

  /** Sums do not depend on the order of the terms. */
  lemma {:induction false} SumByPermutation<T>(xs: seq<T>, ys: seq<T>, f: T -> nat)
    requires multiset(xs) == multiset(ys)
    ensures SumBy(xs, f) == SumBy(ys, f)
    decreases |xs|
  {
    if xs == [] {
      assert |ys| == |multiset(ys)| == 0;
    } else {
      var x := xs[0];
      assert x in multiset(ys);
      var i :| 0 <= i < |ys| && ys[i] == x;
      var rest := ys[..i] + ys[i + 1..];
      RemoveOne(xs, ys, i);
      SumByPermutation(xs[1..], rest, f);
      SumByRemove(ys, i, f);
    }
  }
}
