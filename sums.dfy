/** Sums over sequences, in the shape of JavaScript's `xs.reduce((acc, x) => acc + f(x), 0)`:
    a left fold that starts at 0 and adds one element's contribution at a time. */
module Sums {

  /** The left fold `((0 + f(xs[0])) + f(xs[1])) + ...`, unfolded from the last element. */
  function Sum<T>(xs: seq<T>, f: T -> int): int
  {
    if |xs| == 0 then 0 else Sum(xs[..|xs| - 1], f) + f(xs[|xs| - 1])
  }

  /** The elements of `xs` that satisfy `p`, in their original order. */
  function Filter<T(!new)>(xs: seq<T>, p: T -> bool): (r: seq<T>)
    ensures |r| <= |xs|
    ensures forall x :: x in r <==> x in xs && p(x)
  {
    if |xs| == 0 then []
    else
      var init := Filter(xs[..|xs| - 1], p);
      assert forall x :: x in xs <==> x in xs[..|xs| - 1] || x == xs[|xs| - 1];
      if p(xs[|xs| - 1]) then init + [xs[|xs| - 1]] else init
  }

  /** One step of the fold: extending a prefix by the next element adds that element's contribution. */
  lemma SumStep<T>(xs: seq<T>, j: nat, f: T -> int)
    requires j < |xs|
    ensures Sum(xs[..j + 1], f) == Sum(xs[..j], f) + f(xs[j])
  {
    assert xs[..j + 1][..j] == xs[..j];
  }

  /** The sum over a single element is that element's contribution. */
  lemma SumSingle<T>(x: T, f: T -> int)
    ensures Sum([x], f) == f(x)
  {
  }

  /** Summing a concatenation is summing each part. */
  lemma {:induction false} SumAppend<T>(xs: seq<T>, ys: seq<T>, f: T -> int)
    ensures Sum(xs + ys, f) == Sum(xs, f) + Sum(ys, f)
    decreases |ys|
  {
    if |ys| == 0 {
      assert xs + ys == xs;
    } else {
      var init := ys[..|ys| - 1];
      assert (xs + ys)[..|xs + ys| - 1] == xs + init;
      SumAppend(xs, init, f);
    }
  }

  /** Two sums agree when their sequences have the same length and agree position by position. */
  lemma {:induction false} SumCongruent<T, U>(xs: seq<T>, f: T -> int, ys: seq<U>, g: U -> int)
    requires |xs| == |ys|
    requires forall i :: 0 <= i < |xs| ==> f(xs[i]) == g(ys[i])
    ensures Sum(xs, f) == Sum(ys, g)
  {
    if |xs| > 0 {
      var n := |xs| - 1;
      SumCongruent(xs[..n], f, ys[..n], g);
    }
  }

  /** A sum of contributions that are all 0 is 0. */
  lemma {:induction false} SumZero<T>(xs: seq<T>, f: T -> int)
    requires forall x :: x in xs ==> f(x) == 0
    ensures Sum(xs, f) == 0
  {
    if |xs| > 0 {
      var init := xs[..|xs| - 1];
      assert forall x :: x in init ==> x in xs;
      SumZero(init, f);
    }
  }

  /** Summing `f + g` element-wise is summing `f` and `g` separately. */
  lemma {:induction false} SumPointwise<T>(xs: seq<T>, f: T -> int, g: T -> int, h: T -> int)
    requires forall x :: x in xs ==> h(x) == f(x) + g(x)
    ensures Sum(xs, h) == Sum(xs, f) + Sum(xs, g)
  {
    if |xs| > 0 {
      var init := xs[..|xs| - 1];
      assert forall x :: x in init ==> x in xs;
      SumPointwise(init, f, g, h);
    }
  }

  /** Adding `f(x)` only where `p(x)` holds, and 0 elsewhere, is summing `f` over the filtered sequence. */
  lemma {:induction false} SumFilter<T(!new)>(xs: seq<T>, p: T -> bool, f: T -> int, g: T -> int)
    requires forall x :: x in xs ==> g(x) == (if p(x) then f(x) else 0)
    ensures Sum(xs, g) == Sum(Filter(xs, p), f)
  {
    if |xs| > 0 {
      var init := xs[..|xs| - 1];
      var last := xs[|xs| - 1];
      assert forall x :: x in init ==> x in xs;
      SumFilter(init, p, f, g);
      if p(last) {
        var kept := Filter(init, p) + [last];
        assert kept[..|kept| - 1] == Filter(init, p);
      }
    }
  }
}
