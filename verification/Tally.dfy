/** Sums of a weight over a sequence, used for counting what the threads of a
    transition system hold. */
module Tally {

  /** The sum of `w` over the elements of `xs`. */
  function Sum<T>(xs: seq<T>, w: T -> nat): nat {
    if xs == [] then 0 else Sum(xs[..|xs| - 1], w) + w(xs[|xs| - 1])
  }

  /** Replacing one element changes the sum by the difference of the two weights. */
  lemma {:induction false} SumUpdate<T>(xs: seq<T>, w: T -> nat, i: nat, x: T)
    requires i < |xs|
    ensures Sum(xs[i := x], w) + w(xs[i]) == Sum(xs, w) + w(x)
  {
    var n := |xs| - 1;
    var ys := xs[i := x];
    if i == n {
      assert ys[..n] == xs[..n];
    } else {
      assert ys[..n] == xs[..n][i := x];
      SumUpdate(xs[..n], w, i, x);
    }
  }

  /** No single element weighs more than the whole. */
  lemma {:induction false} SumAtLeast<T>(xs: seq<T>, w: T -> nat, i: nat)
    requires i < |xs|
    ensures w(xs[i]) <= Sum(xs, w)
  {
    if i < |xs| - 1 {
      SumAtLeast(xs[..|xs| - 1], w, i);
    }
  }

  /** Two different elements together weigh no more than the whole. */
  lemma {:induction false} SumAtLeastTwo<T>(xs: seq<T>, w: T -> nat, i: nat, j: nat)
    requires i < j < |xs|
    ensures w(xs[i]) + w(xs[j]) <= Sum(xs, w)
  {
    var n := |xs| - 1;
    if j == n {
      SumAtLeast(xs[..n], w, i);
    } else {
      SumAtLeastTwo(xs[..n], w, i, j);
    }
  }

  /** A sum of weights bounded by `cap` is bounded by `cap` times the length. */
  lemma {:induction false} SumAtMost<T>(xs: seq<T>, w: T -> nat, cap: nat)
    requires forall i :: 0 <= i < |xs| ==> w(xs[i]) <= cap
    ensures Sum(xs, w) <= cap * |xs|
  {
    if xs != [] {
      SumAtMost(xs[..|xs| - 1], w, cap);
    }
  }

  /** A positive sum has a positive summand. */
  lemma {:induction false} SumPositive<T>(xs: seq<T>, w: T -> nat) returns (i: nat)
    requires Sum(xs, w) > 0
    ensures i < |xs| && w(xs[i]) > 0
  {
    i := |xs| - 1;
    if w(xs[i]) == 0 {
      i := SumPositive(xs[..|xs| - 1], w);
    }
  }

  /** A sum of zero weights is zero. */
  lemma {:induction false} SumZero<T>(xs: seq<T>, w: T -> nat)
    requires forall i :: 0 <= i < |xs| ==> w(xs[i]) == 0
    ensures Sum(xs, w) == 0
  {
    SumAtMost(xs, w, 0);
  }

  /** If each element weighs at most one more under `w` than under `v`, and element
      `i` weighs nothing under `w`, the sums differ by less than the length. */
  lemma {:induction false} SumWithin<T>(xs: seq<T>, w: T -> nat, v: T -> nat, i: nat)
    requires i < |xs| && w(xs[i]) == 0
    requires forall j :: 0 <= j < |xs| ==> w(xs[j]) <= v(xs[j]) + 1
    ensures Sum(xs, w) < Sum(xs, v) + |xs|
  {
    var n := |xs| - 1;
    if i < n {
      SumWithin(xs[..n], w, v, i);
    } else {
      SumEachWithin(xs[..n], w, v);
    }
  }

  lemma {:induction false} SumEachWithin<T>(xs: seq<T>, w: T -> nat, v: T -> nat)
    requires forall j :: 0 <= j < |xs| ==> w(xs[j]) <= v(xs[j]) + 1
    ensures Sum(xs, w) <= Sum(xs, v) + |xs|
  {
    if xs != [] {
      SumEachWithin(xs[..|xs| - 1], w, v);
    }
  }

  lemma {:induction false} SumConcat<T>(xs: seq<T>, ys: seq<T>, w: T -> nat)
    ensures Sum(xs + ys, w) == Sum(xs, w) + Sum(ys, w)
  {
    if ys == [] {
      assert xs + ys == xs;
    } else {
      var n := |ys| - 1;
      assert (xs + ys)[..|xs| + n] == xs + ys[..n];
      SumConcat(xs, ys[..n], w);
    }
  }

  lemma {:induction false} SumConstant<T>(xs: seq<T>, w: T -> nat, c: nat)
    requires forall i :: 0 <= i < |xs| ==> w(xs[i]) == c
    ensures Sum(xs, w) == c * |xs|
  {
    if xs != [] {
      SumConstant(xs[..|xs| - 1], w, c);
    }
  }

  lemma {:induction false} SumMonotone<T>(xs: seq<T>, ys: seq<T>, w: T -> nat)
    requires |xs| == |ys|
    requires forall i :: 0 <= i < |xs| ==> w(xs[i]) <= w(ys[i])
    ensures Sum(xs, w) <= Sum(ys, w)
  {
    if xs != [] {
      SumMonotone(xs[..|xs| - 1], ys[..|xs| - 1], w);
    }
  }
}
