/** Weighted sums over sequences. The counters of the framework (pending events, active threads) and the
    number of places that hold a fiber's wake-up are all stated as such sums. */
module Sums {

  datatype Option<+T> = None | Some(value: T)

  function Sum<T(!new)>(xs: seq<T>, w: T -> nat): nat {
    if xs == [] then 0 else Sum(xs[..|xs| - 1], w) + w(xs[|xs| - 1])
  }

  function Removed<T>(xs: seq<T>, i: nat): seq<T>
    requires i < |xs|
  {
    xs[..i] + xs[i + 1..]
  }

  lemma SumEmpty<T(!new)>(w: T -> nat)
    ensures Sum([], w) == 0
  {
  }

  lemma SumAppend<T(!new)>(xs: seq<T>, x: T, w: T -> nat)
    ensures Sum(xs + [x], w) == Sum(xs, w) + w(x)
  {
    assert (xs + [x])[..|xs|] == xs;
  }

  lemma {:induction false} SumConcat<T(!new)>(xs: seq<T>, ys: seq<T>, w: T -> nat)
    ensures Sum(xs + ys, w) == Sum(xs, w) + Sum(ys, w)
  {
    if ys == [] {
      assert xs + ys == xs;
    } else {
      var n := |ys| - 1;
      assert xs + ys == (xs + ys[..n]) + [ys[n]];
      SumAppend(xs + ys[..n], ys[n], w);
      SumConcat(xs, ys[..n], w);
    }
  }

  lemma SumSplit<T(!new)>(xs: seq<T>, i: nat, w: T -> nat)
    requires i < |xs|
    ensures Sum(xs, w) == Sum(xs[..i], w) + w(xs[i]) + Sum(xs[i + 1..], w)
  {
    assert xs == xs[..i] + [xs[i]] + xs[i + 1..];
    SumConcat(xs[..i] + [xs[i]], xs[i + 1..], w);
    SumAppend(xs[..i], xs[i], w);
  }

  lemma SumRemove<T(!new)>(xs: seq<T>, i: nat, w: T -> nat)
    requires i < |xs|
    ensures Sum(Removed(xs, i), w) + w(xs[i]) == Sum(xs, w)
  {
    SumSplit(xs, i, w);
    SumConcat(xs[..i], xs[i + 1..], w);
  }

  lemma SumUpdate<T(!new)>(xs: seq<T>, i: nat, x: T, w: T -> nat)
    requires i < |xs|
    ensures Sum(xs[i := x], w) + w(xs[i]) == Sum(xs, w) + w(x)
  {
    SumSplit(xs, i, w);
    SumSplit(xs[i := x], i, w);
    assert xs[i := x][..i] == xs[..i];
    assert xs[i := x][i + 1..] == xs[i + 1..];
  }

  lemma SumInsert<T(!new)>(xs: seq<T>, i: nat, x: T, w: T -> nat)
    requires i <= |xs|
    ensures Sum(xs[..i] + [x] + xs[i..], w) == Sum(xs, w) + w(x)
  {
    SumConcat(xs[..i] + [x], xs[i..], w);
    SumAppend(xs[..i], x, w);
    SumConcat(xs[..i], xs[i..], w);
    assert xs[..i] + xs[i..] == xs;
  }

  lemma {:induction false} SumZero<T(!new)>(xs: seq<T>, w: T -> nat)
    ensures Sum(xs, w) == 0 <==> forall x :: x in xs ==> w(x) == 0
  {
    if xs != [] {
      var n := |xs| - 1;
      SumZero(xs[..n], w);
      assert xs == xs[..n] + [xs[n]];
    }
  }

  /** A single element is worth no more than the whole. */
  lemma SumAtLeast<T(!new)>(xs: seq<T>, i: nat, w: T -> nat)
    requires i < |xs|
    ensures w(xs[i]) <= Sum(xs, w)
  {
    SumSplit(xs, i, w);
  }

  /** Two distinct positions are together worth no more than the whole. */
  lemma SumAtLeastTwo<T(!new)>(xs: seq<T>, i: nat, j: nat, w: T -> nat)
    requires i < j < |xs|
    ensures w(xs[i]) + w(xs[j]) <= Sum(xs, w)
  {
    SumSplit(xs, j, w);
    SumAtLeast(xs[..j], i, w);
  }

  /** A sum does not depend on the order of its terms. */
  lemma {:induction false} SumPermutation<T(!new)>(xs: seq<T>, ys: seq<T>, w: T -> nat)
    requires multiset(xs) == multiset(ys)
    ensures Sum(xs, w) == Sum(ys, w)
    decreases |xs|
  {
    if xs == [] {
      assert |ys| == |multiset(ys)| == 0;
    } else {
      var n := |xs| - 1;
      assert xs[n] in multiset(xs);
      var j :| 0 <= j < |ys| && ys[j] == xs[n];
      assert xs == xs[..n] + [xs[n]];
      assert ys == ys[..j] + [ys[j]] + ys[j + 1..];
      assert multiset(xs[..n]) == multiset(xs) - multiset{xs[n]};
      assert multiset(Removed(ys, j)) == multiset(ys) - multiset{xs[n]};
      SumPermutation(xs[..n], Removed(ys, j), w);
      SumRemove(ys, j, w);
    }
  }
}
