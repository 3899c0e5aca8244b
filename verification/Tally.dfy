/** Weighted sums over the threads or processes of a system, and the few facts
    about them that every protocol proof needs. */
module Tally {

  function Counted(b: bool): int { if b then 1 else 0 }

  function Sum<T>(xs: seq<T>, w: T -> int): int {
    if xs == [] then 0 else w(xs[0]) + Sum(xs[1..], w)
  }

  /** Changing one element changes the sum by the difference of the two weights. */
  lemma {:induction false} SumUpdate<T>(xs: seq<T>, w: T -> int, i: nat, x: T)
    requires i < |xs|
    ensures Sum(xs[i := x], w) == Sum(xs, w) - w(xs[i]) + w(x)
  {
    if i == 0 {
      assert xs[0 := x][1..] == xs[1..];
    } else {
      assert xs[i := x][1..] == xs[1..][i - 1 := x];
      SumUpdate(xs[1..], w, i - 1, x);
    }
  }

  lemma {:induction false} SumAppend<T>(xs: seq<T>, w: T -> int, x: T)
    ensures Sum(xs + [x], w) == Sum(xs, w) + w(x)
  {
    if xs == [] {
      assert [] + [x] == [x];
    } else {
      assert (xs + [x])[1..] == xs[1..] + [x];
      SumAppend(xs[1..], w, x);
    }
  }

  lemma {:induction false} SumConcat<T>(xs: seq<T>, ys: seq<T>, w: T -> int)
    ensures Sum(xs + ys, w) == Sum(xs, w) + Sum(ys, w)
  {
    if xs == [] {
      assert [] + ys == ys;
    } else {
      assert (xs + ys)[1..] == xs[1..] + ys;
      SumConcat(xs[1..], ys, w);
    }
  }

  /** Weights between 0 and 1: the sum counts, so it lies between 0 and the length,
      and any one element accounts for its own weight only. */
  lemma {:induction false} SumCounts<T>(xs: seq<T>, w: T -> int, i: nat)
    requires forall j :: 0 <= j < |xs| ==> 0 <= w(xs[j]) <= 1
    requires i < |xs| || i == 0
    ensures 0 <= Sum(xs, w) <= |xs|
    ensures i < |xs| ==> w(xs[i]) <= Sum(xs, w) <= |xs| - 1 + w(xs[i])
  {
    if xs != [] {
      SumCounts(xs[1..], w, if i == 0 then 0 else i - 1);
    }
  }

  /** Two distinct elements of weight 1 make the sum at least 2. */
  lemma {:induction false} SumTwo<T>(xs: seq<T>, w: T -> int, i: nat, j: nat)
    requires forall k :: 0 <= k < |xs| ==> 0 <= w(xs[k]) <= 1
    requires i < j < |xs| && w(xs[i]) == 1 && w(xs[j]) == 1
    ensures Sum(xs, w) >= 2
  {
    if i == 0 {
      SumCounts(xs[1..], w, j - 1);
    } else {
      SumTwo(xs[1..], w, i - 1, j - 1);
    }
  }

  /** A sum is determined by the weights of the elements. */
  lemma {:induction false} SumSame<T>(xs: seq<T>, v: T -> int, w: T -> int)
    requires forall j :: 0 <= j < |xs| ==> v(xs[j]) == w(xs[j])
    ensures Sum(xs, v) == Sum(xs, w)
  {
    if xs != [] { SumSame(xs[1..], v, w); }
  }

  /** Two sequences with the same weights, element by element. */
  lemma {:induction false} SumMatch<T, U>(xs: seq<T>, ys: seq<U>, v: T -> int, w: U -> int)
    requires |xs| == |ys| && forall j :: 0 <= j < |xs| ==> v(xs[j]) == w(ys[j])
    ensures Sum(xs, v) == Sum(ys, w)
  {
    if xs != [] { SumMatch(xs[1..], ys[1..], v, w); }
  }

  lemma {:induction false} SumZero<T>(xs: seq<T>, w: T -> int)
    requires forall j :: 0 <= j < |xs| ==> w(xs[j]) == 0
    ensures Sum(xs, w) == 0
  {
    if xs != [] { SumZero(xs[1..], w); }
  }

  /** A positive sum has an element of positive weight. */
  lemma {:induction false} SumWitness<T>(xs: seq<T>, w: T -> int)
    requires Sum(xs, w) > 0
    ensures exists i :: 0 <= i < |xs| && w(xs[i]) > 0
  {
    if w(xs[0]) <= 0 {
      SumWitness(xs[1..], w);
      var i :| 0 <= i < |xs[1..]| && w(xs[1..][i]) > 0;
      assert w(xs[i + 1]) > 0;
    }
  }

  /** Weights between 0 and 1 with a sum of 2 or more: two different elements weigh 1. */
  lemma {:induction false} SumPair<T>(xs: seq<T>, w: T -> int)
    requires forall j :: 0 <= j < |xs| ==> 0 <= w(xs[j]) <= 1
    requires Sum(xs, w) >= 2
    ensures exists i, j :: 0 <= i < j < |xs| && w(xs[i]) == 1 && w(xs[j]) == 1
  {
    if w(xs[0]) == 1 {
      SumWitness(xs[1..], w);
      var j :| 0 <= j < |xs[1..]| && w(xs[1..][j]) > 0;
      assert w(xs[0]) == 1 && w(xs[j + 1]) == 1;
    } else {
      SumPair(xs[1..], w);
      var i, j :| 0 <= i < j < |xs[1..]| && w(xs[1..][i]) == 1 && w(xs[1..][j]) == 1;
      assert w(xs[i + 1]) == 1 && w(xs[j + 1]) == 1;
    }
  }

  /** Non-negative weights: the sum is non-negative and bounds each weight. */
  lemma {:induction false} SumBound<T>(xs: seq<T>, w: T -> int)
    requires forall j :: 0 <= j < |xs| ==> 0 <= w(xs[j])
    ensures 0 <= Sum(xs, w)
    ensures forall j :: 0 <= j < |xs| ==> w(xs[j]) <= Sum(xs, w)
  {
    if xs != [] {
      SumBound(xs[1..], w);
      forall j | 0 <= j < |xs| ensures w(xs[j]) <= Sum(xs, w) {
        if j > 0 { assert xs[j] == xs[1..][j - 1]; }
      }
    }
  }

  /** Sums of weights that add up, element by element, add up. */
  lemma {:induction false} SumPlus<T>(xs: seq<T>, u: T -> int, v: T -> int, w: T -> int)
    requires forall j :: 0 <= j < |xs| ==> w(xs[j]) == u(xs[j]) + v(xs[j])
    ensures Sum(xs, w) == Sum(xs, u) + Sum(xs, v)
  {
    if xs != [] { SumPlus(xs[1..], u, v, w); }
  }

  /** A sum with a single non-zero weight. */
  lemma {:induction false} SumAlone<T>(xs: seq<T>, w: T -> int, i: nat)
    requires i < |xs| && forall j :: 0 <= j < |xs| && j != i ==> w(xs[j]) == 0
    ensures Sum(xs, w) == w(xs[i])
  {
    if i == 0 {
      SumZero(xs[1..], w);
    } else {
      SumAlone(xs[1..], w, i - 1);
    }
  }

  /** Smaller weights have the smaller sum, by at least the gap at any one element. */
  lemma {:induction false} SumMono<T>(xs: seq<T>, v: T -> int, w: T -> int, i: nat)
    requires forall j :: 0 <= j < |xs| ==> v(xs[j]) <= w(xs[j])
    requires i < |xs| || i == 0
    ensures Sum(xs, v) <= Sum(xs, w)
    ensures i < |xs| ==> Sum(xs, v) - v(xs[i]) <= Sum(xs, w) - w(xs[i])
  {
    if xs != [] {
      SumMono(xs[1..], v, w, if i == 0 then 0 else i - 1);
    }
  }

  /** The bags f(0), ..., f(m - 1) poured together. */
  function Pool<T>(f: nat -> multiset<T>, m: nat): multiset<T> {
    if m == 0 then multiset{} else Pool(f, m - 1) + f(m - 1)
  }

  lemma {:induction false} PoolSame<T>(f: nat -> multiset<T>, g: nat -> multiset<T>, m: nat)
    requires forall i: nat :: i < m ==> f(i) == g(i)
    ensures Pool(f, m) == Pool(g, m)
  {
    if m > 0 { PoolSame(f, g, m - 1); }
  }

  lemma {:induction false} PoolEmpty<T>(f: nat -> multiset<T>, m: nat)
    requires forall i: nat :: i < m ==> f(i) == multiset{}
    ensures Pool(f, m) == multiset{}
  {
    if m > 0 { PoolEmpty(f, m - 1); }
  }

  /** Adding to one bag adds to the pool. */
  lemma {:induction false} PoolAdd<T>(f: nat -> multiset<T>, g: nat -> multiset<T>, who: nat, x: multiset<T>, m: nat)
    requires forall i: nat :: i < m ==> g(i) == if i == who then f(i) + x else f(i)
    ensures Pool(g, m) == if who < m then Pool(f, m) + x else Pool(f, m)
  {
    if m > 0 { PoolAdd(f, g, who, x, m - 1); }
  }
}
