/** Sums over sequences of integers, and sizes of sets. */
module Sums {

  function Sum(xs: seq<int>): int
  {
    if xs == [] then 0 else xs[0] + Sum(xs[1..])
  }

  lemma {:induction false} SumUpdate(xs: seq<int>, i: nat, x: int)
    requires i < |xs|
    ensures Sum(xs[i := x]) == Sum(xs) - xs[i] + x
  {
    if i == 0 {
      assert xs[0 := x][1..] == xs[1..];
    } else {
      SumUpdate(xs[1..], i - 1, x);
      assert xs[i := x][1..] == xs[1..][i - 1 := x];
    }
  }

  lemma {:induction false} SumNonNegative(xs: seq<int>)
    requires forall i :: 0 <= i < |xs| ==> xs[i] >= 0
    ensures Sum(xs) >= 0
  {
    if xs != [] {
      SumNonNegative(xs[1..]);
    }
  }

  lemma {:induction false} SumBelow(xs: seq<int>, ys: seq<int>)
    requires |xs| == |ys| && forall i :: 0 <= i < |xs| ==> xs[i] <= ys[i]
    ensures Sum(xs) <= Sum(ys)
  {
    if xs != [] {
      SumBelow(xs[1..], ys[1..]);
    }
  }

  lemma {:induction false} SumAtMost(xs: seq<int>, k: int)
    requires forall i :: 0 <= i < |xs| ==> 0 <= xs[i] <= k
    ensures 0 <= Sum(xs) <= k * |xs|
  {
    if xs != [] {
      SumAtMost(xs[1..], k);
      assert k * |xs| == k * (|xs| - 1) + k;
    }
  }

  lemma {:induction false} SumDifference(xs: seq<int>, ys: seq<int>, zs: seq<int>)
    requires |xs| == |ys| == |zs| && forall i :: 0 <= i < |xs| ==> xs[i] - ys[i] == zs[i]
    ensures Sum(xs) - Sum(ys) == Sum(zs)
  {
    if xs != [] {
      SumDifference(xs[1..], ys[1..], zs[1..]);
    }
  }

  lemma {:induction false} SumZero(xs: seq<int>)
    requires forall i :: 0 <= i < |xs| ==> xs[i] == 0
    ensures Sum(xs) == 0
  {
    if xs != [] {
      SumZero(xs[1..]);
    }
  }

  lemma {:induction false} CardinalitySubset(a: set<nat>, b: set<nat>)
    requires a <= b
    ensures |a| <= |b|
    decreases a
  {
    if a != {} {
      var x :| x in a;
      CardinalitySubset(a - {x}, b - {x});
    }
  }

  lemma TwoMembers(a: set<nat>, v: nat, w: nat)
    requires v in a && w in a && v != w
    ensures |a| >= 2
  {
    assert |{v, w}| == 2;
    CardinalitySubset({v, w}, a);
  }
}
