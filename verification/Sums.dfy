/** Sums of sequences of naturals, used wherever counters of several ranks are added up. */
module Sums {
  function Sum(xs: seq<nat>): nat {
    if xs == [] then 0 else xs[0] + Sum(xs[1..])
  }

  lemma {:induction false} SumUpdate(xs: seq<nat>, i: nat, y: nat)
    requires i < |xs|
    ensures Sum(xs[i := y]) == Sum(xs) - xs[i] + y
  {
    if i == 0 {
      assert xs[0 := y][1..] == xs[1..];
    } else {
      assert xs[i := y][1..] == xs[1..][i - 1 := y];
      SumUpdate(xs[1..], i - 1, y);
    }
  }

  lemma {:induction false} SumAtLeast(xs: seq<nat>, i: nat)
    requires i < |xs|
    ensures xs[i] <= Sum(xs)
  {
    if i > 0 {
      SumAtLeast(xs[1..], i - 1);
    }
  }

  lemma {:induction false} SumAtMost(xs: seq<nat>, most: nat)
    requires forall i | 0 <= i < |xs| :: xs[i] <= most
    ensures Sum(xs) <= most * |xs|
  {
    if xs != [] {
      SumAtMost(xs[1..], most);
      assert most * |xs| == most * (|xs| - 1) + most;
    }
  }

  lemma {:induction false} OneFewer(xs: seq<nat>, ys: seq<nat>, r: nat)
    requires r < |xs| == |ys| && ys[r] < xs[r] && forall i | 0 <= i < |xs| && i != r :: ys[i] == xs[i]
    ensures Sum(ys) < Sum(xs)
  {
    assert ys == xs[r := ys[r]];
    SumUpdate(xs, r, ys[r]);
  }
}
