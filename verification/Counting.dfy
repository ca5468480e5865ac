/** Sums over sequences, and what replacing one element does to them. */
module Counting {
  function Sum(s: seq<int>): int {
    if s == [] then 0 else Sum(s[..|s| - 1]) + s[|s| - 1]
  }

  lemma SumAppend(s: seq<int>, v: int)
    ensures Sum(s + [v]) == Sum(s) + v
  {
    assert (s + [v])[..|s|] == s;
  }

  lemma {:induction false} SumUpdate(s: seq<int>, i: nat, v: int)
    requires i < |s|
    ensures Sum(s[i := v]) == Sum(s) - s[i] + v
    decreases |s|
  {
    var n := |s| - 1;
    if i == n {
      assert s[i := v][..n] == s[..n];
    } else {
      assert s[i := v][..n] == s[..n][i := v];
      SumUpdate(s[..n], i, v);
    }
  }

  lemma {:induction false} SumAtLeast(s: seq<int>, i: nat)
    requires i < |s| && (forall j | 0 <= j < |s| :: s[j] >= 0)
    ensures Sum(s) >= s[i]
    decreases |s|
  {
    var n := |s| - 1;
    if i < n {
      SumAtLeast(s[..n], i);
    } else {
      SumNonNegative(s[..n]);
    }
  }

  lemma {:induction false} SumNonNegative(s: seq<int>)
    requires forall j | 0 <= j < |s| :: s[j] >= 0
    ensures Sum(s) >= 0
    decreases |s|
  {
    if s != [] {
      SumNonNegative(s[..|s| - 1]);
    }
  }

  lemma {:induction false} SumZero(s: seq<int>)
    requires forall j | 0 <= j < |s| :: s[j] == 0
    ensures Sum(s) == 0
    decreases |s|
  {
    if s != [] {
      SumZero(s[..|s| - 1]);
    }
  }
}
