/** Vocabulary shared by the models: optional values and sums over the threads of a protocol. */
module Common {
  datatype Option<+T> = None | Some(value: T)

  /** Sum of a per-element weight; the models use it to count the threads that play a given role. */
  ghost function Sum<T>(weight: T -> int, xs: seq<T>): int {
    if |xs| == 0 then 0 else Sum(weight, xs[..|xs| - 1]) + weight(xs[|xs| - 1])
  }

  /** One thread moving changes a sum by that thread's own weight. */
  lemma {:induction false} SumUpdate<T>(weight: T -> int, xs: seq<T>, i: nat, x: T)
    requires i < |xs|
    ensures Sum(weight, xs[i := x]) == Sum(weight, xs) - weight(xs[i]) + weight(x)
  {
    var ys := xs[i := x];
    if i == |xs| - 1 {
      assert ys[..|ys| - 1] == xs[..|xs| - 1];
    } else {
      assert ys[..|ys| - 1] == xs[..|xs| - 1][i := x];
      SumUpdate(weight, xs[..|xs| - 1], i, x);
    }
  }

  /** A sum of non-negative weights is at least any one of them. */
  lemma {:induction false} SumBoundsMember<T>(weight: T -> int, xs: seq<T>, i: nat)
    requires i < |xs|
    requires forall j :: 0 <= j < |xs| ==> 0 <= weight(xs[j])
    ensures 0 <= weight(xs[i]) <= Sum(weight, xs)
  {
    SumNonNegative(weight, xs[..|xs| - 1]);
    if i < |xs| - 1 {
      SumBoundsMember(weight, xs[..|xs| - 1], i);
    }
  }

  lemma {:induction false} SumNonNegative<T>(weight: T -> int, xs: seq<T>)
    requires forall j :: 0 <= j < |xs| ==> 0 <= weight(xs[j])
    ensures 0 <= Sum(weight, xs)
  {
    if |xs| > 0 {
      SumNonNegative(weight, xs[..|xs| - 1]);
    }
  }

  /** Two different members together are still within a sum of non-negative weights. */
  lemma {:induction false} SumBoundsPair<T>(weight: T -> int, xs: seq<T>, i: nat, j: nat)
    requires i < j < |xs|
    requires forall k :: 0 <= k < |xs| ==> 0 <= weight(xs[k])
    ensures weight(xs[i]) + weight(xs[j]) <= Sum(weight, xs)
  {
    if j == |xs| - 1 {
      assert xs[..j][i] == xs[i];
      SumBoundsMember(weight, xs[..j], i);
    } else {
      SumBoundsPair(weight, xs[..|xs| - 1], i, j);
    }
  }

  /** Weights that are nowhere larger have no larger sum. */
  lemma {:induction false} SumMonotone<T>(small: T -> int, large: T -> int, xs: seq<T>)
    requires forall j :: 0 <= j < |xs| ==> small(xs[j]) <= large(xs[j])
    ensures Sum(small, xs) <= Sum(large, xs)
  {
    if |xs| > 0 {
      SumMonotone(small, large, xs[..|xs| - 1]);
    }
  }

  /** A sum in which every member weighs nothing is nothing. */
  lemma {:induction false} SumZero<T>(weight: T -> int, xs: seq<T>)
    requires forall j :: 0 <= j < |xs| ==> weight(xs[j]) == 0
    ensures Sum(weight, xs) == 0
  {
    if |xs| > 0 {
      SumZero(weight, xs[..|xs| - 1]);
    }
  }

  /** A positive sum has a positive member. */
  lemma {:induction false} SumPositiveWitness<T>(weight: T -> int, xs: seq<T>) returns (i: nat)
    requires 0 < Sum(weight, xs)
    ensures i < |xs| && 0 < weight(xs[i])
  {
    var last := |xs| - 1;
    if 0 < weight(xs[last]) {
      i := last;
    } else {
      i := SumPositiveWitness(weight, xs[..last]);
    }
  }
}
