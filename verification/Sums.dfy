/** Weighted sums over sequences. */
module Sums {
  ghost function Sum<T>(xs: seq<T>, weight: T -> nat): nat {
    if xs == [] then 0 else Sum(xs[..|xs| - 1], weight) + weight(xs[|xs| - 1])
  }

  lemma {:induction false} SumSet<T>(xs: seq<T>, i: nat, x: T, weight: T -> nat)
    requires i < |xs|
    ensures Sum(xs[i := x], weight) + weight(xs[i]) == Sum(xs, weight) + weight(x)
  {
    var n := |xs| - 1;
    if i == n {
      assert xs[i := x][..n] == xs[..n];
    } else {
      assert xs[i := x][..n] == xs[..n][i := x];
      assert xs[i := x][n] == xs[n] && xs[..n][i] == xs[i];
      SumSet(xs[..n], i, x, weight);
    }
  }

  lemma SumSnoc<T>(xs: seq<T>, x: T, weight: T -> nat)
    ensures Sum(xs + [x], weight) == Sum(xs, weight) + weight(x)
  {
    assert (xs + [x])[..|xs|] == xs;
  }

  lemma {:induction false} SumIsZeroIff<T>(xs: seq<T>, weight: T -> nat)
    ensures Sum(xs, weight) == 0 <==> forall i :: 0 <= i < |xs| ==> weight(xs[i]) == 0
  {
    if xs != [] {
      var n := |xs| - 1;
      SumIsZeroIff(xs[..n], weight);
      if Sum(xs, weight) == 0 {
        forall i | 0 <= i < |xs| ensures weight(xs[i]) == 0 {
          assert i < n ==> xs[..n][i] == xs[i];
        }
      }
    }
  }
}
