/** Sums over sequences of naturals. */
module Sums {

  function SumTo(v: seq<nat>, n: nat): nat
    requires n <= |v|
  {
    if n == 0 then 0 else SumTo(v, n - 1) + v[n - 1]
  }

  function Sum(v: seq<nat>): nat {
    SumTo(v, |v|)
  }

  lemma {:induction false} SamePrefix(v: seq<nat>, w: seq<nat>, n: nat)
    requires n <= |v| && n <= |w| && forall i :: 0 <= i < n ==> v[i] == w[i]
    ensures SumTo(v, n) == SumTo(w, n)
  {
    if n > 0 {
      SamePrefix(v, w, n - 1);
    }
  }

  lemma {:induction false} SumToUpdate(v: seq<nat>, i: nat, x: nat, n: nat)
    requires i < n <= |v|
    ensures SumTo(v[i := x], n) == SumTo(v, n) - v[i] + x
  {
    if i < n - 1 {
      SumToUpdate(v, i, x, n - 1);
    } else {
      SamePrefix(v[i := x], v, n - 1);
    }
  }

  lemma SumUpdate(v: seq<nat>, i: nat, x: nat)
    requires i < |v|
    ensures Sum(v[i := x]) == Sum(v) - v[i] + x
  {
    SumToUpdate(v, i, x, |v|);
  }

  lemma SumAppend(v: seq<nat>, x: nat)
    ensures Sum(v + [x]) == Sum(v) + x
  {
    SamePrefix(v + [x], v, |v|);
  }

  lemma {:induction false} SumToMonotone(v: seq<nat>, w: seq<nat>, n: nat)
    requires n <= |v| == |w| && forall i :: 0 <= i < |v| ==> v[i] <= w[i]
    ensures SumTo(v, n) <= SumTo(w, n)
  {
    if n > 0 {
      SumToMonotone(v, w, n - 1);
    }
  }

  lemma SumMonotone(v: seq<nat>, w: seq<nat>)
    requires |v| == |w| && forall i :: 0 <= i < |v| ==> v[i] <= w[i]
    ensures Sum(v) <= Sum(w)
  {
    SumToMonotone(v, w, |v|);
  }

  lemma {:induction false} NothingToSum(v: seq<nat>, n: nat)
    requires n <= |v| && forall i :: 0 <= i < |v| ==> v[i] == 0
    ensures SumTo(v, n) == 0
  {
    if n > 0 {
      NothingToSum(v, n - 1);
    }
  }
}
