/** Removal from and weighted sums over sequences. */
module Sums {

  function RemoveAt<T>(q: seq<T>, i: nat): seq<T>
    requires i < |q|
  {
    q[..i] + q[i + 1..]
  }

  function Sum<T>(q: seq<T>, w: T -> nat): nat {
    if q == [] then 0 else w(q[0]) + Sum(q[1..], w)
  }

  lemma {:induction false} SumConcat<T>(a: seq<T>, b: seq<T>, w: T -> nat)
    ensures Sum(a + b, w) == Sum(a, w) + Sum(b, w)
  {
    if a == [] {
      assert a + b == b;
    } else {
      SumConcat(a[1..], b, w);
      assert (a + b)[1..] == a[1..] + b;
    }
  }

  lemma SumSplit<T>(q: seq<T>, i: nat, w: T -> nat)
    requires i < |q|
    ensures Sum(q, w) == Sum(q[..i], w) + w(q[i]) + Sum(q[i + 1..], w)
  {
    assert q == q[..i] + q[i..];
    SumConcat(q[..i], q[i..], w);
  }

  lemma SumUpdate<T>(q: seq<T>, i: nat, x: T, w: T -> nat)
    requires i < |q|
    ensures Sum(q[i := x], w) == Sum(q, w) - w(q[i]) + w(x)
  {
    SumSplit(q, i, w);
    SumSplit(q[i := x], i, w);
    assert q[i := x][..i] == q[..i] && q[i := x][i + 1..] == q[i + 1..];
  }

  lemma SumRemove<T>(q: seq<T>, i: nat, w: T -> nat)
    requires i < |q|
    ensures Sum(RemoveAt(q, i), w) == Sum(q, w) - w(q[i])
  {
    SumSplit(q, i, w);
    SumConcat(q[..i], q[i + 1..], w);
  }

  lemma SumOne<T>(x: T, w: T -> nat)
    ensures Sum([x], w) == w(x)
  {
  }

  lemma {:induction false} SumBound<T>(q: seq<T>, w: T -> nat, bound: nat)
    requires forall i :: 0 <= i < |q| ==> w(q[i]) <= bound
    ensures Sum(q, w) <= |q| * bound
  {
    if q != [] {
      SumBound(q[1..], w, bound);
      assert |q| * bound == bound + (|q| - 1) * bound;
    }
  }
}
