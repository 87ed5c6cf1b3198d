/** Sums and collections over sequences, and how they change when one element does. */
module Sums {

  function Sum<T>(f: T -> int, q: seq<T>): int {
    if q == [] then 0 else f(q[0]) + Sum(f, q[1..])
  }

  lemma {:induction false} SumAppend<T>(f: T -> int, q: seq<T>, x: T)
    ensures Sum(f, q + [x]) == Sum(f, q) + f(x)
  {
    if q == [] {
      assert q + [x] == [x];
    } else {
      SumAppend(f, q[1..], x);
      assert (q + [x])[1..] == q[1..] + [x];
    }
  }

  lemma {:induction false} SumUpdate<T>(f: T -> int, q: seq<T>, i: nat, x: T)
    requires i < |q|
    ensures Sum(f, q[i := x]) == Sum(f, q) - f(q[i]) + f(x)
  {
    if i == 0 {
      assert q[i := x][1..] == q[1..];
    } else {
      SumUpdate(f, q[1..], i - 1, x);
      assert q[i := x][1..] == q[1..][i - 1 := x];
    }
  }

  /** Replacing each element by one that `f` rates at most `d` higher raises the sum by at most `|q| * d`. */
  lemma {:induction false} SumBounded<T>(f: T -> int, q: seq<T>, r: seq<T>, d: int)
    requires |q| == |r| && forall k :: 0 <= k < |q| ==> f(r[k]) <= f(q[k]) + d
    ensures Sum(f, r) <= Sum(f, q) + |q| * d
  {
    if q != [] {
      SumBounded(f, q[1..], r[1..], d);
    }
  }

  lemma {:induction false} SumSame<T>(f: T -> int, q: seq<T>, r: seq<T>)
    requires |q| == |r| && forall k :: 0 <= k < |q| ==> f(r[k]) == f(q[k])
    ensures Sum(f, r) == Sum(f, q)
  {
    if q != [] {
      SumSame(f, q[1..], r[1..]);
    }
  }

  lemma {:induction false} NonNegativeSum<T>(f: T -> int, q: seq<T>)
    requires forall k :: 0 <= k < |q| ==> f(q[k]) >= 0
    ensures Sum(f, q) >= 0
  {
    if q != [] {
      NonNegativeSum(f, q[1..]);
    }
  }

  /** The union of the multisets `f` assigns to the elements of `q`. */
  function Gather<T, U>(f: T -> multiset<U>, q: seq<T>): multiset<U> {
    if q == [] then multiset{} else f(q[0]) + Gather(f, q[1..])
  }

  lemma {:induction false} GatherUpdate<T, U>(f: T -> multiset<U>, q: seq<T>, i: nat, x: T)
    requires i < |q|
    ensures Gather(f, q[i := x]) + f(q[i]) == Gather(f, q) + f(x)
  {
    if i == 0 {
      assert q[i := x][1..] == q[1..];
    } else {
      GatherUpdate(f, q[1..], i - 1, x);
      assert q[i := x][1..] == q[1..][i - 1 := x];
      var before, after := Gather(f, q[1..]), Gather(f, q[1..][i - 1 := x]);
      assert f(q[0]) + after + f(q[i]) == f(q[0]) + (after + f(q[i])) == f(q[0]) + (before + f(x));
    }
  }

  lemma {:induction false} GatherSame<T, U>(f: T -> multiset<U>, q: seq<T>, r: seq<T>)
    requires |q| == |r| && forall k :: 0 <= k < |q| ==> f(r[k]) == f(q[k])
    ensures Gather(f, r) == Gather(f, q)
  {
    if q != [] {
      GatherSame(f, q[1..], r[1..]);
    }
  }

  /** 1, ..., n */
  function UpTo(n: nat): (r: seq<nat>)
    ensures |r| == n && forall k :: 0 <= k < n ==> r[k] == k + 1
  {
    seq(n, k => k + 1)
  }

  lemma UpToNext(n: nat)
    ensures UpTo(n + 1) == UpTo(n) + [n + 1]
  {
  }

  ghost predicate Increasing(q: seq<nat>) {
    forall k, l :: 0 <= k < l < |q| ==> q[k] < q[l]
  }
}
