/**
 Totals over a sequence of concurrent tasks.

 Every protocol in this project keeps its tasks in a sequence and moves one task at a
 time. These lemmas say how a total over the tasks changes under such a move.
 */
module Bags {

  datatype Option<+T> = None | Some(value: T)

  ghost function Sum<T(!new)>(ts: seq<T>, f: T -> nat): nat { SumTo(ts, f, |ts|) }

  /** The total over the first `n` elements. */
  ghost function SumTo<T(!new)>(ts: seq<T>, f: T -> nat, n: nat): nat
    requires n <= |ts|
  {
    if n == 0 then 0 else SumTo(ts, f, n - 1) + f(ts[n - 1])
  }

  lemma {:induction false} SumToAgrees<T(!new)>(ts: seq<T>, us: seq<T>, f: T -> nat, n: nat)
    requires n <= |ts| && n <= |us|
    requires forall k :: 0 <= k < n ==> ts[k] == us[k]
    ensures SumTo(ts, f, n) == SumTo(us, f, n)
  {
    if n > 0 {
      SumToAgrees(ts, us, f, n - 1);
    }
  }

  lemma {:induction false} SumToUpdate<T(!new)>(ts: seq<T>, i: nat, t: T, f: T -> nat, n: nat)
    requires i < n <= |ts|
    ensures SumTo(ts[i := t], f, n) + f(ts[i]) == SumTo(ts, f, n) + f(t)
  {
    if i < n - 1 {
      SumToUpdate(ts, i, t, f, n - 1);
    } else {
      SumToAgrees(ts, ts[i := t], f, n - 1);
    }
  }

  lemma SumUpdate<T(!new)>(ts: seq<T>, i: nat, t: T, f: T -> nat)
    requires i < |ts|
    ensures Sum(ts[i := t], f) + f(ts[i]) == Sum(ts, f) + f(t)
  {
    SumToUpdate(ts, i, t, f, |ts|);
  }

  lemma SumAppend<T(!new)>(ts: seq<T>, t: T, f: T -> nat)
    ensures Sum(ts + [t], f) == Sum(ts, f) + f(t)
  {
    SumToAgrees(ts, ts + [t], f, |ts|);
  }

  lemma {:induction false} SumToContains<T(!new)>(ts: seq<T>, i: nat, f: T -> nat, n: nat)
    requires i < n <= |ts|
    ensures f(ts[i]) <= SumTo(ts, f, n)
  {
    if i < n - 1 {
      SumToContains(ts, i, f, n - 1);
    }
  }

  lemma SumContains<T(!new)>(ts: seq<T>, i: nat, f: T -> nat)
    requires i < |ts|
    ensures f(ts[i]) <= Sum(ts, f)
  {
    SumToContains(ts, i, f, |ts|);
  }

  lemma {:induction false} SumToPair<T(!new)>(ts: seq<T>, i: nat, j: nat, f: T -> nat, n: nat)
    requires i < j < n <= |ts|
    ensures f(ts[i]) + f(ts[j]) <= SumTo(ts, f, n)
  {
    if j < n - 1 {
      SumToPair(ts, i, j, f, n - 1);
    } else {
      SumToContains(ts, i, f, n - 1);
    }
  }

  lemma SumPair<T(!new)>(ts: seq<T>, i: nat, j: nat, f: T -> nat)
    requires i < j < |ts|
    ensures f(ts[i]) + f(ts[j]) <= Sum(ts, f)
  {
    SumToPair(ts, i, j, f, |ts|);
  }

  lemma {:induction false} SumToWitness<T(!new)>(ts: seq<T>, f: T -> nat, n: nat) returns (i: nat)
    requires n <= |ts| && SumTo(ts, f, n) > 0
    ensures i < n && f(ts[i]) > 0
  {
    if f(ts[n - 1]) > 0 {
      i := n - 1;
    } else {
      i := SumToWitness(ts, f, n - 1);
    }
  }

  lemma SumWitness<T(!new)>(ts: seq<T>, f: T -> nat) returns (i: nat)
    requires Sum(ts, f) > 0
    ensures i < |ts| && f(ts[i]) > 0
  {
    i := SumToWitness(ts, f, |ts|);
  }

  /** `Vec::swap_remove`: the last element takes the place of the removed one. */
  function SwapRemove<T>(s: seq<T>, i: nat): (r: seq<T>)
    requires i < |s|
    ensures |r| == |s| - 1
    ensures forall k :: 0 <= k < i ==> r[k] == s[k]
    ensures forall x :: x in r ==> x in s
    ensures forall x :: x in s && x != s[i] ==> x in r
  {
    var r := s[i := s[|s| - 1]][..|s| - 1];
    assert forall k :: 0 <= k < |s| - 1 && k != i ==> r[k] == s[k];
    assert i < |s| - 1 ==> r[i] == s[|s| - 1];
    r
  }

  lemma SumSwapRemove<T(!new)>(s: seq<T>, i: nat, f: T -> nat)
    requires i < |s|
    ensures Sum(SwapRemove(s, i), f) + f(s[i]) == Sum(s, f)
  {
    var last := s[|s| - 1];
    SumUpdate(s, i, last, f);
    assert s[i := last] == SwapRemove(s, i) + [last];
    SumAppend(SwapRemove(s, i), last, f);
  }
}
