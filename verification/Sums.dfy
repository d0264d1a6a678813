/** Sums over one number a thread. */
module Sums {

  function Sum(q: seq<nat>): nat {
    if q == [] then 0 else Sum(q[..|q| - 1]) + q[|q| - 1]
  }

  /** Changing one thread's number changes the sum by as much. */
  lemma {:induction false} SumUpdate(q: seq<nat>, i: nat, v: nat)
    requires i < |q|
    ensures Sum(q[i := v]) + q[i] == Sum(q) + v
  {
    var n := |q| - 1;
    if i == n {
      assert q[i := v][..n] == q[..n];
    } else {
      SumUpdate(q[..n], i, v);
      assert q[i := v][..n] == q[..n][i := v];
    }
  }

  lemma {:induction false} SumAtLeast(q: seq<nat>, i: nat)
    requires i < |q|
    ensures q[i] <= Sum(q)
  {
    if i < |q| - 1 {
      SumAtLeast(q[..|q| - 1], i);
    }
  }

  lemma {:induction false} SumZero(q: seq<nat>)
    ensures Sum(q) == 0 <==> forall i :: 0 <= i < |q| ==> q[i] == 0
  {
    if q != [] {
      SumZero(q[..|q| - 1]);
    }
  }

  lemma {:induction false} SumConstant(q: seq<nat>, c: nat)
    requires forall i :: 0 <= i < |q| ==> q[i] == c
    ensures Sum(q) == c * |q|
  {
    if q != [] {
      SumConstant(q[..|q| - 1], c);
      assert c * |q| == c * (|q| - 1) + c;
    }
  }

  /** The occurrences of `x` among the lists `lists`, one list a thread. */
  function Occurrences(lists: seq<seq<nat>>, x: nat): nat {
    Sum(seq(|lists|, i requires 0 <= i < |lists| => multiset(lists[i])[x]))
  }

  lemma OccurrencesUpdate(lists: seq<seq<nat>>, i: nat, q: seq<nat>, x: nat)
    requires i < |lists|
    ensures Occurrences(lists[i := q], x) + multiset(lists[i])[x] == Occurrences(lists, x) + multiset(q)[x]
  {
    var counts := seq(|lists|, k requires 0 <= k < |lists| => multiset(lists[k])[x]);
    var lists' := lists[i := q];
    var counts' := seq(|lists'|, k requires 0 <= k < |lists'| => multiset(lists'[k])[x]);
    assert counts' == counts[i := multiset(q)[x]];
    SumUpdate(counts, i, multiset(q)[x]);
  }
}
