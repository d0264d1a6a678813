/** Names and facts shared by the machines. */
module Basics {

  datatype Option<+A> = None | Some(value: A)

  type Tid = nat

  /** Identity of a one-shot flag: a spin waiter's atomic boolean, or a continuation. */
  type Sig = nat

  type Deadline = Option<nat>

  /** The locking strategies: `lock_spin`, `lock_block` and `lock_async`, each with its timed form. */
  datatype How = Spinning | Blocking | Tasking

  predicate Below(q: seq<nat>, n: nat) { forall i :: 0 <= i < |q| ==> q[i] < n }

  /** Position of the first `x` in `q`. */
  function IndexOf<A(==)>(q: seq<A>, x: A): (i: nat)
    requires x in q
    ensures i < |q| && q[i] == x
  {
    if q[0] == x then 0 else 1 + IndexOf(q[1..], x)
  }

  /** `q` without its first `x`. */
  function Without<A(==)>(q: seq<A>, x: A): seq<A>
    requires x in q
  {
    q[..IndexOf(q, x)] + q[IndexOf(q, x) + 1..]
  }

  function SetOf<A>(q: seq<A>): set<A> { set x | x in q }

  function Last<A>(q: seq<A>): A
    requires q != []
  {
    q[|q| - 1]
  }

  function Bit(b: bool): nat { if b then 1 else 0 }

  predicate NoDup<A(==)>(q: seq<A>) { forall i, j :: 0 <= i < j < |q| ==> q[i] != q[j] }

  lemma WithoutFacts<A>(q: seq<A>, x: A)
    requires x in q
    ensures |Without(q, x)| == |q| - 1
    ensures forall y :: y in Without(q, x) ==> y in q
    ensures forall y :: y in q && y != x ==> y in Without(q, x)
    ensures NoDup(q) ==> NoDup(Without(q, x)) && x !in Without(q, x)
  {
    var i := IndexOf(q, x);
    forall y | y in q && y != x
      ensures y in Without(q, x)
    {
      var j :| 0 <= j < |q| && q[j] == y;
      assert Without(q, x)[if j < i then j else j - 1] == y;
    }
  }

  lemma NoDupParts<A>(a: seq<A>, b: seq<A>)
    requires NoDup(a + b)
    ensures NoDup(a) && NoDup(b) && forall x :: x in a ==> x !in b
  {
    forall i, j | 0 <= i < j < |a|
      ensures a[i] != a[j]
    {
      assert (a + b)[i] != (a + b)[j];
    }
    forall i, j | 0 <= i < j < |b|
      ensures b[i] != b[j]
    {
      assert (a + b)[|a| + i] != (a + b)[|a| + j];
    }
    forall i, j | 0 <= i < |a| && 0 <= j < |b|
      ensures a[i] != b[j]
    {
      assert (a + b)[i] != (a + b)[|a| + j];
    }
  }

  lemma {:induction false} CardinalityNoDup<A>(q: seq<A>)
    requires NoDup(q)
    ensures |SetOf(q)| == |q|
  {
    if q != [] {
      CardinalityNoDup(q[1..]);
      assert SetOf(q) == {q[0]} + SetOf(q[1..]);
    }
  }

  lemma {:induction false} CountIn(q: seq<nat>, x: nat)
    ensures x in q <==> multiset(q)[x] > 0
  {
    if q != [] {
      assert q == q[..|q| - 1] + [Last(q)];
      CountIn(q[..|q| - 1], x);
    }
  }

  lemma OnceIsNoDup(q: seq<nat>)
    requires forall x :: x in q ==> multiset(q)[x] <= 1
    ensures NoDup(q)
  {
    forall i, j | 0 <= i < j < |q|
      ensures q[i] != q[j]
    {
      var x := q[i];
      assert q == q[..j] + q[j..];
      assert q[..j][i] == x && q[j..][0] == q[j];
      CountIn(q[..j], x);
      CountIn(q[j..], q[j]);
      assert x in q && multiset(q)[x] == multiset(q[..j])[x] + multiset(q[j..])[x];
    }
  }

  lemma {:induction false} CardinalityBelow(xs: set<nat>, n: nat)
    requires forall x :: x in xs ==> x < n
    ensures |xs| <= n
  {
    if n > 0 {
      CardinalityBelow(xs - {n - 1}, n - 1);
    } else {
      assert xs == {};
    }
  }
}
