/** `Spinlock::with_mut`, the critical section that every waiter list uses, action by action: swap until
    the lock was free, load the data, run the closure, write the result, store false. The theorem is that
    a call is atomic, which is what lets the other machines take a closure on a list as one step. */
module Spinlock {
  import opened Basics

  datatype SpinPc<!T, !R> =
    | Outside
    | Swap(f: T -> (T, R))
    | Load(f: T -> (T, R))
    | Write(f: T -> (T, R), seen: T)
    | Clear(result: R)

  /** `order`: the calls in the order in which they got the lock; `results`: what returned calls
      returned. Both are history. */
  datatype Cell<!T, !R> = Cell(
    data: T, locked: bool, pc: seq<SpinPc<T, R>>, order: seq<(Tid, T -> (T, R))>, results: seq<(Tid, R)>)

  datatype SpinStep<!T, !R> = Call(t: Tid, f: T -> (T, R)) | Go(t: Tid)

  function Init<T, R>(n: nat, data: T): Cell<T, R> {
    Cell(data, false, seq(n, i => Outside), [], [])
  }

  /** A swap that finds the lock held is no step: it changes nothing. */
  predicate Enabled<T, R>(s: Cell<T, R>, e: SpinStep<T, R>) {
    && e.t < |s.pc|
    && match e
       case Call(t, _) => s.pc[t].Outside?
       case Go(t) => !s.pc[t].Outside? && (s.pc[t].Swap? ==> !s.locked)
  }

  function Apply<T, R>(s: Cell<T, R>, e: SpinStep<T, R>): Cell<T, R>
    requires Enabled(s, e)
  {
    match e
    case Call(t, f) => s.(pc := s.pc[t := Swap(f)])
    case Go(t) =>
      match s.pc[t]
      case Swap(f) => s.(locked := true, pc := s.pc[t := Load(f)], order := s.order + [(t, f)])
      case Load(f) => s.(pc := s.pc[t := Write(f, s.data)])
      case Write(f, seen) => s.(data := f(seen).0, pc := s.pc[t := Clear(f(seen).1)])
      case Clear(r) => s.(locked := false, pc := s.pc[t := Outside], results := s.results + [(t, r)])
  }

  // ------------------------------------------------------------ the atomic reading

  /** The data after `calls`, one whole closure after the other. */
  function After<T, R>(data: T, calls: seq<(Tid, T -> (T, R))>): T {
    if calls == [] then data else Last(calls).1(After(data, calls[..|calls| - 1])).0
  }

  /** What those closures return. */
  function Results<T, R>(data: T, calls: seq<(Tid, T -> (T, R))>): seq<(Tid, R)> {
    if calls == [] then []
    else
      var rest := calls[..|calls| - 1];
      Results(data, rest) + [(Last(calls).0, Last(calls).1(After(data, rest)).1)]
  }

  /** Calls that have returned: all, or all but the last, which has the lock. */
  function Ended<T, R>(s: Cell<T, R>): seq<(Tid, T -> (T, R))> {
    if s.locked && s.order != [] then s.order[..|s.order| - 1] else s.order
  }

  predicate Inside<T, R>(p: SpinPc<T, R>) { p.Load? || p.Write? || p.Clear? }

  /** The thread that has the lock is the last in `order`, and it is where its closure is. */
  ghost predicate HolderFits<T, R>(s: Cell<T, R>, data: T) {
    && s.order != [] && Last(s.order).0 < |s.pc|
    && (match s.pc[Last(s.order).0]
        case Load(f) => f == Last(s.order).1 && s.data == After(data, Ended(s))
        case Write(f, seen) => f == Last(s.order).1 && seen == s.data == After(data, Ended(s))
        case Clear(r) => s.data == After(data, s.order) && r == Last(s.order).1(After(data, Ended(s))).1
        case _ => false)
  }

  ghost predicate Inv<T, R>(s: Cell<T, R>, data: T) {
    && (forall t :: 0 <= t < |s.pc| && Inside(s.pc[t]) ==> s.locked && s.order != [] && t == Last(s.order).0)
    && (if s.locked then HolderFits(s, data) else s.data == After(data, s.order))
    && s.results == Results(data, Ended(s))
  }

  lemma InvStep<T, R>(s: Cell<T, R>, e: SpinStep<T, R>, data: T)
    requires Inv(s, data) && Enabled(s, e)
    ensures Inv(Apply(s, e), data)
  {
    var s' := Apply(s, e);
    if e.Go? && s.pc[e.t].Swap? {
      assert s'.order[..|s'.order| - 1] == s.order;
    }
  }

  predicate Possible<T, R>(s: Cell<T, R>, es: seq<SpinStep<T, R>>)
    decreases |es|
  {
    es == [] || (Enabled(s, es[0]) && Possible(Apply(s, es[0]), es[1..]))
  }

  function Exec<T, R>(s: Cell<T, R>, es: seq<SpinStep<T, R>>): Cell<T, R>
    requires Possible(s, es)
    decreases |es|
  {
    if es == [] then s else Exec(Apply(s, es[0]), es[1..])
  }

  lemma {:induction false} InvRun<T, R>(s: Cell<T, R>, es: seq<SpinStep<T, R>>, data: T)
    requires Inv(s, data) && Possible(s, es)
    ensures Inv(Exec(s, es), data)
    decreases |es|
  {
    hide Apply, Enabled;
    if es != [] {
      InvStep(s, es[0], data);
      InvRun(Apply(s, es[0]), es[1..], data);
    }
  }

  /** However the actions of the callers interleave: when the lock is free, the data are what the calls
      made of them one whole closure after the other, in the order of their acquisitions, and each call
      returned what its closure returns at its place in that order. While it is held, the same is true of
      all calls but the holder's. */
  lemma Atomic<T, R>(n: nat, data: T, es: seq<SpinStep<T, R>>)
    requires Possible(Init(n, data), es)
    ensures var s := Exec(Init(n, data), es);
            && s.results == Results(data, Ended(s))
            && (!s.locked ==> s.data == After(data, s.order))
            && |s.order| == |s.results| + Bit(s.locked)
            && forall t, u :: 0 <= t < |s.pc| && 0 <= u < |s.pc| && Inside(s.pc[t]) && Inside(s.pc[u]) ==> t == u
  {
    InvRun(Init(n, data), es, data);
    ResultsLength(data, Ended(Exec(Init(n, data), es)));
  }

  lemma {:induction false} ResultsLength<T, R>(data: T, calls: seq<(Tid, T -> (T, R))>)
    ensures |Results(data, calls)| == |calls|
  {
    if calls != [] {
      ResultsLength(data, calls[..|calls| - 1]);
    }
  }

  /** A call that has returned keeps its place and its result, whatever is called later. */
  lemma {:induction false} ResultAt<T, R>(data: T, calls: seq<(Tid, T -> (T, R))>, k: nat)
    requires k < |calls| && |Results(data, calls)| == |calls|
    ensures Results(data, calls)[k] == (calls[k].0, calls[k].1(After(data, calls[..k])).1)
  {
    var rest := calls[..|calls| - 1];
    ResultsLength(data, rest);
    if k < |rest| {
      ResultAt(data, rest, k);
      assert rest[..k] == calls[..k];
    } else {
      assert calls[..k] == rest;
    }
  }

  // ------------------------------------------------------------ with_mut

  /** The closures of thread `t`, in order. */
  function CallsOf<T, R>(order: seq<(Tid, T -> (T, R))>, t: Tid): seq<T -> (T, R)> {
    if order == [] then []
    else
      CallsOf(order[..|order| - 1], t) + (if Last(order).0 == t then [Last(order).1] else [])
  }

  lemma CallsSnoc<T, R>(order: seq<(Tid, T -> (T, R))>, x: (Tid, T -> (T, R)), t: Tid)
    ensures CallsOf(order + [x], t) == CallsOf(order, t) + (if x.0 == t then [x.1] else [])
  {
    assert (order + [x])[..|order|] == order;
  }

  /** What a step of another thread leaves alone, seen from thread `t`: all but its own counter, unless
      `t` has the lock; then the data and the history too. */
  ghost predicate Undisturbed<T, R>(s: Cell<T, R>, s': Cell<T, R>, t: Tid) {
    && t < |s.pc| == |s'.pc| && s'.pc[t] == s.pc[t]
    && s.order <= s'.order && s.results <= s'.results && CallsOf(s'.order, t) == CallsOf(s.order, t)
    && (Inside(s.pc[t]) ==> s'.(pc := []) == s.(pc := []))
  }

  lemma OtherStep<T, R>(s: Cell<T, R>, e: SpinStep<T, R>, t: Tid, data: T)
    requires Inv(s, data) && Enabled(s, e) && t < |s.pc| && e.t != t
    ensures Undisturbed(s, Apply(s, e), t)
  {
    if e.Go? && s.pc[e.t].Swap? {
      CallsSnoc(s.order, (e.t, s.pc[e.t].f), t);
    }
  }

  /** The lock, with what its callers are doing and a schedule of the actions of the other threads. */
  class Lock<T, R> {
    var data: T
    var locked: bool
    var pc: seq<SpinPc<T, R>>
    var order: seq<(Tid, T -> (T, R))>
    var results: seq<(Tid, R)>
    var schedule: seq<seq<SpinStep<T, R>>>
    ghost const first: T

    constructor (n: nat, value: T, beats: seq<seq<SpinStep<T, R>>>)
      ensures Valid() && !locked && data == value && |pc| == n && schedule == beats
    {
      data, locked, pc, order, results := value, false, seq(n, i => Outside), [], [];
      schedule, first := beats, value;
    }

    function View(): Cell<T, R>
      reads this
    {
      Cell(data, locked, pc, order, results)
    }

    ghost predicate Valid()
      reads this
    {
      Inv(View(), first)
    }

    /** The actions of other threads between two of thread `t`. */
    method Others(t: Tid)
      requires Valid() && t < |pc|
      modifies this
      ensures Valid() && Undisturbed(old(View()), View(), t)
      ensures old(schedule) != [] ==> |schedule| < old(|schedule|)
    {
      hide Inv, Apply, Enabled;
      if schedule == [] { return; }
      var beat := schedule[0];
      schedule := schedule[1..];
      var i := 0;
      while i < |beat|
        invariant i <= |beat| && schedule == old(schedule)[1..]
        invariant Valid() && Undisturbed(old(View()), View(), t)
      {
        if Enabled(View(), beat[i]) && beat[i].t != t {
          InvStep(View(), beat[i], first);
          OtherStep(View(), beat[i], t, first);
          var s := Apply(View(), beat[i]);
          data, locked, pc, order, results := s.data, s.locked, s.pc, s.order, s.results;
        }
        i := i + 1;
      }
    }

    /** `with_mut`. A call that returns took effect as a whole, once, at a place of its own in the order, after
        all calls that had returned before it began. One that does not is still spinning, on a lock that
        another thread holds. */
    method WithMut(t: Tid, f: T -> (T, R)) returns (result: Option<R>, ghost at: nat)
      requires Valid() && t < |pc| && pc[t].Outside?
      modifies this
      ensures Valid() && old(order) <= order && t < |pc|
      ensures result.Some? ==> pc[t].Outside? && old(|results|) <= at < |order| && order[at] == (t, f)
                               && result.value == f(After(first, order[..at])).1
      ensures result.None? ==> schedule == [] && locked && pc[t] == Swap(f)
      ensures CallsOf(order, t) == CallsOf(old(order), t) + (if result.Some? then [f] else [])
    {
      hide CallsOf, After, Results, Ended;
      at := 0;
      ghost var s := View();
      InvStep(s, Call(t, f), first);
      pc := pc[t := Swap(f)];
      assert View() == Apply(s, Call(t, f));
      hide Inv, Apply, Enabled;
      while locked
        invariant Valid() && t < |pc| && pc[t] == Swap(f)
        invariant old(order) <= order && old(results) <= results && CallsOf(order, t) == CallsOf(old(order), t)
        decreases |schedule|
      {
        if schedule == [] { return None, at; }
        Others(t);
      }
      at := |order|;
      CallsSnoc(order, (t, f), t);
      var r := Hold(t, f);
      result := Some(r);
    }

    /** The section itself, once the swap has found the lock free. */
    method Hold(t: Tid, f: T -> (T, R)) returns (r: R)
      requires Valid() && t < |pc| && pc[t] == Swap(f) && !locked
      modifies this
      ensures Valid() && t < |pc| && pc[t].Outside? && old(order) + [(t, f)] == order && old(|results|) == old(|order|)
      ensures r == f(After(first, old(order))).1
    {
      hide Inv, Apply, Enabled;
      Enter(t, f);
      Others(t);
      r := Run(t, f);
      Others(t);
      Leave(t);
    }

    /** The swap. */
    method Enter(t: Tid, f: T -> (T, R))
      requires Valid() && t < |pc| && pc[t] == Swap(f) && !locked
      modifies this
      ensures Valid() && |pc| == old(|pc|) && pc[t] == Load(f) && data == After(first, old(order))
      ensures order == old(order) + [(t, f)] && results == old(results) && |results| == old(|order|)
    {
      ResultsLength(first, order);
      ghost var s := View();
      InvStep(s, Go(t), first);
      locked, pc, order := true, pc[t := Load(f)], order + [(t, f)];
      assert View() == Apply(s, Go(t));
    }

    /** The closure on the data, which are the same when it writes as when it read. */
    method Run(t: Tid, f: T -> (T, R)) returns (r: R)
      requires Valid() && t < |pc| && pc[t] == Load(f)
      modifies this
      ensures Valid() && |pc| == old(|pc|) && pc[t] == Clear(r) && order == old(order) && results == old(results)
      ensures data == f(old(data)).0 && r == f(old(data)).1
    {
      ghost var s := View();
      InvStep(s, Go(t), first);
      var seen := data;
      pc := pc[t := Write(f, seen)];
      assert View() == Apply(s, Go(t));
      Others(t);
      s := View();
      InvStep(s, Go(t), first);
      var out := f(seen);
      data, r, pc := out.0, out.1, pc[t := Clear(out.1)];
      assert View() == Apply(s, Go(t));
    }

    /** The store. */
    method Leave(t: Tid)
      requires Valid() && t < |pc| && pc[t].Clear?
      modifies this
      ensures Valid() && |pc| == old(|pc|) && pc[t].Outside? && order == old(order) && data == old(data) && !locked
    {
      ghost var s := View();
      InvStep(s, Go(t), first);
      locked, results, pc := false, results + [(t, pc[t].result)], pc[t := Outside];
      assert View() == Apply(s, Go(t));
    }
  }
}
