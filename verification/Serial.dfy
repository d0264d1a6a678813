/** Serialisability. The critical sections of a run, recorded in the order in which they acquired the lock, form a
    chain: each found the value its predecessor left. So sections that write a function of what they found have the
    effect of those functions applied one after the other in acquisition order. */
module Serial {
  import opened Basics
  import opened Monitor
  import opened MonitorSafety
  import opened MonitorSteps
  import opened MonitorRuns

  /** A critical section of thread `t`: the value when it acquired the lock, and the last it wrote. */
  datatype Section<T> = Section(t: Tid, before: T, after: T)

  /** The step acquires the lock. */
  ghost predicate Acquisition<T>(s: State<T>, e: Step<T>)
    requires Wf(s) && Enabled(s, e)
  {
    e.Go? && e.t < |Apply(s, e).pc| && !Holds(s.pc[e.t]) && Holds(Apply(s, e).pc[e.t])
  }

  /** The order `q`, extended when the lock is acquired; a store changes the section that is open. */
  ghost function Extend<T>(q: seq<Section<T>>, s: State<T>, e: Step<T>): seq<Section<T>>
    requires Wf(s) && Enabled(s, e)
  {
    if e.Store? && q != [] then q[|q| - 1 := Last(q).(after := e.v)]
    else if Acquisition(s, e) then q + [Section(e.t, s.lock.value, s.lock.value)]
    else q
  }

  /** The sections of the run `es` from `s`, in acquisition order, after those of `q`. */
  ghost function Sections<T>(s: State<T>, es: seq<Step<T>>, q: seq<Section<T>>): seq<Section<T>>
    requires Wf(s) && Possible(s, es)
    decreases |es|
  {
    if es == [] then q else (WfStep(s, es[0]); Sections(Apply(s, es[0]), es[1..], Extend(q, s, es[0])))
  }

  lemma {:induction false} SectionsConcat<T>(s: State<T>, es: seq<Step<T>>, more: seq<Step<T>>, q: seq<Section<T>>)
    requires Wf(s) && Possible(s, es) && Possible(Exec(s, es), more) && Possible(s, es + more)
    ensures Sections(s, es + more, q) == Sections(Exec(s, es), more, Sections(s, es, q))
    decreases |es|
  {
    hide Apply, Enabled, Extend;
    if es == [] {
      assert [] + more == more;
    } else {
      WfStep(s, es[0]);
      assert (es + more)[0] == es[0] && (es + more)[1..] == es[1..] + more;
      SectionsConcat(Apply(s, es[0]), es[1..], more, Extend(q, s, es[0]));
    }
  }

  lemma SectionsSnoc<T>(s: State<T>, es: seq<Step<T>>, e: Step<T>, q: seq<Section<T>>)
    requires Wf(s) && Possible(s, es) && Enabled(Exec(s, es), e)
    ensures Possible(s, es + [e])
    ensures Sections(s, es + [e], q) == Extend(Sections(s, es, q), Exec(s, es), e)
  {
    hide Apply, Enabled, Extend;
    ExecSnoc(s, es, e);
    var s', q' := Exec(s, es), Sections(s, es, q);
    WfStep(s', e);
    assert [e][1..] == [];
    assert Possible(s', [e]) && Sections(s', [e], q') == Extend(q', s', e);
    SectionsConcat(s, es, [e], q);
  }

  // ------------------------------------------------------------ the chain

  /** What section `i` finds: the initial value, or what section `i - 1` leaves. */
  function Found<T>(v0: T, q: seq<Section<T>>, i: nat): T
    requires i <= |q|
  {
    if i == 0 then v0 else q[i - 1].after
  }

  /** Each section finds what its predecessor left, the lock's value is what the last one left, and the owner of the
      guard is in the last one. */
  ghost predicate Chained<T>(v0: T, s: State<T>, q: seq<Section<T>>) {
    && (forall i :: 0 <= i < |q| ==> q[i].before == Found(v0, q, i))
    && s.lock.value == Found(v0, q, |q|)
    && forall t :: 0 <= t < |s.pc| && Holds(s.pc[t]) ==> q != [] && Last(q).t == t
  }

  /** What a step does to the owner and to the value, seen from any thread `t`. */
  lemma OwnerMoves<T>(s: State<T>, e: Step<T>, t: Tid)
    requires Inv(s) && Enabled(s, e) && t < |s.pc|
    ensures |Apply(s, e).pc| == |s.pc|
    ensures e.Store? ==> Holds(s.pc[e.t]) && Apply(s, e).pc == s.pc && Apply(s, e).lock.value == e.v
    ensures !e.Store? ==> Apply(s, e).lock.value == s.lock.value
    ensures Holds(Apply(s, e).pc[t]) && !Holds(s.pc[t]) ==> e == Go(t)
  {
    hide GoAcquire, GoRelease, GoAwait, GoNotify;
    WfStep(s, e);
    if !e.Store? { ValueKept(s, e); }
    if !e.Tick? {
      StepBounded(s, e);
    }
  }

  lemma NoSecondOwner<T>(s: State<T>, e: Step<T>, t: Tid)
    requires Inv(s) && Enabled(s, e) && t < |s.pc| && Holds(s.pc[t]) && !IsBy(e, t)
    ensures !Acquisition(s, e)
  {
    hide Advance;
    if Acquisition(s, e) {
      InvStep(s, e);
      GuardedValue(s, e, t);
    }
  }

  lemma ChainedStep<T>(v0: T, s: State<T>, e: Step<T>, q: seq<Section<T>>)
    requires Inv(s) && Enabled(s, e) && Chained(v0, s, q)
    ensures Inv(Apply(s, e)) && Chained(v0, Apply(s, e), Extend(q, s, e))
  {
    hide Advance;
    InvStep(s, e);
    var s', q' := Apply(s, e), Extend(q, s, e);
    LastOwner(v0, s, e, q);
    if e.Store? {
      OwnerMoves(s, e, e.t);
    } else if Acquisition(s, e) {
      OwnerMoves(s, e, e.t);
    } else {
      NothingMoves(s, e);
    }
  }

  lemma NothingMoves<T>(s: State<T>, e: Step<T>)
    requires Inv(s) && Enabled(s, e) && !e.Store?
    ensures Apply(s, e).lock.value == s.lock.value
  {
    hide Advance;
    ValueKept(s, e);
  }

  lemma LastOwner<T>(v0: T, s: State<T>, e: Step<T>, q: seq<Section<T>>)
    requires Inv(s) && Enabled(s, e) && Chained(v0, s, q)
    ensures e.Store? ==> q != [] && Last(q).t == e.t
    ensures forall t :: 0 <= t < |Apply(s, e).pc| && Holds(Apply(s, e).pc[t])
                        ==> Extend(q, s, e) != [] && Last(Extend(q, s, e)).t == t
  {
    hide Advance;
    var s', q' := Apply(s, e), Extend(q, s, e);
    if e.Store? { OwnerMoves(s, e, e.t); }
    forall t | 0 <= t < |s'.pc| && Holds(s'.pc[t])
      ensures q' != [] && Last(q').t == t
    {
      WfStep(s, e);
      OwnerMoves(s, e, t);
      if Holds(s.pc[t]) && !IsBy(e, t) {
        NoSecondOwner(s, e, t);
      }
    }
  }

  lemma {:induction false} ChainedRun<T>(v0: T, s: State<T>, es: seq<Step<T>>, q: seq<Section<T>>)
    requires Inv(s) && Possible(s, es) && Chained(v0, s, q)
    ensures Inv(Exec(s, es)) && Chained(v0, Exec(s, es), Sections(s, es, q))
    decreases |es|
  {
    hide Apply, Enabled, Extend, Chained;
    if es != [] {
      ChainedStep(v0, s, es[0], q);
      ChainedRun(v0, Apply(s, es[0]), es[1..], Extend(q, s, es[0]));
    }
  }

  /** In every run from a new mutex, of any clients and by whatever mix of spinning, blocking and asynchronous
      acquisitions and waits: in acquisition order each critical section finds what the one before it left. */
  lemma SectionsChain<T>(n: nat, value: T, es: seq<Step<T>>)
    requires Possible(Init(n, value), es)
    ensures Chained(value, Exec(Init(n, value), es), Sections(Init(n, value), es, []))
  {
    InitInv(n, value);
    ChainedRun(value, Init(n, value), es, []);
  }

  // ------------------------------------------------------------ functions applied in order

  /** `fs` one after the other. */
  function Fold<T>(value: T, fs: seq<T -> T>): T {
    if fs == [] then value else Last(fs)(Fold(value, fs[..|fs| - 1]))
  }

  lemma {:induction false} FoldChain<T>(v0: T, q: seq<Section<T>>, fs: seq<T -> T>, n: nat)
    requires n <= |q| == |fs|
    requires forall i :: 0 <= i < |q| ==> q[i].before == Found(v0, q, i) && q[i].after == fs[i](q[i].before)
    ensures Found(v0, q, n) == Fold(v0, fs[..n])
  {
    if n > 0 {
      FoldChain(v0, q, fs, n - 1);
      assert fs[..n][..n - 1] == fs[..n - 1] && q[n - 1].before == Found(v0, q, n - 1);
    }
  }

  /** If each section's last write is a function of what it found, the value is the initial value with those
      functions applied in acquisition order. */
  lemma SerialInLockOrder<T>(n: nat, value: T, es: seq<Step<T>>, fs: seq<T -> T>)
    requires Possible(Init(n, value), es)
    requires var q := Sections(Init(n, value), es, []);
             |fs| == |q| && forall i :: 0 <= i < |q| ==> q[i].after == fs[i](q[i].before)
    ensures Exec(Init(n, value), es).lock.value == Fold(value, fs)
  {
    SectionsChain(n, value, es);
    var q := Sections(Init(n, value), es, []);
    FoldChain(value, q, fs, |q|);
    assert fs[..|q|] == fs;
  }

  // ------------------------------------------------------------ one section of one thread

  predicate NoStores<T>(es: seq<Step<T>>, t: Tid) {
    forall i :: 0 <= i < |es| ==> !(es[i].Store? && es[i].t == t)
  }

  /** From `n` sections on, thread `t` has not written in the section it is in. */
  ghost predicate Unwritten<T>(s: State<T>, q: seq<Section<T>>, t: Tid, n: nat)
    requires t < |s.pc|
  {
    n <= |q| && (Holds(s.pc[t]) ==> |q| > n && Last(q) == Section(t, s.lock.value, s.lock.value))
  }

  lemma UnwrittenStep<T>(s: State<T>, e: Step<T>, q: seq<Section<T>>, t: Tid, n: nat)
    requires Inv(s) && Enabled(s, e) && t < |s.pc| && Unwritten(s, q, t, n) && !(e.Store? && e.t == t)
    ensures |Apply(s, e).pc| == |s.pc| && Unwritten(Apply(s, e), Extend(q, s, e), t, n)
  {
    hide Advance;
    WfStep(s, e);
    OwnerMoves(s, e, t);
    if Holds(Apply(s, e).pc[t]) && Holds(s.pc[t]) {
      if !e.Store? && !IsBy(e, t) {
        NoSecondOwner(s, e, t);
      }
    }
  }

  /** A thread that is outside, and writes nothing, comes to own the guard: its section is the last, and it is as it
      was found. */
  lemma {:induction false} UnwrittenRun<T>(s: State<T>, es: seq<Step<T>>, q: seq<Section<T>>, t: Tid, n: nat)
    requires Inv(s) && Possible(s, es) && t < |s.pc| && Unwritten(s, q, t, n) && NoStores(es, t)
    ensures t < |Exec(s, es).pc| && Unwritten(Exec(s, es), Sections(s, es, q), t, n)
    decreases |es|
  {
    hide Apply, Enabled, Extend, Unwritten;
    if es != [] {
      InvStep(s, es[0]);
      UnwrittenStep(s, es[0], q, t, n);
      UnwrittenRun(Apply(s, es[0]), es[1..], Extend(q, s, es[0]), t, n);
    }
  }

  lemma {:induction false} SectionKept<T>(v0: T, s: State<T>, es: seq<Step<T>>, q: seq<Section<T>>, t: Tid, at: nat)
    requires Inv(s) && Possible(s, es) && Chained(v0, s, q) && at < |q| && q[at].t == t && NoStores(es, t)
    ensures at < |Sections(s, es, q)| && Sections(s, es, q)[at] == q[at]
    decreases |es|
  {
    hide Apply, Enabled, Chained;
    if es != [] {
      LastOwner(v0, s, es[0], q);
      ChainedStep(v0, s, es[0], q);
      SectionKept(v0, Apply(s, es[0]), es[1..], Extend(q, s, es[0]), t, at);
    }
  }

  lemma {:induction false} WritesAreCalls<T>(es: seq<Step<T>>, t: Tid)
    requires forall e :: e in Calls(es, t) ==> !e.Store?
    ensures NoStores(es, t)
  {
    if es != [] {
      var less := es[..|es| - 1];
      var e := Last(es);
      assert es == less + [e];
      WritesAreCalls(less, t);
      assert forall x :: x in OwnCall(e, t) ==> x in Calls(es, t);
      assert e.Store? && e.t == t ==> OwnCall(e, t) == [e];
    }
  }

  /** `run` went on to `run + more`, and in `more` thread `t` wrote nothing. */
  ghost predicate WentOn<T>(s: State<T>, run: seq<Step<T>>, more: seq<Step<T>>, t: Tid) {
    && Inv(s) && Possible(s, run + more) && t < |s.pc| && forall e :: e in Calls(more, t) ==> !e.Store?
  }

  /** The thread was outside at first: its section, if it is in one, is the last, and is as it was found. */
  lemma Enters<T>(s: State<T>, run: seq<Step<T>>, more: seq<Step<T>>, t: Tid)
    requires WentOn(s, run, more, t) && Possible(s, run) && !Holds(Exec(s, run).pc[t])
    ensures var s', q' := Exec(s, run + more), Sections(s, run + more, []);
            && |Sections(s, run, [])| <= |q'| && t < |s'.pc|
            && (Holds(s'.pc[t])
                ==> |Sections(s, run, [])| < |q'| && Last(q') == Section(t, s'.lock.value, s'.lock.value))
  {
    hide Apply, Enabled, Extend, Calls;
    ExecSplit(s, run, more);
    InvAfter(s, run);
    WritesAreCalls(more, t);
    UnwrittenRun(Exec(s, run), more, Sections(s, run, []), t, |Sections(s, run, [])|);
    SectionsConcat(s, run, more, []);
  }

  lemma InvAfter<T>(s: State<T>, run: seq<Step<T>>)
    requires Inv(s) && Possible(s, run)
    ensures Inv(Exec(s, run))
  {
    InvRun(s, run);
  }

  /** A section of a thread that writes no more stays as it is. */
  lemma Stands<T>(n: nat, value: T, run: seq<Step<T>>, more: seq<Step<T>>, t: Tid, at: nat)
    requires WentOn(Init(n, value), run, more, t) && Possible(Init(n, value), run)
    requires at < |Sections(Init(n, value), run, [])| && Sections(Init(n, value), run, [])[at].t == t
    ensures at < |Sections(Init(n, value), run + more, [])|
    ensures Sections(Init(n, value), run + more, [])[at] == Sections(Init(n, value), run, [])[at]
  {
    hide Apply, Enabled, Extend, Inv, Calls, Init, Chained;
    var s := Init(n, value);
    ExecSplit(s, run, more);
    InvAfter(s, run);
    SectionsChain(n, value, run);
    WritesAreCalls(more, t);
    SectionKept(value, Exec(s, run), more, Sections(s, run, []), t, at);
    SectionsConcat(s, run, more, []);
  }
}
