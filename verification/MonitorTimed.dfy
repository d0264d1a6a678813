/** Timed blocking waits decide "notified or timed out" by looking for their own entry in the list.
    As long as no caller uses the untimed `wait_block` on the same condition variable, that decision
    is exact and no notification is lost or counted twice, whatever tokens stray in and however
    parks return. */
module MonitorTimed {
  import opened Basics
  import opened Monitor
  import opened MonitorSteps
  import opened MonitorRuns

  /** In an untimed blocking wait, which leaves its entry behind at a spurious return. */
  predicate PlainWaits(p: Pc) { Pending(p).Some? && Pending(p).value.OnThread? }

  /** Threads whose entry a notifier has taken and whose timed wait is still to return. */
  function Owed<T>(s: State<T>): set<Tid>
    requires Wf(s)
  {
    set t | 0 <= t < |s.pc| && TimedWaits(s.pc[t]) && s.hist.popped[t]
  }

  predicate Listed<T>(s: State<T>, t: Tid)
    requires Wf(s) && t < |s.pc|
  {
    t in s.cond.threads <==> TimedWaits(s.pc[t]) && !s.hist.popped[t]
  }

  /** A thread has one entry exactly while it waits unnotified, else none; and the entries notifiers
      took are the waits that returned as notified plus those still to return. */
  ghost predicate TimedInv<T>(s: State<T>) {
    && Wf(s)
    && NoDup(s.cond.threads)
    && (forall t :: 0 <= t < |s.pc| ==> Listed(s, t))
    && (forall t :: 0 <= t < |s.pc| ==> !PlainWaits(s.pc[t]))
    && s.hist.pops == s.hist.notified + |Owed(s)|
  }

  predicate Untimed<T>(e: Step<T>) { e.Wait? && e.req.WaitBlock? }

  // ------------------------------------------------------------ one step

  /** A step that leaves the list, the marks and every thread's wait as they are. */
  lemma TimedFrame<T>(s: State<T>, s': State<T>, t: Tid)
    requires TimedInv(s) && Bounded(s, s', t) && Wf(s')
    requires s'.cond.threads == s.cond.threads && s'.hist.popped == s.hist.popped
    requires s'.hist.pops == s.hist.pops && s'.hist.notified == s.hist.notified
    requires TimedWaits(s'.pc[t]) == TimedWaits(s.pc[t]) && !PlainWaits(s'.pc[t])
    ensures TimedInv(s')
  {
    forall u | 0 <= u < |s.pc|
      ensures Listed(s', u)
    {
      assert Listed(s, u);
    }
    assert Owed(s') == Owed(s);
  }

  /** Thread `t` registers a timed wait. */
  lemma TimedEnter<T>(s: State<T>, s': State<T>, t: Tid)
    requires TimedInv(s) && Bounded(s, s', t) && Wf(s')
    requires !TimedWaits(s.pc[t]) && TimedWaits(s'.pc[t])
    requires s'.cond.threads == s.cond.threads + [t]
    requires s'.hist == Registered(s.hist, t)
    ensures TimedInv(s')
  {
    assert Listed(s, t);
    forall u | 0 <= u < |s.pc|
      ensures Listed(s', u)
    {
      assert Listed(s, u);
    }
    assert Owed(s') == Owed(s);
  }

  /** Thread `t`'s timed wait returns, as notified or as timed out. */
  lemma TimedLeave<T>(s: State<T>, s': State<T>, t: Tid)
    requires TimedInv(s) && Bounded(s, s', t) && Wf(s')
    requires TimedWaits(s.pc[t]) && !TimedWaits(s'.pc[t]) && !PlainWaits(s'.pc[t])
    requires if t in s.cond.threads
             then s'.cond.threads == Without(s.cond.threads, t) && s'.hist == s.hist
             else s'.cond.threads == s.cond.threads && s'.hist == s.hist.(notified := s.hist.notified + 1)
    ensures TimedInv(s')
  {
    assert Listed(s, t);
    if t in s.cond.threads {
      WithoutFacts(s.cond.threads, t);
    }
    forall u | 0 <= u < |s.pc|
      ensures Listed(s', u)
    {
      assert Listed(s, u);
    }
    assert Owed(s') == Owed(s) - {t};
  }

  /** A notifier takes the entries `q` off the list and leaves `rest`. */
  lemma TimedTake<T>(s: State<T>, s': State<T>, t: Tid, q: seq<Tid>, rest: seq<Tid>)
    requires TimedInv(s) && Bounded(s, s', t) && Wf(s')
    requires TimedWaits(s'.pc[t]) == TimedWaits(s.pc[t]) && !PlainWaits(s'.pc[t])
    requires s.cond.threads == rest + q && s'.cond.threads == rest
    requires s'.hist.popped == MarkAll(s.hist.popped, q)
    requires s'.hist.pops == s.hist.pops + |q| && s'.hist.notified == s.hist.notified
    ensures TimedInv(s')
  {
    NoDupParts(rest, q);
    forall u | 0 <= u < |s.pc|
      ensures Listed(s', u) && (u in q ==> TimedWaits(s.pc[u]) && !s.hist.popped[u])
    {
      assert Listed(s, u);
      assert u in s.cond.threads <==> u in rest || u in q;
    }
    assert SetOf(q) !! Owed(s);
    forall u | u in SetOf(q)
      ensures u in Owed(s')
    {
      assert Below(s.cond.threads, |s.pc|);
      assert u in s.cond.threads && Listed(s', u);
    }
    assert Owed(s') == Owed(s) + SetOf(q);
    CardinalityNoDup(q);
  }

  lemma TimedStep<T>(s: State<T>, e: Step<T>)
    requires TimedInv(s) && Enabled(s, e) && !Untimed(e)
    ensures TimedInv(Apply(s, e))
  {
    hide Advance;
    var s' := Apply(s, e);
    WfStep(s, e);
    if e.Tick? {
      assert Owed(s') == Owed(s);
      forall u | 0 <= u < |s.pc|
        ensures Listed(s', u)
      {
        assert Listed(s, u);
      }
    } else {
      StepBounded(s, e);
      if e.Go? {
        TimedGo(s, e.t);
      } else if e.Wait? && e.req.WaitBlockTimeout? {
        TimedEnter(s, s', e.t);
      } else {
        TimedFrame(s, s', e.t);
      }
    }
  }

  /** Thread `t`'s next action touches neither the list of blocked waits nor any mark. */
  ghost predicate Quiet<T>(s: State<T>, s': State<T>, t: Tid)
    requires t < |s.pc| && t < |s'.pc|
  {
    && s'.cond.threads == s.cond.threads && s'.hist.popped == s.hist.popped
    && s'.hist.pops == s.hist.pops && s'.hist.notified == s.hist.notified
    && TimedWaits(s'.pc[t]) == TimedWaits(s.pc[t])
    && (PlainWaits(s'.pc[t]) ==> PlainWaits(s.pc[t]))
  }

  lemma QuietLock<T>(s: State<T>, t: Tid)
    requires Wf(s) && t < |s.pc| && CanGo(s, t) && (Acquires(s.pc[t]) || Releases(s.pc[t]))
    ensures |Advance(s, t).pc| == |s.pc| && Quiet(s, Advance(s, t), t)
  {
    hide GoAwait, GoNotify;
  }

  lemma QuietAwait<T>(s: State<T>, t: Tid)
    requires Wf(s) && t < |s.pc| && CanGo(s, t) && Awaits(s.pc[t])
    requires !s.pc[t].CvRemove? && (s.pc[t].CvCheck? ==> t in s.cond.threads)
    ensures |Advance(s, t).pc| == |s.pc| && Quiet(s, Advance(s, t), t)
  {
    hide GoAcquire, GoRelease, GoNotify;
  }

  lemma QuietNotify<T>(s: State<T>, t: Tid)
    requires Wf(s) && t < |s.pc| && CanGo(s, t) && Notifies(s.pc[t])
    requires s.pc[t].NThreads? ==> !s.pc[t].all && s.cond.threads == []
    ensures |Advance(s, t).pc| == |s.pc| && Quiet(s, Advance(s, t), t)
  {
    hide GoAcquire, GoRelease, GoAwait, GoNotify;
    NotifyWaitsForNothing(s, t);
  }

  lemma NotifyWaitsForNothing<T>(s: State<T>, t: Tid)
    requires Wf(s) && t < |s.pc| && Notifies(s.pc[t])
    requires s.pc[t].NThreads? ==> !s.pc[t].all && s.cond.threads == []
    ensures var s' := GoNotify(s, t);
            && |s'.pc| == |s.pc| && Pending(s'.pc[t]).None? && s'.cond.threads == s.cond.threads
            && s'.hist.popped == s.hist.popped && s'.hist.pops == s.hist.pops && s'.hist.notified == s.hist.notified
  {
  }

  lemma TakeGo<T>(s: State<T>, t: Tid)
    requires TimedInv(s) && t < |s.pc| && s.pc[t].NThreads? && (s.pc[t].all || s.cond.threads != [])
    requires Wf(Advance(s, t)) && Bounded(s, Advance(s, t), t)
    ensures TimedInv(Advance(s, t))
  {
    hide GoAcquire, GoRelease, GoAwait;
    var s' := Advance(s, t);
    var n := if s.pc[t].all then 0 else |s.cond.threads| - 1;
    assert s'.hist.popped == MarkAll(s.hist.popped, s.cond.threads[n..]);
    TimedTake(s, s', t, s.cond.threads[n..], s.cond.threads[..n]);
  }

  lemma LeaveGo<T>(s: State<T>, t: Tid)
    requires TimedInv(s) && t < |s.pc| && (s.pc[t].CvRemove? || (s.pc[t].CvCheck? && t !in s.cond.threads))
    requires Wf(Advance(s, t)) && Bounded(s, Advance(s, t), t)
    ensures TimedInv(Advance(s, t))
  {
    hide GoAcquire, GoRelease, GoNotify;
    TimedLeave(s, Advance(s, t), t);
  }

  lemma TimedGo<T>(s: State<T>, t: Tid)
    requires TimedInv(s) && t < |s.pc| && CanGo(s, t)
    requires Wf(Advance(s, t)) && Bounded(s, Advance(s, t), t)
    ensures TimedInv(Advance(s, t))
  {
    hide Advance;
    var p := s.pc[t];
    if p.CvRemove? || (p.CvCheck? && t !in s.cond.threads) {
      LeaveGo(s, t);
    } else if p.NThreads? && (p.all || s.cond.threads != []) {
      TakeGo(s, t);
    } else {
      if Acquires(p) || Releases(p) {
        QuietLock(s, t);
      } else if Awaits(p) {
        QuietAwait(s, t);
      } else {
        QuietNotify(s, t);
      }
      TimedFrame(s, Advance(s, t), t);
    }
  }

  // ------------------------------------------------------------ runs

  lemma {:induction false} TimedRun<T>(s: State<T>, es: seq<Step<T>>)
    requires TimedInv(s) && Possible(s, es) && forall i :: 0 <= i < |es| ==> !Untimed(es[i])
    ensures TimedInv(Exec(s, es))
    decreases |es|
  {
    hide Apply;
    if es != [] {
      TimedStep(s, es[0]);
      TimedRun(Apply(s, es[0]), es[1..]);
    }
  }

  /** In every run without `wait_block`: a thread is listed once exactly while it waits unnotified,
      and the entries taken by notifiers are the timed waits that returned as notified plus those
      that still will. */
  lemma TimedConservation<T>(n: nat, value: T, es: seq<Step<T>>)
    requires Possible(Init(n, value), es) && forall i :: 0 <= i < |es| ==> !Untimed(es[i])
    ensures var s := Exec(Init(n, value), es);
            && NoDup(s.cond.threads)
            && (forall t :: 0 <= t < |s.pc| ==> (t in s.cond.threads <==> TimedWaits(s.pc[t]) && !s.hist.popped[t]))
            && s.hist.pops == s.hist.notified + |Owed(s)|
  {
    var s := Init(n, value);
    assert Owed(s) == {};
    TimedRun(s, es);
    var s' := Exec(s, es);
    forall t | 0 <= t < |s'.pc|
      ensures t in s'.cond.threads <==> TimedWaits(s'.pc[t]) && !s'.hist.popped[t]
    {
      assert Listed(s', t);
    }
  }

  /** The step on which a timed blocking wait settles its outcome: it reports "not timed out" exactly
      when a notifier took its entry. */
  lemma TimedReply<T>(s: State<T>, t: Tid)
    requires TimedInv(s) && t < |s.pc| && CanGo(s, t)
    requires Awaits(s.pc[t]) && TimedWaits(s.pc[t]) && !TimedWaits(Advance(s, t).pc[t])
    ensures Advance(s, t).pc[t] == Relock(s.pc[t].sync, !s.hist.popped[t])
  {
    hide GoAcquire, GoRelease, GoNotify;
    assert Listed(s, t);
  }
}
