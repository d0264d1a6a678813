/** The entries of one thread in the condition variable's list of threads, counted. */
module MonitorEntries {
  import opened Basics
  import opened Monitor
  import opened MonitorSteps
  import opened MonitorRuns

  function Entries<T>(s: State<T>, x: Tid): nat { multiset(s.cond.threads)[x] }

  lemma EntriesIn<T>(s: State<T>, x: Tid)
    ensures x in s.cond.threads <==> Entries(s, x) > 0
  {
    CountIn(s.cond.threads, x);
  }

  lemma WithoutCount(q: seq<nat>, t: nat, x: nat)
    requires t in q
    ensures multiset(Without<nat>(q, t))[x] == multiset(q)[x] - Bit(x == t)
  {
    var i := IndexOf(q, t);
    var w: seq<nat> := q[..i] + q[i + 1..];
    assert q == q[..i] + [t] + q[i + 1..] && Without<nat>(q, t) == w;
    assert multiset(w)[x] == multiset(q[..i])[x] + multiset(q[i + 1..])[x];
  }

  /** A registration adds an entry and clears the mark; the timeout of the thread's own wait removes one; all else
      is notifiers taking entries, which they mark. */
  ghost predicate EntryFacts<T>(s: State<T>, s': State<T>, t: Tid, x: Tid)
    requires t < |s.pc|
  {
    && t < |s'.pc| && x < |s.hist.regs| == |s'.hist.regs| && x < |s.hist.popped| == |s'.hist.popped|
    && (if s'.hist.regs[x] != s.hist.regs[x]
        then && x == t && s.pc[t].In? && s'.hist.regs[x] == s.hist.regs[x] + 1
             && Entries(s', x) == Entries(s, x) + 1 && !s'.hist.popped[x]
        else if x == t && s.pc[t].CvRemove? && !s'.pc[t].CvRemove?
        then && Entries(s', x) == (if Entries(s, x) > 0 then Entries(s, x) - 1 else 0)
             && s'.hist.popped[x] == s.hist.popped[x]
        else && Entries(s', x) <= Entries(s, x)
             && (s'.hist.popped[x] <==> s.hist.popped[x] || Entries(s', x) < Entries(s, x)))
  }

  lemma AcquireEntries<T>(s: State<T>, t: Tid, x: Tid)
    requires Wf(s) && t < |s.pc| && x < |s.pc| && CanGo(s, t) && Acquires(s.pc[t])
    ensures EntryFacts(s, GoAcquire(s, t), t, x)
  {
  }

  lemma ReleaseEntries<T>(s: State<T>, t: Tid, x: Tid)
    requires Wf(s) && t < |s.pc| && x < |s.pc| && Releases(s.pc[t])
    ensures EntryFacts(s, GoRelease(s, t), t, x)
  {
  }

  lemma AwaitEntries<T>(s: State<T>, t: Tid, x: Tid)
    requires Wf(s) && t < |s.pc| && x < |s.pc| && CanGo(s, t) && Awaits(s.pc[t])
    ensures EntryFacts(s, GoAwait(s, t), t, x)
  {
    hide Without, IndexOf;
    CountIn(s.cond.threads, t);
    if s.pc[t].CvRemove? && t in s.cond.threads {
      WithoutCount(s.cond.threads, t, x);
      assert GoAwait(s, t).cond.threads == Without(s.cond.threads, t);
      assert GoAwait(s, t).hist == s.hist && !GoAwait(s, t).pc[t].CvRemove?;
      assert Entries(GoAwait(s, t), x) == Entries(s, x) - Bit(x == t);
      assert x == t ==> Entries(s, x) > 0;
    } else if !s.pc[t].CvRemove? {
      assert Entries(GoAwait(s, t), x) == Entries(s, x);
    }
  }

  lemma NotifyEntries<T>(s: State<T>, t: Tid, x: Tid)
    requires Wf(s) && t < |s.pc| && x < |s.pc| && Notifies(s.pc[t])
    ensures EntryFacts(s, GoNotify(s, t), t, x)
  {
    hide Entries;
    if s.pc[t].NThreads? {
      TakeEntries(s, t, x);
    } else {
      KeepEntries(s, t, x);
    }
  }

  lemma TakeEntries<T>(s: State<T>, t: Tid, x: Tid)
    requires Wf(s) && t < |s.pc| && x < |s.pc| && s.pc[t].NThreads?
    ensures EntryFacts(s, GoNotify(s, t), t, x)
  {
    CountIn(s.cond.threads, x);
    if s.cond.threads != [] {
      assert s.cond.threads == s.cond.threads[..|s.cond.threads| - 1] + [Last(s.cond.threads)];
    }
  }

  lemma KeepEntries<T>(s: State<T>, t: Tid, x: Tid)
    requires Wf(s) && t < |s.pc| && x < |s.pc| && Notifies(s.pc[t]) && !s.pc[t].NThreads?
    ensures var s' := GoNotify(s, t);
            && s'.cond.threads == s.cond.threads && s'.hist.popped == s.hist.popped && s'.hist.regs == s.hist.regs
            && Entries(s', x) == Entries(s, x) && |s'.pc| == |s.pc|
  {
  }

  lemma CallEntries<T>(s: State<T>, e: Step<T>, x: Tid)
    requires Wf(s) && Enabled(s, e) && !e.Go? && !e.Tick? && x < |s.pc|
    ensures EntryFacts(s, Apply(s, e), e.t, x)
  {
    hide Advance, Register;
    if e.Wait? {
      RegisterEntries(s, e.t, e.req, x);
    }
  }

  lemma RegisterEntries<T>(s: State<T>, t: Tid, req: Request, x: Tid)
    requires Wf(s) && t < |s.pc| && x < |s.pc| && s.pc[t].In?
    ensures EntryFacts(s, Register(s, t, req), t, x)
  {
  }

  lemma StepEntries<T>(s: State<T>, e: Step<T>, x: Tid)
    requires Wf(s) && Enabled(s, e) && !e.Tick? && x < |s.pc|
    ensures EntryFacts(s, Apply(s, e), e.t, x)
  {
    hide GoAcquire, GoRelease, GoAwait, GoNotify, Entries;
    if !e.Go? {
      CallEntries(s, e, x);
    } else if Acquires(s.pc[e.t]) {
      AcquireEntries(s, e.t, x);
    } else if Releases(s.pc[e.t]) {
      ReleaseEntries(s, e.t, x);
    } else if Awaits(s.pc[e.t]) {
      AwaitEntries(s, e.t, x);
    } else {
      NotifyEntries(s, e.t, x);
    }
  }

  /** Over one step: no more entries are added than registrations made. */
  lemma EntriesGrow<T>(s: State<T>, s': State<T>, t: Tid, x: Tid)
    requires t < |s.pc| && EntryFacts(s, s', t, x)
    ensures s.hist.regs[x] <= s'.hist.regs[x]
    ensures Entries(s', x) + s.hist.regs[x] <= Entries(s, x) + s'.hist.regs[x]
  {
  }

  lemma TickEntries<T>(s: State<T>, e: Step<T>, x: Tid)
    requires Wf(s) && e.Tick?
    ensures Apply(s, e).hist == s.hist && Apply(s, e).pc == s.pc && Entries(Apply(s, e), x) == Entries(s, x)
  {
  }

  lemma NoNewEntry<T>(s: State<T>, e: Step<T>, t: Tid)
    requires Wf(s) && Enabled(s, e) && t < |s.pc| && OwnCall(e, t) == []
    ensures Wf(Apply(s, e)) && |Apply(s, e).pc| == |s.pc| && Entries(Apply(s, e), t) <= Entries(s, t)
  {
    hide GoAcquire, GoRelease, GoAwait, GoNotify, Entries;
    WfStep(s, e);
    if e.Tick? {
      TickEntries(s, e, t);
    } else {
      StepEntries(s, e, t);
      if e == Stray(t) {
        assert Apply(s, e).hist == s.hist;
      }
    }
  }

  /** While a thread makes no call it gets no new entry. */
  lemma {:induction false} NoNewEntries<T>(s: State<T>, s': State<T>, t: Tid, es: seq<Step<T>>)
    requires Meanwhile(s, s', t, es) && t < |s.pc|
    ensures Entries(s', t) <= Entries(s, t)
    decreases |es|
  {
    hide Apply, Entries, OwnCall;
    if es != [] {
      NoNewEntry(s, es[0], t);
      NoNewEntries(Apply(s, es[0]), s', t, es[1..]);
    }
  }
}
