/** What one step of the monitor changes, family of actions by family, in the terms the invariants
    are stated in. */
module MonitorSteps {
  import opened Basics
  import opened Monitor

  /** The lock word and the two lock lists. */
  ghost predicate LockFacts<T>(s: State<T>, s': State<T>, t: Tid) {
    && t < |s.pc| && |s'.pc| == |s.pc| && s'.pc == s.pc[t := s'.pc[t]]
    && (s'.lock.held && !s.lock.held ==> Holds(s'.pc[t]))
    && (s.lock.held && !s'.lock.held ==> Holds(s.pc[t]) && !Holds(s'.pc[t]) && OwesThreads(s'.pc[t]))
    && (s.lock.held == s'.lock.held ==> Holds(s.pc[t]) == Holds(s'.pc[t]))
    && (s'.lock.threads != [] ==> s.lock.threads != [] || s'.lock.held)
    && (s'.lock.tasks != [] ==> s.lock.tasks != [] || s'.lock.held)
    && (OwesThreads(s.pc[t]) && !OwesThreads(s'.pc[t]) ==> s'.lock.threads == [])
    && (OwesTasks(s.pc[t]) && !OwesTasks(s'.pc[t]) ==> s'.lock.tasks == [])
  }

  /** The frame: only thread `t` moved, and the lists hold thread numbers. */
  ghost predicate Bounded<T>(s: State<T>, s': State<T>, t: Tid) {
    && t < |s.pc| && |s'.pc| == |s.pc| && s'.pc == s.pc[t := s'.pc[t]]
    && |s'.rt.token| == |s.rt.token| && |s'.hist.popped| == |s.hist.popped| && |s'.hist.regs| == |s.hist.regs|
    && Below(s'.lock.threads, |s.pc|) && Below(s'.cond.threads, |s.pc|) && Below(Unparks(s'.pc[t]), |s.pc|)
  }

  /** Thread `x` and its token; continuation `x`. */
  ghost predicate WakeFacts<T>(s: State<T>, s': State<T>, t: Tid, x: nat)
    requires t < |s.pc| && t < |s'.pc|
  {
    && (x in s.lock.threads && x !in s'.lock.threads ==> x in Unparks(s'.pc[t]))
    && (x in Unparks(s.pc[t]) && x !in Unparks(s'.pc[t]) && x < |s'.rt.token| ==> s'.rt.token[x])
    && (x < |s.rt.token| && x < |s'.rt.token| && s.rt.token[x] && !s'.rt.token[x]
        ==> x == t && CanReturn(s.pc[t]) && !CanReturn(s'.pc[t]) && !Armed(s'.pc[t]))
    && (s'.pc[t].BlockPark? ==> t in s'.lock.threads || s'.pc[t] == s.pc[t])
    && (x in s.lock.tasks && x !in s'.lock.tasks ==> x in Sends(s'.pc[t]))
    && (x in Sends(s.pc[t]) && x !in Sends(s'.pc[t]) ==> x in s'.rt.fired)
    && (x in s.rt.fired ==> x in s'.rt.fired)
    && (LockAwaits(s'.pc[t], x) ==> LockAwaits(s.pc[t], x) || x in s'.lock.tasks)
  }

  /** Thread `x`, and continuation `x`, in a condition-variable wait. */
  ghost predicate CvThreadFacts<T>(s: State<T>, s': State<T>, t: Tid, x: nat)
    requires t < |s.pc| && t < |s'.pc|
  {
    && (x in s.cond.threads && x !in s'.cond.threads ==> x in Unparks(s'.pc[t]) || (x == t && !Armed(s'.pc[t])))
    && (Armed(s'.pc[t]) && !Armed(s.pc[t]) ==> t in s'.cond.threads)
    && (x in s'.cond.threads && x !in s.cond.threads
        ==> x == t && Armed(s'.pc[t]) && Pending(s.pc[t]).None? && |s'.hist.regs| == |s.hist.regs|
            && (x < |s.hist.regs| ==> s'.hist.regs[x] > s.hist.regs[x]))
    && |s'.hist.regs| == |s.hist.regs| && (x < |s.hist.regs| ==> s'.hist.regs[x] >= s.hist.regs[x])
  }

  ghost predicate CvTaskFacts<T>(s: State<T>, s': State<T>, t: Tid, x: Sig)
    requires t < |s.pc| && t < |s'.pc|
  {
    && (x in s.cond.tasks && x !in s'.cond.tasks ==> x in Sends(s'.pc[t]) || x in s'.rt.fired)
    && (x in s'.cond.tasks && x !in s.cond.tasks ==> x == s.rt.next < s'.rt.next)
    && (TaskWaits(s'.pc[t], x) ==> TaskWaits(s.pc[t], x) || x in s'.cond.tasks)
  }

  /** Spin flag `x`: the list, what notifiers took and what timeouts withdrew. */
  ghost predicate SpinListFacts<T>(s: State<T>, s': State<T>, t: Tid, x: Sig)
    requires t < |s.pc| && t < |s'.pc|
  {
    && s.rt.next <= s'.rt.next
    && (x in s'.cond.spins && x !in s.cond.spins ==> x == s.rt.next < s'.rt.next && SpinWaits(s'.pc[t], x))
    && (x in s.cond.spins && x !in s'.cond.spins
        ==> (x in s'.hist.taken && x in Stores(s'.pc[t]) && SpinWaits(s'.pc[t], x) == SpinWaits(s.pc[t], x))
            || (x in s'.hist.expired && SpinWaits(s.pc[t], x)))
    && (x in s.hist.taken ==> x in s'.hist.taken)
    && (x in s'.hist.taken && x !in s.hist.taken ==> x in s.cond.spins && x !in s'.cond.spins)
    && (x in s.hist.expired ==> x in s'.hist.expired)
    && (x in s'.hist.expired && x !in s.hist.expired
        ==> x in s.cond.spins && x !in s'.cond.spins && (x in s.hist.taken <==> x in s'.hist.taken)
            && SpinWaits(s.pc[t], x) && !SpinWaits(s'.pc[t], x))
  }

  /** Spin flag `x`: its store, its waiter and the waiter's return. */
  ghost predicate SpinFlagFacts<T>(s: State<T>, s': State<T>, t: Tid, x: Sig)
    requires t < |s.pc| && t < |s'.pc|
  {
    && (x in s.rt.flags ==> x in s'.rt.flags)
    && (x in s'.rt.flags && x !in s.rt.flags ==> x in Stores(s.pc[t]))
    && (x in Stores(s.pc[t]) && x !in Stores(s'.pc[t]) ==> x in s'.rt.flags)
    && (x in Stores(s'.pc[t]) && x !in Stores(s.pc[t]) ==> x in s'.hist.taken)
    && (SpinWaits(s'.pc[t], x) && !SpinWaits(s.pc[t], x) ==> x == s.rt.next && x in s'.cond.spins)
    && (SpinWaits(s.pc[t], x) && !SpinWaits(s'.pc[t], x)
        ==> (x in s.rt.flags && x in s'.hist.seen) || (x in s'.hist.expired && x !in s'.hist.seen) || x in s.hist.seen)
    && (x in s.hist.seen ==> x in s'.hist.seen)
    && (x in s'.hist.seen && x !in s.hist.seen
        ==> x in s.rt.flags && SpinWaits(s.pc[t], x) && !SpinWaits(s'.pc[t], x))
  }

  lemma AcquireLockFacts<T>(s: State<T>, t: Tid)
    requires Wf(s) && t < |s.pc| && CanGo(s, t) && Acquires(s.pc[t])
    ensures var s' := GoAcquire(s, t); |s'.pc| == |s.pc| && LockFacts(s, s', t)
  {
  }

  lemma ReleaseLockFacts<T>(s: State<T>, t: Tid)
    requires Wf(s) && t < |s.pc| && Releases(s.pc[t])
    requires Holds(s.pc[t]) ==> s.lock.held
    ensures var s' := GoRelease(s, t); |s'.pc| == |s.pc| && LockFacts(s, s', t)
  {
  }

  lemma AwaitLockFacts<T>(s: State<T>, t: Tid)
    requires Wf(s) && t < |s.pc| && CanGo(s, t) && Awaits(s.pc[t])
    ensures var s' := GoAwait(s, t); |s'.pc| == |s.pc| && LockFacts(s, s', t)
  {
  }

  lemma NotifyLockFacts<T>(s: State<T>, t: Tid)
    requires Wf(s) && t < |s.pc| && Notifies(s.pc[t])
    ensures var s' := GoNotify(s, t); |s'.pc| == |s.pc| && LockFacts(s, s', t)
  {
  }

  lemma AcquireBounded<T>(s: State<T>, t: Tid)
    requires Wf(s) && t < |s.pc| && CanGo(s, t) && Acquires(s.pc[t])
    ensures var s' := GoAcquire(s, t); |s'.pc| == |s.pc| && Bounded(s, s', t)
  {
  }

  lemma ReleaseBounded<T>(s: State<T>, t: Tid)
    requires Wf(s) && t < |s.pc| && Releases(s.pc[t])
    ensures var s' := GoRelease(s, t); |s'.pc| == |s.pc| && Bounded(s, s', t)
  {
  }

  lemma AwaitBounded<T>(s: State<T>, t: Tid)
    requires Wf(s) && t < |s.pc| && CanGo(s, t) && Awaits(s.pc[t])
    ensures var s' := GoAwait(s, t); |s'.pc| == |s.pc| && Bounded(s, s', t)
  {
    if s.pc[t].CvRemove? && t in s.cond.threads {
      WithoutFacts(s.cond.threads, t);
    }
  }

  lemma NotifyBounded<T>(s: State<T>, t: Tid)
    requires Wf(s) && t < |s.pc| && Notifies(s.pc[t])
    ensures var s' := GoNotify(s, t); |s'.pc| == |s.pc| && Bounded(s, s', t)
  {
  }

  lemma AcquireWakeFacts<T>(s: State<T>, t: Tid, x: nat)
    requires Wf(s) && t < |s.pc| && CanGo(s, t) && Acquires(s.pc[t])
    ensures var s' := GoAcquire(s, t); |s'.pc| == |s.pc| && WakeFacts(s, s', t, x)
  {
  }

  lemma ReleaseWakeFacts<T>(s: State<T>, t: Tid, x: nat)
    requires Wf(s) && t < |s.pc| && Releases(s.pc[t])
    ensures var s' := GoRelease(s, t); |s'.pc| == |s.pc| && WakeFacts(s, s', t, x)
  {
  }

  lemma AwaitWakeFacts<T>(s: State<T>, t: Tid, x: nat)
    requires Wf(s) && t < |s.pc| && CanGo(s, t) && Awaits(s.pc[t])
    ensures var s' := GoAwait(s, t); |s'.pc| == |s.pc| && WakeFacts(s, s', t, x)
  {
  }

  lemma NotifyWakeFacts<T>(s: State<T>, t: Tid, x: nat)
    requires Wf(s) && t < |s.pc| && Notifies(s.pc[t])
    ensures var s' := GoNotify(s, t); |s'.pc| == |s.pc| && WakeFacts(s, s', t, x)
  {
  }

  lemma AcquireCvThreadFacts<T>(s: State<T>, t: Tid, x: nat)
    requires Wf(s) && t < |s.pc| && CanGo(s, t) && Acquires(s.pc[t])
    ensures var s' := GoAcquire(s, t); |s'.pc| == |s.pc| && CvThreadFacts(s, s', t, x)
  {
  }

  lemma ReleaseCvThreadFacts<T>(s: State<T>, t: Tid, x: nat)
    requires Wf(s) && t < |s.pc| && Releases(s.pc[t])
    ensures var s' := GoRelease(s, t); |s'.pc| == |s.pc| && CvThreadFacts(s, s', t, x)
  {
  }

  lemma AwaitCvThreadFacts<T>(s: State<T>, t: Tid, x: nat)
    requires Wf(s) && t < |s.pc| && CanGo(s, t) && Awaits(s.pc[t])
    ensures var s' := GoAwait(s, t); |s'.pc| == |s.pc| && CvThreadFacts(s, s', t, x)
  {
    if s.pc[t].CvRemove? && t in s.cond.threads {
      WithoutFacts(s.cond.threads, t);
    }
  }

  lemma NotifyCvThreadFacts<T>(s: State<T>, t: Tid, x: nat)
    requires Wf(s) && t < |s.pc| && Notifies(s.pc[t])
    ensures var s' := GoNotify(s, t); |s'.pc| == |s.pc| && CvThreadFacts(s, s', t, x)
  {
  }

  lemma AcquireCvTaskFacts<T>(s: State<T>, t: Tid, x: nat)
    requires Wf(s) && t < |s.pc| && CanGo(s, t) && Acquires(s.pc[t])
    ensures var s' := GoAcquire(s, t); |s'.pc| == |s.pc| && CvTaskFacts(s, s', t, x)
  {
  }

  lemma ReleaseCvTaskFacts<T>(s: State<T>, t: Tid, x: nat)
    requires Wf(s) && t < |s.pc| && Releases(s.pc[t])
    ensures var s' := GoRelease(s, t); |s'.pc| == |s.pc| && CvTaskFacts(s, s', t, x)
  {
  }

  lemma AwaitCvTaskFacts<T>(s: State<T>, t: Tid, x: nat)
    requires Wf(s) && t < |s.pc| && CanGo(s, t) && Awaits(s.pc[t])
    ensures var s' := GoAwait(s, t); |s'.pc| == |s.pc| && CvTaskFacts(s, s', t, x)
  {
    if s.pc[t].CvTaskRemove? && s.pc[t].id in s.cond.tasks {
      WithoutFacts(s.cond.tasks, s.pc[t].id);
    }
  }

  lemma NotifyCvTaskFacts<T>(s: State<T>, t: Tid, x: nat)
    requires Wf(s) && t < |s.pc| && Notifies(s.pc[t])
    ensures var s' := GoNotify(s, t); |s'.pc| == |s.pc| && CvTaskFacts(s, s', t, x)
  {
  }

  lemma AcquireSpinListFacts<T>(s: State<T>, t: Tid, x: nat)
    requires Wf(s) && t < |s.pc| && CanGo(s, t) && Acquires(s.pc[t])
    requires NoDup(s.cond.spins)
    ensures var s' := GoAcquire(s, t); |s'.pc| == |s.pc| && SpinListFacts(s, s', t, x) && NoDup(s'.cond.spins)
  {
  }

  lemma ReleaseSpinListFacts<T>(s: State<T>, t: Tid, x: nat)
    requires Wf(s) && t < |s.pc| && Releases(s.pc[t])
    requires NoDup(s.cond.spins)
    ensures var s' := GoRelease(s, t); |s'.pc| == |s.pc| && SpinListFacts(s, s', t, x) && NoDup(s'.cond.spins)
  {
  }

  lemma AwaitSpinListFacts<T>(s: State<T>, t: Tid, x: nat)
    requires Wf(s) && t < |s.pc| && CanGo(s, t) && Awaits(s.pc[t])
    requires NoDup(s.cond.spins)
    ensures var s' := GoAwait(s, t); |s'.pc| == |s.pc| && SpinListFacts(s, s', t, x) && NoDup(s'.cond.spins)
  {
    if s.pc[t].CvSpinRemove? && s.pc[t].id in s.cond.spins {
      WithoutFacts(s.cond.spins, s.pc[t].id);
    }
  }

  lemma NotifySpinListFacts<T>(s: State<T>, t: Tid, x: nat)
    requires Wf(s) && t < |s.pc| && Notifies(s.pc[t])
    requires NoDup(s.cond.spins)
    ensures var s' := GoNotify(s, t); |s'.pc| == |s.pc| && SpinListFacts(s, s', t, x) && NoDup(s'.cond.spins)
  {
  }

  lemma AcquireSpinFlagFacts<T>(s: State<T>, t: Tid, x: nat)
    requires Wf(s) && t < |s.pc| && CanGo(s, t) && Acquires(s.pc[t])
    ensures var s' := GoAcquire(s, t); |s'.pc| == |s.pc| && SpinFlagFacts(s, s', t, x)
  {
  }

  lemma ReleaseSpinFlagFacts<T>(s: State<T>, t: Tid, x: nat)
    requires Wf(s) && t < |s.pc| && Releases(s.pc[t])
    ensures var s' := GoRelease(s, t); |s'.pc| == |s.pc| && SpinFlagFacts(s, s', t, x)
  {
  }

  predicate SpinsInWait(p: Pc) { p.CvSpin? || p.CvSpinClock? || p.CvSpinRemove? }

  lemma SpinFlagFactsThere<T>(s: State<T>, t: Tid, x: nat)
    requires Wf(s) && t < |s.pc| && CanGo(s, t) && SpinsInWait(s.pc[t])
    ensures var s' := GoAwait(s, t); |s'.pc| == |s.pc| && SpinFlagFacts(s, s', t, x)
  {
    hide Without;
  }

  lemma SpinFlagFactsElsewhere<T>(s: State<T>, t: Tid, x: nat)
    requires Wf(s) && t < |s.pc| && CanGo(s, t) && Awaits(s.pc[t]) && !SpinsInWait(s.pc[t])
    ensures var s' := GoAwait(s, t); |s'.pc| == |s.pc| && SpinFlagFacts(s, s', t, x)
  {
    hide Without;
  }

  lemma AwaitSpinFlagFacts<T>(s: State<T>, t: Tid, x: nat)
    requires Wf(s) && t < |s.pc| && CanGo(s, t) && Awaits(s.pc[t])
    ensures var s' := GoAwait(s, t); |s'.pc| == |s.pc| && SpinFlagFacts(s, s', t, x)
  {
    hide GoAwait, SpinFlagFacts;
    if SpinsInWait(s.pc[t]) { SpinFlagFactsThere(s, t, x); } else { SpinFlagFactsElsewhere(s, t, x); }
  }

  lemma NotifySpinFlagFacts<T>(s: State<T>, t: Tid, x: nat)
    requires Wf(s) && t < |s.pc| && Notifies(s.pc[t])
    ensures var s' := GoNotify(s, t); |s'.pc| == |s.pc| && SpinFlagFacts(s, s', t, x)
  {
    if !s.pc[t].NSpins? && !s.pc[t].NStore? {
      PastSpins(s, t);
    }
  }

  /** Past the spin flags a notification leaves them alone. */
  lemma PastSpins<T>(s: State<T>, t: Tid)
    requires Wf(s) && t < |s.pc| && Notifies(s.pc[t]) && !s.pc[t].NSpins? && !s.pc[t].NStore?
    ensures var s' := GoNotify(s, t);
            && |s'.pc| == |s.pc| && s'.rt.flags == s.rt.flags && s'.hist.seen == s.hist.seen
            && Stores(s'.pc[t]) == [] && Pending(s'.pc[t]).None?
  {
  }

  lemma CallLockFacts<T>(s: State<T>, e: Step<T>)
    requires Wf(s) && Enabled(s, e) && !e.Go? && !e.Tick?
    ensures LockFacts(s, Apply(s, e), e.t)
  {
    hide Advance;
  }

  lemma CallBounded<T>(s: State<T>, e: Step<T>)
    requires Wf(s) && Enabled(s, e) && !e.Go? && !e.Tick?
    ensures Bounded(s, Apply(s, e), e.t)
  {
    hide Advance;
  }

  lemma CallWakeFacts<T>(s: State<T>, e: Step<T>, x: nat)
    requires Wf(s) && Enabled(s, e) && !e.Go? && !e.Tick?
    ensures var s' := Apply(s, e); |s'.pc| == |s.pc| && WakeFacts(s, s', e.t, x)
  {
    hide Advance;
  }

  lemma CallCvThreadFacts<T>(s: State<T>, e: Step<T>, x: nat)
    requires Wf(s) && Enabled(s, e) && !e.Go? && !e.Tick?
    ensures var s' := Apply(s, e); |s'.pc| == |s.pc| && CvThreadFacts(s, s', e.t, x)
  {
    hide Advance;
  }

  lemma CallCvTaskFacts<T>(s: State<T>, e: Step<T>, x: nat)
    requires Wf(s) && Enabled(s, e) && !e.Go? && !e.Tick?
    ensures var s' := Apply(s, e); |s'.pc| == |s.pc| && CvTaskFacts(s, s', e.t, x)
  {
    hide Advance;
  }

  lemma CallSpinFacts<T>(s: State<T>, e: Step<T>, x: nat)
    requires Wf(s) && Enabled(s, e) && !e.Go? && !e.Tick?
    requires NoDup(s.cond.spins) && Below(s.cond.spins, s.rt.next)
    ensures var s' := Apply(s, e);
            && |s'.pc| == |s.pc| && SpinListFacts(s, s', e.t, x) && SpinFlagFacts(s, s', e.t, x) && NoDup(s'.cond.spins)
  {
    hide Advance;
  }

  /** Everything the invariants need to know about a step of thread `t`, for waiter `x`. */
  ghost predicate Facts<T>(s: State<T>, s': State<T>, t: Tid, x: nat) {
    && LockFacts(s, s', t) && Bounded(s, s', t) && WakeFacts(s, s', t, x)
    && CvThreadFacts(s, s', t, x) && CvTaskFacts(s, s', t, x)
    && SpinListFacts(s, s', t, x) && SpinFlagFacts(s, s', t, x) && NoDup(s'.cond.spins)
  }

  lemma GoFacts<T>(s: State<T>, t: Tid, x: nat)
    requires Wf(s) && t < |s.pc| && CanGo(s, t) && NoDup(s.cond.spins)
    requires Holds(s.pc[t]) ==> s.lock.held
    ensures Facts(s, Advance(s, t), t, x)
  {
    hide GoAcquire, GoRelease, GoAwait, GoNotify;
    if Acquires(s.pc[t]) {
      AcquireLockFacts(s, t);
      AcquireBounded(s, t);
      AcquireWakeFacts(s, t, x);
      AcquireCvThreadFacts(s, t, x);
      AcquireCvTaskFacts(s, t, x);
      AcquireSpinListFacts(s, t, x);
      AcquireSpinFlagFacts(s, t, x);
    } else if Releases(s.pc[t]) {
      ReleaseLockFacts(s, t);
      ReleaseBounded(s, t);
      ReleaseWakeFacts(s, t, x);
      ReleaseCvThreadFacts(s, t, x);
      ReleaseCvTaskFacts(s, t, x);
      ReleaseSpinListFacts(s, t, x);
      ReleaseSpinFlagFacts(s, t, x);
    } else if Awaits(s.pc[t]) {
      AwaitLockFacts(s, t);
      AwaitBounded(s, t);
      AwaitWakeFacts(s, t, x);
      AwaitCvThreadFacts(s, t, x);
      AwaitCvTaskFacts(s, t, x);
      AwaitSpinListFacts(s, t, x);
      AwaitSpinFlagFacts(s, t, x);
    } else {
      NotifyLockFacts(s, t);
      NotifyBounded(s, t);
      NotifyWakeFacts(s, t, x);
      NotifyCvThreadFacts(s, t, x);
      NotifyCvTaskFacts(s, t, x);
      NotifySpinListFacts(s, t, x);
      NotifySpinFlagFacts(s, t, x);
    }
  }

  lemma StepFacts<T>(s: State<T>, e: Step<T>, x: nat)
    requires Wf(s) && Enabled(s, e) && !e.Tick?
    requires NoDup(s.cond.spins) && Below(s.cond.spins, s.rt.next)
    requires e.Go? && Holds(s.pc[e.t]) ==> s.lock.held
    ensures Facts(s, Apply(s, e), e.t, x)
  {
    hide Advance;
    if e.Go? {
      GoFacts(s, e.t, x);
    } else {
      CallLockFacts(s, e);
      CallBounded(s, e);
      CallWakeFacts(s, e, x);
      CallCvThreadFacts(s, e, x);
      CallCvTaskFacts(s, e, x);
      CallSpinFacts(s, e, x);
    }
  }

  lemma StepBounded<T>(s: State<T>, e: Step<T>)
    requires Wf(s) && Enabled(s, e) && !e.Tick?
    ensures Bounded(s, Apply(s, e), e.t)
  {
    hide GoAcquire, GoRelease, GoAwait, GoNotify;
    if !e.Go? {
      CallBounded(s, e);
    } else if Acquires(s.pc[e.t]) {
      AcquireBounded(s, e.t);
    } else if Releases(s.pc[e.t]) {
      ReleaseBounded(s, e.t);
    } else if Awaits(s.pc[e.t]) {
      AwaitBounded(s, e.t);
    } else {
      NotifyBounded(s, e.t);
    }
  }

  lemma WfStep<T>(s: State<T>, e: Step<T>)
    requires Wf(s) && Enabled(s, e)
    ensures Wf(Apply(s, e)) && |Apply(s, e).pc| == |s.pc|
  {
    hide Advance;
    if !e.Tick? {
      StepBounded(s, e);
    }
  }

  /** Only a store by the guard's owner changes the protected value. */
  lemma ValueKept<T>(s: State<T>, e: Step<T>)
    requires Wf(s) && Enabled(s, e) && !e.Store?
    ensures Apply(s, e).lock.value == s.lock.value
  {
  }
}
