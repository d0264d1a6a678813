/** Deadlines. A timed acquisition gives up, and a timed wait reports a timeout, only once its deadline has come. */
module MonitorLimits {
  import opened Basics
  import opened Monitor
  import opened MonitorSteps
  import opened MonitorAlone

  /** A thread at `p` is in an acquisition with deadline `limit`, or back from one. */
  predicate AcquiresBy(p: Pc, limit: nat, clock: nat) {
    match p
    case SpinSwap(dl, r) => dl == Some(limit) && r.Fresh?
    case SpinClock(l, r) => l == limit && r.Fresh?
    case BlockClock(l, r) => l == limit && r.Fresh?
    case BlockEnter(dl, r) => dl == Some(limit) && r.Fresh?
    case BlockPark(dl, r) => dl == Some(limit) && r.Fresh?
    case TaskClock(l, r) => l == limit && r.Fresh?
    case TaskEnter(dl, r) => dl == Some(limit) && r.Fresh?
    case TaskPoll(_, dl, r) => dl == Some(limit) && r.Fresh?
    case TaskTimer(_, l, r) => l == limit && r.Fresh?
    case LastTry => clock >= limit
    case Out => clock >= limit
    case In(r) => r.Fresh?
    case _ => false
  }

  function DeadlineOf(w: Waiting): Deadline {
    match w
    case OnThread(_) => None
    case OnThreadUntil(limit, _) => Some(limit)
    case OnFlag(_, dl, _) => dl
    case OnTask(_, dl) => dl
  }

  predicate NotTooEarly(report: Option<bool>, late: bool) { report.Some? && (report.value ==> late) }

  /** A thread at `p` is in a wait with deadline `limit`, or back from one. */
  predicate WaitsBy(p: Pc, limit: nat, clock: nat) {
    match p
    case Release(Resume(w)) => DeadlineOf(w) == Some(limit)
    case TakeThreads(Resume(w)) => DeadlineOf(w) == Some(limit)
    case WakeThreads(_, Resume(w)) => DeadlineOf(w) == Some(limit)
    case TakeTasks(Resume(w)) => DeadlineOf(w) == Some(limit)
    case WakeTasks(_, Resume(w)) => DeadlineOf(w) == Some(limit)
    case CvClock(l, _) => l == limit
    case CvParkUntil(l, _) => l == limit
    case CvCheck(l, _) => l == limit
    case CvRemove(_) => clock >= limit
    case CvSpin(_, dl, _) => dl == Some(limit) || (dl.None? && clock >= limit)
    case CvSpinClock(_, l, _) => l == limit
    case CvSpinRemove(_, _) => clock >= limit
    case CvPoll(_, dl) => dl == Some(limit)
    case CvTimer(_, l) => l == limit
    case CvTaskRemove(_) => clock >= limit
    case q => NotTooEarly(Report(q), clock >= limit)
  }

  lemma AcquireInTime<T>(s: State<T>, t: Tid, limit: nat)
    requires Wf(s) && t < |s.pc| && CanGo(s, t) && Acquires(s.pc[t])
    ensures var s' := GoAcquire(s, t);
            && |s'.pc| == |s.pc| && s'.rt.clock == s.rt.clock
            && (AcquiresBy(s.pc[t], limit, s.rt.clock) ==> AcquiresBy(s'.pc[t], limit, s.rt.clock))
            && (WaitsBy(s.pc[t], limit, s.rt.clock) ==> WaitsBy(s'.pc[t], limit, s.rt.clock))
  {
  }

  lemma ReleaseInTime<T>(s: State<T>, t: Tid, limit: nat)
    requires Wf(s) && t < |s.pc| && Releases(s.pc[t])
    ensures var s' := GoRelease(s, t);
            && |s'.pc| == |s.pc| && s'.rt.clock == s.rt.clock
            && (WaitsBy(s.pc[t], limit, s.rt.clock) ==> WaitsBy(s'.pc[t], limit, s.rt.clock))
  {
  }

  lemma AwaitInTime<T>(s: State<T>, t: Tid, limit: nat)
    requires Wf(s) && t < |s.pc| && CanGo(s, t) && Awaits(s.pc[t])
    ensures var s' := GoAwait(s, t);
            && |s'.pc| == |s.pc| && s'.rt.clock == s.rt.clock
            && (WaitsBy(s.pc[t], limit, s.rt.clock) ==> WaitsBy(s'.pc[t], limit, s.rt.clock))
  {
    hide Without;
  }

  /** Whatever happens short of a new call of the thread, it keeps its deadline. */
  lemma StaysInTime<T>(s: State<T>, e: Step<T>, t: Tid, limit: nat)
    requires Wf(s) && Enabled(s, e) && t < |s.pc| && (IsBy(e, t) ==> e.Go? || e.Spurious?)
    ensures var s' := Apply(s, e);
            && |s'.pc| == |s.pc| && s.rt.clock <= s'.rt.clock
            && (AcquiresBy(s.pc[t], limit, s.rt.clock) ==> AcquiresBy(s'.pc[t], limit, s'.rt.clock))
            && (WaitsBy(s.pc[t], limit, s.rt.clock) ==> WaitsBy(s'.pc[t], limit, s'.rt.clock))
  {
    hide GoAcquire, GoRelease, GoAwait, GoNotify;
    if e == Go(t) {
      if Acquires(s.pc[t]) {
        AcquireInTime(s, t, limit);
      } else if Releases(s.pc[t]) {
        ReleaseInTime(s, t, limit);
      } else if Awaits(s.pc[t]) {
        AwaitInTime(s, t, limit);
      } else {
        NotTimed(s, t, limit);
      }
    } else {
      OthersInTime(s, e, t, limit);
    }
  }

  lemma NotTimed<T>(s: State<T>, t: Tid, limit: nat)
    requires Wf(s) && t < |s.pc| && Notifies(s.pc[t])
    ensures !AcquiresBy(s.pc[t], limit, s.rt.clock) && !WaitsBy(s.pc[t], limit, s.rt.clock)
    ensures CanGo(s, t) && |GoNotify(s, t).pc| == |s.pc| && GoNotify(s, t).rt.clock == s.rt.clock
  {
  }

  lemma Later(p: Pc, limit: nat, clock: nat, clock': nat)
    requires clock <= clock'
    ensures AcquiresBy(p, limit, clock) ==> AcquiresBy(p, limit, clock')
    ensures WaitsBy(p, limit, clock) ==> WaitsBy(p, limit, clock')
  {
  }

  lemma OthersInTime<T>(s: State<T>, e: Step<T>, t: Tid, limit: nat)
    requires Wf(s) && Enabled(s, e) && t < |s.pc| && e != Go(t) && (IsBy(e, t) ==> e.Spurious?)
    ensures var s' := Apply(s, e);
            && |s'.pc| == |s.pc| && s.rt.clock <= s'.rt.clock
            && (AcquiresBy(s.pc[t], limit, s.rt.clock) ==> AcquiresBy(s'.pc[t], limit, s'.rt.clock))
            && (WaitsBy(s.pc[t], limit, s.rt.clock) ==> WaitsBy(s'.pc[t], limit, s'.rt.clock))
  {
    hide AcquiresBy, WaitsBy, Advance;
    var s' := Apply(s, e);
    WfStep(s, e);
    if e.Spurious? && e.t == t {
      UnparkedInTime(s.pc[t], limit, s.rt.clock);
    } else {
      if !e.Tick? {
        StepBounded(s, e);
      }
      ClockGrows(s, e);
      Later(s.pc[t], limit, s.rt.clock, s'.rt.clock);
    }
  }

  lemma ClockGrows<T>(s: State<T>, e: Step<T>)
    requires Wf(s) && Enabled(s, e)
    ensures s.rt.clock <= Apply(s, e).rt.clock
  {
  }

  lemma UnparkedInTime(p: Pc, limit: nat, clock: nat)
    requires CanReturn(p)
    ensures AcquiresBy(p, limit, clock) ==> AcquiresBy(Unparked(p), limit, clock)
    ensures WaitsBy(p, limit, clock) ==> WaitsBy(Unparked(p), limit, clock)
  {
  }
}
