/** A channel operation and the monitor call it is in stay in step. */
module ChannelFit {
  import opened Basics
  import opened Monitor
  import opened Channel

  /** What an operation expects of its thread's monitor program counter. */
  datatype Mode =
    | Resting
    | Owning
    | Locking(k: Kind)
    | Leaving
    | Telling
    | Awaiting(how: How, dl: Deadline)

  function ModeOf<M>(x: Client<M>): Mode {
    match x
    case Idle => Resting
    case SendCheck(_, _, _) => Resting
    case SendLock(_, _) => Locking(By(Spinning, None))
    case SendPush(_, _) => Owning
    case SendUnlock(_, _, _) => Owning
    case SendNotify(_, _, _) => Leaving
    case SendReturn(_, _, _) => Telling
    case RejectUnlock(_) => Owning
    case RejectReturn(_) => Leaving
    case RecvLock(k) => Locking(k)
    case RecvCount(_) => Owning
    case RecvWait(_) => Owning
    case RecvWaiting(k) => if k.By? then Awaiting(k.how, k.dl) else Owning
    case RecvUnlock(_) => Owning
    case RecvReturn(_) => Leaving
    case LastNotify => Resting
    case LastReturn => Telling
  }

  /** In an acquisition that reports `r`; an untimed one cannot give up. */
  predicate Acquiring(p: Pc, timed: bool) {
    match p
    case SpinSwap(dl, r) => r.Fresh? && (dl.Some? ==> timed)
    case SpinClock(_, r) => r.Fresh? && timed
    case BlockClock(_, r) => r.Fresh? && timed
    case BlockEnter(dl, r) => r.Fresh? && (dl.Some? ==> timed)
    case BlockPark(dl, r) => r.Fresh? && (dl.Some? ==> timed)
    case TaskClock(_, r) => r.Fresh? && timed
    case TaskEnter(dl, r) => r.Fresh? && (dl.Some? ==> timed)
    case TaskPoll(_, dl, r) => r.Fresh? && (dl.Some? ==> timed)
    case TaskTimer(_, _, r) => r.Fresh? && timed
    case LastTry => timed
    case In(r) => r.Fresh?
    case Out => timed
    case _ => false
  }

  predicate ReportsWait(r: Reply, timed: bool) { r.Waited? && (r.timedOut ==> timed) }

  predicate ForWait(a: After, how: How, dl: Deadline) {
    && a.Resume?
    && match a.w
       case OnThread(_) => how.Blocking? && dl.None?
       case OnThreadUntil(_, _) => how.Blocking? && dl.Some?
       case OnFlag(_, d, _) => how.Spinning? && (d.Some? ==> dl.Some?)
       case OnTask(_, d) => how.Tasking? && (d.Some? ==> dl.Some?)
  }

  /** In a wait: dropping the guard, waiting, re-acquiring without a limit, or back with the guard. */
  predicate InWait(p: Pc, how: How, dl: Deadline) {
    match p
    case Release(a) => ForWait(a, how, dl)
    case TakeThreads(a) => ForWait(a, how, dl)
    case WakeThreads(_, a) => ForWait(a, how, dl)
    case TakeTasks(a) => ForWait(a, how, dl)
    case WakeTasks(_, a) => ForWait(a, how, dl)
    case CvPark(_) => how.Blocking? && dl.None?
    case CvClock(_, _) => how.Blocking? && dl.Some?
    case CvParkUntil(_, _) => how.Blocking? && dl.Some?
    case CvCheck(_, _) => how.Blocking? && dl.Some?
    case CvRemove(_) => how.Blocking? && dl.Some?
    case CvSpin(_, d, _) => how.Spinning? && (d.Some? ==> dl.Some?)
    case CvSpinClock(_, _, _) => how.Spinning? && dl.Some?
    case CvSpinRemove(_, _) => how.Spinning? && dl.Some?
    case CvPoll(_, d) => how.Tasking? && (d.Some? ==> dl.Some?)
    case CvTimer(_, _) => how.Tasking? && dl.Some?
    case CvTaskRemove(_) => how.Tasking? && dl.Some?
    case SpinSwap(d, r) => d.None? && ReportsWait(r, dl.Some?)
    case BlockEnter(d, r) => d.None? && ReportsWait(r, dl.Some?)
    case BlockPark(d, r) => d.None? && ReportsWait(r, dl.Some?)
    case TaskEnter(d, r) => d.None? && ReportsWait(r, dl.Some?)
    case TaskPoll(_, d, r) => d.None? && ReportsWait(r, dl.Some?)
    case In(r) => ReportsWait(r, dl.Some?)
    case _ => false
  }

  predicate Dropping(p: Pc) { p.Out? || (Releases(p) && p.after.Leave?) }

  predicate Fits(m: Mode, p: Pc) {
    match m
    case Resting => p.Out?
    case Owning => p.In?
    case Locking(k) => if k.Trying? then p.TryLock? || p.Out? || p == In(Fresh) else Acquiring(p, k.dl.Some?)
    case Leaving => Dropping(p)
    case Telling => p.Out? || (Notifies(p) && !p.inside)
    case Awaiting(how, dl) => InWait(p, how, dl)
  }

  lemma FitsAcquire<T>(s: State<T>, t: Tid, m: Mode)
    requires Wf(s) && t < |s.pc| && CanGo(s, t) && Acquires(s.pc[t]) && Fits(m, s.pc[t])
    ensures |GoAcquire(s, t).pc| == |s.pc| && Fits(m, GoAcquire(s, t).pc[t])
  {
  }

  lemma FitsRelease<T>(s: State<T>, t: Tid, m: Mode)
    requires Wf(s) && t < |s.pc| && Releases(s.pc[t]) && Fits(m, s.pc[t])
    ensures |GoRelease(s, t).pc| == |s.pc| && Fits(m, GoRelease(s, t).pc[t])
  {
  }

  lemma FitsAwait<T>(s: State<T>, t: Tid, m: Mode)
    requires Wf(s) && t < |s.pc| && CanGo(s, t) && Awaits(s.pc[t]) && Fits(m, s.pc[t])
    ensures |GoAwait(s, t).pc| == |s.pc| && Fits(m, GoAwait(s, t).pc[t])
  {
  }

  lemma FitsNotify<T>(s: State<T>, t: Tid, m: Mode)
    requires Wf(s) && t < |s.pc| && Notifies(s.pc[t]) && Fits(m, s.pc[t])
    ensures |GoNotify(s, t).pc| == |s.pc| && Fits(m, GoNotify(s, t).pc[t])
  {
  }

  /** No action inside a call, and none of the platform, puts an operation out of step. */
  lemma FitsInternal<T>(s: State<T>, e: Step<T>, t: Tid, m: Mode)
    requires Wf(s) && Enabled(s, e) && Internal(e) && IsBy(e, t) && t < |s.pc| && Fits(m, s.pc[t])
    ensures |Apply(s, e).pc| == |s.pc| && Fits(m, Apply(s, e).pc[t])
  {
    hide GoAcquire, GoRelease, GoAwait, GoNotify;
    if e.Go? {
      if Acquires(s.pc[t]) {
        FitsAcquire(s, t, m);
      } else if Releases(s.pc[t]) {
        FitsRelease(s, t, m);
      } else if Awaits(s.pc[t]) {
        FitsAwait(s, t, m);
      } else {
        FitsNotify(s, t, m);
      }
    }
  }
}
