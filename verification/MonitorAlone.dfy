/** What a thread's own actions come to inside a call while no other thread moves: the call returns, or it is held up
    by something that only another thread or the clock can change. */
module MonitorAlone {
  import opened Basics
  import opened Monitor
  import opened MonitorSteps
  import opened MonitorSafety
  import opened MonitorRuns
  import opened MonitorTasks

  /** The deadline, if there is one, has not come. */
  predicate Ahead(dl: Deadline, clock: nat) { dl.Some? ==> clock < dl.value }

  /** The call that thread `t` is in is held up: it spins on a held lock or an unset flag, it is parked without its
      token, or it polls a continuation that is not sent; and its deadline is still ahead. */
  predicate HeldUp<T>(s: State<T>, t: Tid)
    requires Wf(s) && t < |s.pc|
  {
    match s.pc[t]
    case SpinSwap(dl, _) => s.lock.held && Ahead(dl, s.rt.clock)
    case SpinClock(limit, _) => s.lock.held && s.rt.clock < limit
    case BlockPark(dl, _) => !s.rt.token[t] && Ahead(dl, s.rt.clock)
    case TaskPoll(id, dl, _) => id !in s.rt.fired && Ahead(dl, s.rt.clock)
    case TaskTimer(id, limit, _) => id !in s.rt.fired && s.rt.clock < limit
    case CvPark(_) => !s.rt.token[t]
    case CvParkUntil(limit, _) => !s.rt.token[t] && s.rt.clock < limit
    case CvSpin(id, dl, _) => id !in s.rt.flags && Ahead(dl, s.rt.clock)
    case CvSpinClock(id, limit, _) => id !in s.rt.flags && s.rt.clock < limit
    case CvPoll(id, dl) => id !in s.rt.fired && Ahead(dl, s.rt.clock)
    case CvTimer(id, limit) => id !in s.rt.fired && s.rt.clock < limit
    case _ => false
  }

  /** Whoever cannot go on is held up; and so is a loop without a limit that cannot. */
  lemma CannotGo<T>(s: State<T>, t: Tid)
    requires Wf(s) && t < |s.pc| && !Ready(s.pc[t])
    ensures !CanGo(s, t) ==> HeldUp(s, t)
    ensures HeldUp(s, t) && CanGo(s, t)
            ==> s.pc[t].SpinSwap? || s.pc[t].SpinClock? || s.pc[t].TaskPoll? || s.pc[t].TaskTimer?
                || s.pc[t].CvSpin? || s.pc[t].CvSpinClock? || s.pc[t].CvPoll? || s.pc[t].CvTimer?
  {
  }

  // ------------------------------------------------------------ a thread alone

  /** How many stages a thread at `p` has still before it, while nobody else moves. */
  function Stage<T>(s: State<T>, t: Tid): nat
    requires Wf(s) && t < |s.pc|
  {
    var late := (limit: nat) => s.rt.clock >= limit;
    var k := 4 * Bit(s.rt.token[t]);
    match s.pc[t]
    case Out => 0
    case In(_) => 0
    case TryLock => 1
    case LastTry => 1
    case SpinSwap(_, _) => if s.lock.held then 2 else 1
    case SpinClock(limit, _) => if late(limit) then 1 else 2
    case BlockPark(_, _) => if s.rt.token[t] then 7 else 3
    case BlockEnter(_, _) => 4 + k
    case BlockClock(limit, _) => if late(limit) then 2 else 5 + k
    case TaskTimer(_, limit, _) => if late(limit) then 1 else 6
    case TaskPoll(id, _, _) => if id in s.rt.fired then 5 else 2
    case TaskEnter(_, _) => 3
    case TaskClock(limit, _) => if late(limit) then 2 else 4
    case CvPark(_) => 10
    case CvRemove(_) => 11
    case CvClock(limit, _) => if late(limit) then 12 else 15 + k
    case CvCheck(limit, _) => if late(limit) then 13 else 16 + k
    case CvParkUntil(_, _) => if s.rt.token[t] then 17 else 14
    case CvSpin(id, dl, _) => if id in s.rt.flags || dl.None? then 9 else 12
    case CvSpinRemove(_, _) => 10
    case CvSpinClock(_, limit, _) => if late(limit) then 11 else 13
    case CvPoll(id, _) => if id in s.rt.fired then 10 else 13
    case CvTaskRemove(_) => 11
    case CvTimer(_, limit) => if late(limit) then 12 else 14
    case WakeTasks(_, _) => 31
    case TakeTasks(_) => 32
    case WakeThreads(_, _) => 33
    case TakeThreads(_) => 34
    case Release(_) => 35
    case NSend(_, _, _) => 41
    case NTasks(_, _) => 42
    case NUnpark(_, _, _) => 43
    case NThreads(_, _) => 44
    case NStore(_, _, _) => 45
    case NSpins(_, _) => 46
  }

  /** What is left of the loop over a list it took. */
  function Rest(p: Pc): nat { |Unparks(p)| + |Sends(p)| + |Stores(p)| }

  /** Thread `t` has come nearer to its end. */
  predicate Nearer<T>(s: State<T>, s': State<T>, t: Tid)
    requires Wf(s) && t < |s.pc|
  {
    && Wf(s') && |s'.pc| == |s.pc|
    && (Stage(s', t) < Stage(s, t) || (Stage(s', t) == Stage(s, t) && Rest(s'.pc[t]) < Rest(s.pc[t])))
  }

  lemma AcquireFalls<T>(s: State<T>, t: Tid)
    requires Wf(s) && t < |s.pc| && Acquires(s.pc[t]) && !HeldUp(s, t) && s.rt.next !in s.rt.fired
    ensures CanGo(s, t) && (Wf(GoAcquire(s, t)) ==> Nearer(s, GoAcquire(s, t), t))
  {
  }

  lemma ReleaseFalls<T>(s: State<T>, t: Tid)
    requires Wf(s) && t < |s.pc| && Releases(s.pc[t])
    ensures CanGo(s, t) && (Wf(GoRelease(s, t)) ==> Nearer(s, GoRelease(s, t), t))
  {
  }

  /** In a wait on a thread's entry. */
  predicate AwaitsThread(p: Pc) { p.CvPark? || p.CvClock? || p.CvParkUntil? || p.CvCheck? || p.CvRemove? }

  lemma AwaitThreadFalls<T>(s: State<T>, t: Tid)
    requires Wf(s) && t < |s.pc| && AwaitsThread(s.pc[t]) && !HeldUp(s, t)
    ensures CanGo(s, t) && (Wf(GoAwait(s, t)) ==> Nearer(s, GoAwait(s, t), t))
  {
    hide Without;
  }

  lemma AwaitFlagFalls<T>(s: State<T>, t: Tid)
    requires Wf(s) && t < |s.pc| && SpinsInWait(s.pc[t]) && !HeldUp(s, t)
    ensures CanGo(s, t) && (Wf(GoAwait(s, t)) ==> Nearer(s, GoAwait(s, t), t))
  {
    hide Without;
  }

  lemma AwaitTaskFalls<T>(s: State<T>, t: Tid)
    requires Wf(s) && t < |s.pc| && (s.pc[t].CvPoll? || s.pc[t].CvTimer? || s.pc[t].CvTaskRemove?) && !HeldUp(s, t)
    ensures CanGo(s, t) && (Wf(GoAwait(s, t)) ==> Nearer(s, GoAwait(s, t), t))
  {
    hide Without;
  }

  lemma AwaitFalls<T>(s: State<T>, t: Tid)
    requires Wf(s) && t < |s.pc| && Awaits(s.pc[t]) && !HeldUp(s, t)
    ensures CanGo(s, t) && (Wf(GoAwait(s, t)) ==> Nearer(s, GoAwait(s, t), t))
  {
    hide HeldUp, GoAwait, Nearer, CanGo;
    if AwaitsThread(s.pc[t]) {
      AwaitThreadFalls(s, t);
    } else if SpinsInWait(s.pc[t]) {
      AwaitFlagFalls(s, t);
    } else {
      AwaitTaskFalls(s, t);
    }
  }

  lemma NotifyFalls<T>(s: State<T>, t: Tid)
    requires Wf(s) && t < |s.pc| && Notifies(s.pc[t])
    ensures CanGo(s, t) && (Wf(GoNotify(s, t)) ==> Nearer(s, GoNotify(s, t), t))
  {
    hide Stage;
    var p := s.pc[t];
    StagesOfNotify(s, t);
    if Wf(GoNotify(s, t)) {
      StagesOfNotify(GoNotify(s, t), t);
    }
  }

  lemma StagesOfNotify<T>(s: State<T>, t: Tid)
    requires Wf(s) && t < |s.pc|
    ensures Ready(s.pc[t]) ==> Stage(s, t) == 0
    ensures Notifies(s.pc[t])
            ==> Stage(s, t) == match s.pc[t]
                               case NSpins(_, _) => 46
                               case NStore(_, _, _) => 45
                               case NThreads(_, _) => 44
                               case NUnpark(_, _, _) => 43
                               case NTasks(_, _) => 42
                               case _ => 41
  {
  }

  /** Not held up, a call goes on, and comes nearer to its end. */
  lemma GoesNearer<T>(s: State<T>, t: Tid)
    requires Wf(s) && t < |s.pc| && !Ready(s.pc[t]) && !HeldUp(s, t) && s.rt.next !in s.rt.fired
    ensures CanGo(s, t) && Nearer(s, Advance(s, t), t)
  {
    hide GoAcquire, GoRelease, GoAwait, GoNotify, Stage;
    CannotGo(s, t);
    WfStep(s, Go(t));
    if Acquires(s.pc[t]) {
      AcquireFalls(s, t);
    } else if Releases(s.pc[t]) {
      ReleaseFalls(s, t);
    } else if Awaits(s.pc[t]) {
      AwaitFalls(s, t);
    } else {
      NotifyFalls(s, t);
    }
  }

  /** A continuation that is still to be made has not been sent. */
  lemma NextIsUnsent<T>(s: State<T>)
    requires TaskInv(s)
    ensures Wf(s) && s.rt.next !in s.rt.fired
  {
    assert Entry(s, s.rt.next);
  }

  /** Every call of a thread that is alone ends, or comes to be held up, by at most a number of its own actions that is
      finite whatever the state: they fall along `Stage` and `Rest`. */
  lemma {:induction false} EndsAlone<T>(s: State<T>, t: Tid) returns (es: seq<Step<T>>)
    requires TaskInv(s) && t < |s.pc|
    ensures Possible(s, es) && (forall i :: 0 <= i < |es| ==> es[i] == Go(t))
    ensures var s' := Exec(s, es); Ready(s'.pc[t]) || HeldUp(s', t)
    decreases Stage(s, t), Rest(s.pc[t])
  {
    hide Stage, Rest, HeldUp, Advance, TaskInv;
    NextIsUnsent(s);
    if Ready(s.pc[t]) || HeldUp(s, t) {
      es := [];
    } else {
      GoesNearer(s, t);
      TaskStep(s, Go(t));
      var rest := EndsAlone(Advance(s, t), t);
      es := [Go(t)] + rest;
      assert es[0] == Go(t) && es[1..] == rest;
    }
  }

  /** A new flag is not stored and a new continuation not sent. */
  lemma NewIsUnsignalled<T>(m: State<T>)
    requires Inv(m) && TaskInv(m)
    ensures m.rt.next !in m.rt.flags && m.rt.next !in m.rt.fired && m.rt.next !in m.lock.tasks
  {
    assert SpinFlag(m, m.rt.next) && Entry(m, m.rt.next);
  }

  // ------------------------------------------------------------ a wait, alone

  /** The wake-ups of its park that thread `t` can have without the others: its token, and entries in the list that its
      own release drains. */
  function Wakes<T>(s: State<T>, t: Tid): nat
    requires Wf(s) && t < |s.pc|
  {
    Bit(s.rt.token[t]) + |s.lock.threads| + |Unparks(s.pc[t])|
  }

  /** No notifier has taken its entry. */
  predicate Unheard<T>(s: State<T>, t: Tid)
    requires t < |s.pc| && Pending(s.pc[t]).Some?
  {
    match Pending(s.pc[t]).value
    case OnThread(_) => true
    case OnThreadUntil(_, _) => t in s.cond.threads
    case OnFlag(id, _, _) => id !in s.rt.flags && id in s.cond.spins
    case OnTask(id, _) => id !in s.rt.fired && id in s.cond.tasks && id !in s.lock.tasks && id !in Sends(s.pc[t])
  }

  function Reported(r: Reply): Option<bool> {
    match r
    case Fresh => None
    case Waited(timedOut) => Some(timedOut)
  }

  /** What a thread that is back from such a wait, or on its way back, reports: a timeout or none. */
  function Report(p: Pc): Option<bool> {
    match p
    case In(reply) => Reported(reply)
    case SpinSwap(dl, reply) => if dl.None? then Reported(reply) else None
    case BlockEnter(dl, reply) => if dl.None? then Reported(reply) else None
    case BlockPark(dl, reply) => if dl.None? then Reported(reply) else None
    case TaskEnter(dl, reply) => if dl.None? then Reported(reply) else None
    case TaskPoll(_, dl, reply) => if dl.None? then Reported(reply) else None
    case _ => None
  }

  /** Since thread `t` registered, with `w` wake-ups to come, it has had one of them for a return as notified; or it is
      kept from the lock for good. */
  predicate Spent<T>(s: State<T>, t: Tid, w: int)
    requires Wf(s) && t < |s.pc|
  {
    var p := s.pc[t];
    && (Pending(p).Some? ==> Unheard(s, t) && Wakes(s, t) <= w)
    && (Report(p).Some? ==> Wakes(s, t) <= w - Bit(!Report(p).value) || (s.lock.held && !p.In?))
    && (Pending(p).Some? || Report(p).Some?)
  }

  lemma SpentAcquire<T>(s: State<T>, t: Tid, w: int)
    requires Wf(s) && t < |s.pc| && CanGo(s, t) && Acquires(s.pc[t]) && Spent(s, t, w)
    ensures Wf(GoAcquire(s, t)) ==> |GoAcquire(s, t).pc| == |s.pc| && Spent(GoAcquire(s, t), t, w)
  {
  }

  lemma SpentRelease<T>(s: State<T>, t: Tid, w: int)
    requires Wf(s) && t < |s.pc| && Releases(s.pc[t]) && Spent(s, t, w)
    ensures Wf(GoRelease(s, t)) ==> |GoRelease(s, t).pc| == |s.pc| && Spent(GoRelease(s, t), t, w)
  {
  }

  lemma SpentAwaitThread<T>(s: State<T>, t: Tid, w: int)
    requires Wf(s) && t < |s.pc| && CanGo(s, t) && AwaitsThread(s.pc[t]) && Spent(s, t, w)
    ensures Wf(GoAwait(s, t)) ==> |GoAwait(s, t).pc| == |s.pc| && Spent(GoAwait(s, t), t, w)
  {
    hide Without, Holds;
  }

  lemma SpentAwaitSignal<T>(s: State<T>, t: Tid, w: int)
    requires Wf(s) && t < |s.pc| && CanGo(s, t) && Awaits(s.pc[t]) && !AwaitsThread(s.pc[t]) && Spent(s, t, w)
    ensures Wf(GoAwait(s, t)) ==> |GoAwait(s, t).pc| == |s.pc| && Spent(GoAwait(s, t), t, w)
  {
    hide Without, Holds;
  }

  lemma SpentGo<T>(s: State<T>, t: Tid, w: int)
    requires Wf(s) && t < |s.pc| && CanGo(s, t) && Spent(s, t, w)
    ensures Wf(Advance(s, t)) && |Advance(s, t).pc| == |s.pc| && Spent(Advance(s, t), t, w)
  {
    hide GoAcquire, GoRelease, GoAwait, GoNotify;
    WfStep(s, Go(t));
    if Acquires(s.pc[t]) {
      SpentAcquire(s, t, w);
    } else if Releases(s.pc[t]) {
      SpentRelease(s, t, w);
    } else if AwaitsThread(s.pc[t]) {
      SpentAwaitThread(s, t, w);
    } else {
      SpentAwaitSignal(s, t, w);
    }
  }

  lemma {:induction false} SpentRun<T>(s: State<T>, es: seq<Step<T>>, t: Tid, w: int)
    requires Wf(s) && Possible(s, es) && t < |s.pc| && (forall i :: 0 <= i < |es| ==> es[i] == Go(t)) && Spent(s, t, w)
    ensures Spent(Exec(s, es), t, w)
    decreases |es|
  {
    hide Spent, Advance;
    if es != [] {
      SpentGo(s, t, w);
      SpentRun(Apply(s, es[0]), es[1..], t, w);
    }
  }

  /** So a wait that a thread begins and comes back from alone, and does not report as timed out, has cost it a
      wake-up. */
  lemma WaitCostsWakeup<T>(s: State<T>, req: Request, es: seq<Step<T>>, t: Tid)
    requires Wf(s) && t < |s.pc| && s.pc[t].In? && Possible(s, [Wait(t, req)] + es)
    requires s.rt.next !in s.rt.flags && s.rt.next !in s.rt.fired && s.rt.next !in s.lock.tasks
    requires forall i :: 0 <= i < |es| ==> es[i] == Go(t)
    requires Exec(s, [Wait(t, req)] + es).pc[t] == In(Waited(false))
    ensures Wakes(Exec(s, [Wait(t, req)] + es), t) < Wakes(s, t)
  {
    hide Spent, Register;
    var e: Step<T> := Wait(t, req);
    assert ([e] + es)[0] == e && ([e] + es)[1..] == es;
    WfStep(s, e);
    Registers(s, req, t);
    SpentRun(Apply(s, e), es, t, Wakes(s, t));
    SpentIn(Exec(s, [e] + es), t, Wakes(s, t));
  }

  lemma Registers<T>(s: State<T>, req: Request, t: Tid)
    requires Wf(s) && t < |s.pc| && s.pc[t].In? && Wf(Register(s, t, req)) && |Register(s, t, req).pc| == |s.pc|
    requires s.rt.next !in s.rt.flags && s.rt.next !in s.rt.fired && s.rt.next !in s.lock.tasks
    ensures Spent(Register(s, t, req), t, Wakes(s, t))
  {
  }

  lemma SpentIn<T>(s: State<T>, t: Tid, w: int)
    requires Wf(s) && t < |s.pc| && Spent(s, t, w) && s.pc[t].In? && s.pc[t].reply != Waited(true)
    ensures Wakes(s, t) < w
  {
  }

  /** Alone in a run with one call, of the guard's owner: it begins to wait, and then goes on. */
  lemma WaitsAlone<T>(s: State<T>, req: Request, es: seq<Step<T>>, t: Tid)
    requires Wf(s) && Possible(s, es) && t < |s.pc| && s.pc[t].In?
    requires Calls(es, t) == [Wait(t, req)] && Foreign(es, t) == [] && Spurts(es, t) == 0
    ensures es != [] && es == [Wait(t, req)] + es[1..] && forall i :: 1 <= i < |es| ==> es[i] == Go(t)
  {
    hide Apply, Wf, Possible, Calls, Foreign, Spurts;
    assert es != [] && (es == [] || Enabled(s, es[0])) by { NotEmpty(s, es, t); }
    var first, rest := [es[0]], es[1..];
    assert es == first + rest;
    CallsConcat(first, rest, t);
    CountsConcat(first, rest, t);
    OneStepCounts(es[0], t);
    assert OwnCall(es[0], t) == [es[0]];
    assert Calls(rest, t) == (([es[0]] + Calls(rest, t))[1..]) == [];
    OnlyGoesOf(rest, t);
    assert forall i :: 1 <= i < |es| ==> es[i] == rest[i - 1];
  }

  lemma NotEmpty<T>(s: State<T>, es: seq<Step<T>>, t: Tid)
    requires Wf(s) && Possible(s, es) && Calls(es, t) != []
    ensures es != [] && Enabled(s, es[0])
  {
  }

  lemma OnlyGoesOf<T>(es: seq<Step<T>>, t: Tid)
    requires Calls(es, t) == [] && Foreign(es, t) == [] && Spurts(es, t) == 0
    ensures forall i :: 0 <= i < |es| ==> es[i] == Go(t)
  {
    OnlyGoes([], es, t);
  }
}
