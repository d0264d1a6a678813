/** The mutex's own code: `try_lock`, the acquisition loops, the drop of the guard and `with_mut_sync`. */
module MutexCode {
  import opened Basics
  import opened Monitor
  import opened MonitorSafety
  import opened MonitorSteps
  import opened MonitorTasks
  import opened MonitorRuns
  import opened MonitorAlone
  import opened Serial
  import opened Threads

  /** An acquisition that is `Pending` goes on when the schedule does. */
  datatype Acquisition = Locked | TimedOut | Pending

  /** How an acquisition leaves its thread. It is timed out only once the deadline has passed. It is pending only while
      it is held up, its deadline, if it has one, still ahead. */
  ghost predicate Settled<T>(w: Thread<T>, r: Acquisition, dl: Deadline, reply: Reply)
    requires w.Valid()
    reads w.m, w.c, w.p
  {
    match r
    case Locked => w.p.pc[w.id] == In(reply)
    case TimedOut => dl.Some? && w.p.pc[w.id].Out? && w.p.clock >= dl.value
    case Pending =>
      && w.p.schedule == [] && Acquires(w.p.pc[w.id]) && HeldUp(w.View(), w.id)
      && (if dl.None? then !CanGo(w.View(), w.id) else w.p.clock < dl.value)
  }

  /** The thread has the lock, and no other has. */
  ghost predicate Owns<T>(w: Thread<T>)
    reads w.m, w.c, w.p
  {
    && w.id < |w.p.pc| && w.p.pc[w.id].In? && w.m.dataLock
    && forall u :: 0 <= u < |w.p.pc| && Holds(w.p.pc[u]) ==> u == w.id
  }

  lemma OwnsIt<T>(w: Thread<T>)
    requires w.Valid() && w.p.pc[w.id].In?
    ensures Owns(w)
  {
    w.Sound();
    assert Exclusive(w.View());
  }

  lemma ParkedIsSettled<T>(w: Thread<T>)
    requires w.Valid() && w.p.pc[w.id].BlockPark? && !w.p.token[w.id] && Ahead(w.p.pc[w.id].dl, w.p.clock)
    ensures !CanGo(w.View(), w.id) && Acquires(w.p.pc[w.id]) && HeldUp(w.View(), w.id)
  {
  }

  /** The run records at index `at` an attempt of the thread, made while another thread held the lock. */
  ghost predicate Refused<T>(w: Thread<T>, at: nat)
    reads w.p
  {
    && at < |w.p.trace| && w.p.trace[at] == Go(w.id)
    && Wf(w.p.origin) && Possible(w.p.origin, w.p.trace[..at])
    && HeldByAnother(Exec(w.p.origin, w.p.trace[..at]), w.id)
  }

  lemma SomeoneHolds<T>(w: Thread<T>)
    requires w.Valid() && w.m.dataLock && !Holds(w.p.pc[w.id])
    ensures HeldByAnother(w.View(), w.id)
    ensures Wf(w.p.origin) && Possible(w.p.origin, w.p.trace) && Exec(w.p.origin, w.p.trace) == w.View()
  {
    w.Sound();
    assert Exclusive(w.View());
  }

  /** One attempt: it fails only if another thread holds the lock at that moment. */
  method Attempt<T>(w: Thread<T>) returns (ok: bool)
    requires w.Valid() && (w.p.pc[w.id].TryLock? || w.p.pc[w.id].LastTry?)
    modifies w.m, w.c, w.p
    ensures w.Ran([]) && w.p.pc[w.id] == if ok then In(Fresh) else Out
    ensures if ok then Owns(w) else exists at :: old(|w.p.trace|) <= at && Refused(w, at)
  {
    hide Apply, Enabled, Init, Possible, Exec, Calls, Undisturbed, CanGo, HeldUp, Owns, HeldByAnother;
    hide Foreign, Spurts, SpuriousIn;
    hide Thread.Valid, Thread.View;
    w.Others();
    ghost var run := w.p.trace;
    if w.m.dataLock { SomeoneHolds(w); }
    ok := w.Attempt();
    if ok {
      OwnsIt(w);
    } else {
      assert w.p.trace[..|run|] == run;
      assert Refused(w, |run|);
    }
  }

  method TryLock<T>(w: Thread<T>) returns (ok: bool)
    requires w.Valid() && w.p.pc[w.id].Out?
    modifies w.m, w.c, w.p
    ensures w.Ran([Try(w.id)])
    ensures if ok then Owns(w) && w.p.pc[w.id] == In(Fresh)
            else w.p.pc[w.id].Out? && exists at :: old(|w.p.trace|) <= at && Refused(w, at)
  {
    hide Apply, Enabled, Init, Possible, Exec, Calls, Undisturbed, CanGo, HeldUp, Owns, Refused;
    hide Thread.Valid, Thread.View;
    hide Foreign, Spurts, SpuriousIn;
    w.Begin(Try(w.id));
    ok := Attempt(w);
  }

  lemma SpinIsSettled<T>(w: Thread<T>)
    requires w.Valid() && w.p.pc[w.id].SpinSwap? && w.m.dataLock && Ahead(w.p.pc[w.id].dl, w.p.clock)
    ensures Acquires(w.p.pc[w.id]) && HeldUp(w.View(), w.id) && (w.p.pc[w.id].dl.None? ==> !CanGo(w.View(), w.id))
  {
  }

  /** `lock_spin`'s loop, also as the re-acquisition of a wait. */
  method SpinLoop<T>(w: Thread<T>, reply: Reply) returns (r: Acquisition)
    requires w.Valid() && w.p.pc[w.id] == SpinSwap(None, reply)
    modifies w.m, w.c, w.p
    ensures w.Ran([]) && !r.TimedOut? && Settled(w, r, None, reply)
    ensures r.Pending? ==> w.p.pc[w.id] == SpinSwap(None, reply)
  {
    hide Apply, Enabled, Init, Possible, Exec, Calls, Undisturbed, CanGo, HeldUp, Owns, Thread.Valid, Thread.View;
    hide Foreign, Spurts, SpuriousIn;
    while true
      invariant w.Ran([]) && w.p.pc[w.id] == SpinSwap(None, reply)
      decreases |w.p.schedule|
    {
      var was := w.Swap();
      if !was { return Locked; }
      if w.p.schedule == [] {
        SpinIsSettled(w);
        return Pending;
      }
      w.Others();
    }
  }

  method LockSpin<T>(w: Thread<T>) returns (r: Acquisition)
    requires w.Valid() && w.p.pc[w.id].Out?
    modifies w.m, w.c, w.p
    ensures w.Ran([Lock(w.id, Spinning, None)]) && !r.TimedOut? && Settled(w, r, None, Fresh)
    ensures r.Locked? ==> Owns(w)
  {
    hide Apply, Enabled, Init, Possible, Exec, Calls, Undisturbed, CanGo, HeldUp, Owns, Thread.Valid, Thread.View;
    hide Foreign, Spurts, SpuriousIn;
    w.Begin(Lock(w.id, Spinning, None));
    r := SpinLoop(w, Fresh);
    if r.Locked? { OwnsIt(w); }
  }

  /** It gives up only after the deadline, and after a swap that another thread's guard refused. */
  method LockSpinTimeout<T>(w: Thread<T>, deadline: nat) returns (r: Acquisition)
    requires w.Valid() && w.p.pc[w.id].Out?
    modifies w.m, w.c, w.p
    ensures w.Ran([Lock(w.id, Spinning, Some(deadline))]) && Settled(w, r, Some(deadline), Fresh)
    ensures r.Locked? ==> Owns(w)
    ensures r.TimedOut? ==> exists at :: old(|w.p.trace|) <= at && Refused(w, at)
  {
    hide Apply, Enabled, Init, Possible, Exec, Calls, Undisturbed, CanGo, HeldUp, Owns, HeldByAnother;
    hide Foreign, Spurts, SpuriousIn;
    hide Thread.Valid, Thread.View;
    w.Begin(Lock(w.id, Spinning, Some(deadline)));
    while true
      invariant w.Ran([Lock(w.id, Spinning, Some(deadline))]) && w.p.pc[w.id] == SpinSwap(Some(deadline), Fresh)
      decreases |w.p.schedule|
    {
      ghost var run := w.p.trace;
      if w.m.dataLock { SomeoneHolds(w); }
      var was := w.Swap();
      if !was { OwnsIt(w); return Locked; }
      var expired := w.LockExpired();
      if expired {
        assert w.p.trace[..|run|] == run;
        assert Refused(w, |run|);
        return TimedOut;
      }
      if w.p.schedule == [] {
        SpinIsSettled(w);
        return Pending;
      }
      w.Others();
    }
  }

  /** What one round of a blocking acquisition comes to: the lock, a park that returned for whatever
      reason, or a park that has not returned. */
  datatype Round = Acquired | Woken | Parked

  /** One round: the attempt or the push in one critical section of the list, then the park. */
  method AcquireOrPark<T>(w: Thread<T>) returns (r: Round)
    requires w.Valid() && w.p.pc[w.id].BlockEnter?
    modifies w.m, w.c, w.p
    ensures w.Ran([])
    ensures var at := old(w.p.pc[w.id]);
            match r
            case Acquired => w.p.pc[w.id] == In(at.reply)
            case Woken =>
              && w.p.pc[w.id] == EnterBlock(at.dl, at.reply)
              && (|w.p.schedule| < old(|w.p.schedule|)
                  || (w.p.schedule == old(w.p.schedule) && old(w.p.token[w.id]) && !w.p.token[w.id])
                  || (w.p.schedule == old(w.p.schedule) && at.dl.Some? && old(w.p.clock) >= at.dl.value))
            case Parked =>
              && w.p.pc[w.id] == BlockPark(at.dl, at.reply) && Settled(w, Pending, at.dl, at.reply) && !w.p.token[w.id]
              && (at.dl.Some? ==> w.p.clock < at.dl.value)
              && exists u :: 0 <= u < |w.p.pc| && u != w.id && Rescues(w.p.pc[u], w.id)
  {
    hide Apply, Enabled, Init, Possible, Exec, Calls, Undisturbed, CanGo, HeldUp, Owns, Thread.Valid, Thread.View;
    hide Foreign, Spurts, SpuriousIn;
    var dl := w.p.pc[w.id].dl;
    w.Others();
    var ok := w.TryLockOrPush();
    if ok { return Acquired; }
    var woke := w.Park(dl);
    if woke { return Woken; }
    ParkedIsSettled(w);
    IsRescued(w);
    return Parked;
  }

  lemma IsRescued<T>(w: Thread<T>)
    requires w.Valid() && w.p.pc[w.id].BlockPark? && !w.p.token[w.id]
    ensures exists u :: 0 <= u < |w.p.pc| && u != w.id && Rescues(w.p.pc[u], w.id)
  {
    w.Sound();
    ParkedIsRescued(w.View(), w.id);
  }

  /** `lock_block`'s loop, also as the re-acquisition of a wait. */
  method BlockLoop<T>(w: Thread<T>, reply: Reply) returns (r: Acquisition)
    requires w.Valid() && w.p.pc[w.id] == BlockEnter(None, reply)
    modifies w.m, w.c, w.p
    ensures w.Ran([]) && !r.TimedOut? && Settled(w, r, None, reply)
    ensures r.Pending? ==> w.p.pc[w.id] == BlockPark(None, reply) && !w.p.token[w.id]
                           && exists u :: 0 <= u < |w.p.pc| && u != w.id && Rescues(w.p.pc[u], w.id)
  {
    hide Apply, Enabled, Init, Possible, Exec, Calls, Undisturbed, CanGo, HeldUp, Owns, Thread.Valid, Thread.View;
    hide Foreign, Spurts, SpuriousIn;
    while true
      invariant w.Ran([]) && w.p.pc[w.id] == BlockEnter(None, reply)
      decreases |w.p.schedule|, Bit(w.p.token[w.id])
    {
      var round := AcquireOrPark(w);
      match round
      case Acquired => return Locked;
      case Parked => return Pending;
      case Woken =>
    }
  }

  method LockBlock<T>(w: Thread<T>) returns (r: Acquisition)
    requires w.Valid() && w.p.pc[w.id].Out?
    modifies w.m, w.c, w.p
    ensures w.Ran([Lock(w.id, Blocking, None)]) && !r.TimedOut? && Settled(w, r, None, Fresh)
    ensures r.Locked? ==> Owns(w)
    ensures r.Pending? ==> exists u :: 0 <= u < |w.p.pc| && u != w.id && Rescues(w.p.pc[u], w.id)
  {
    hide Apply, Enabled, Init, Possible, Exec, Calls, Undisturbed, CanGo, HeldUp, Owns, Thread.Valid, Thread.View;
    hide Foreign, Spurts, SpuriousIn;
    w.Begin(Lock(w.id, Blocking, None));
    r := BlockLoop(w, Fresh);
    if r.Locked? { OwnsIt(w); }
  }

  /** The deadline has passed: "try one last time". */
  method LastAttempt<T>(w: Thread<T>, deadline: nat) returns (r: Acquisition)
    requires w.Valid() && w.p.pc[w.id].LastTry? && w.p.clock >= deadline
    modifies w.m, w.c, w.p
    ensures w.Ran([]) && !r.Pending? && Settled(w, r, Some(deadline), Fresh)
    ensures if r.Locked? then Owns(w) else exists at :: old(|w.p.trace|) <= at && Refused(w, at)
  {
    hide Apply, Enabled, Init, Possible, Exec, Calls, Undisturbed, CanGo, HeldUp, Owns, Refused;
    hide Thread.Valid, Thread.View;
    hide Foreign, Spurts, SpuriousIn;
    var ok := Attempt(w);
    r := if ok then Locked else TimedOut;
  }

  method LockBlockTimeout<T>(w: Thread<T>, deadline: nat) returns (r: Acquisition)
    requires w.Valid() && w.p.pc[w.id].Out?
    modifies w.m, w.c, w.p
    ensures w.Ran([Lock(w.id, Blocking, Some(deadline))]) && Settled(w, r, Some(deadline), Fresh)
    ensures r.Locked? ==> Owns(w)
    ensures r.TimedOut? ==> exists at :: old(|w.p.trace|) <= at && Refused(w, at)
    ensures r.Pending? ==> !w.p.token[w.id] && w.p.clock < deadline
                           && exists u :: 0 <= u < |w.p.pc| && u != w.id && Rescues(w.p.pc[u], w.id)
  {
    hide Apply, Enabled, Init, Possible, Exec, Calls, Undisturbed, CanGo, HeldUp, Owns, Refused;
    hide Thread.Valid, Thread.View;
    hide Foreign, Spurts, SpuriousIn;
    w.Begin(Lock(w.id, Blocking, Some(deadline)));
    while true
      invariant w.Ran([Lock(w.id, Blocking, Some(deadline))]) && w.p.pc[w.id] == BlockClock(deadline, Fresh)
      decreases |w.p.schedule|, Bit(w.p.token[w.id])
    {
      w.Others();
      var expired := w.LockExpired();
      if expired {
        r := LastAttempt(w, deadline);
        return;
      }
      var round := AcquireOrPark(w);
      match round
      case Acquired => OwnsIt(w); return Locked;
      case Parked => return Pending;
      case Woken =>
    }
  }

  lemma {:induction false} TaskRun<T>(s: State<T>, es: seq<Step<T>>)
    requires TaskInv(s) && Possible(s, es)
    ensures TaskInv(Exec(s, es))
    decreases |es|
  {
    hide Apply, Enabled;
    if es != [] {
      WfStep(s, es[0]);
      TaskStep(s, es[0]);
      TaskRun(Apply(s, es[0]), es[1..]);
    }
  }

  /** A continuation that is still to be made has not been sent. */
  lemma NewIsUnsent<T>(w: Thread<T>)
    requires w.Valid()
    ensures w.p.next !in w.p.fired
  {
    TaskRun(w.p.origin, w.p.trace);
    assert Entry(w.View(), w.p.next);
  }

  /** The caller awaits its continuation, which is unsent, and another thread will free the lock, take the list of
      continuations, or send this one. */
  ghost predicate TaskHelped<T>(w: Thread<T>)
    requires w.Valid()
    reads w.m, w.c, w.p
  {
    && w.p.pc[w.id].TaskPoll? && w.p.pc[w.id].id !in w.p.fired
    && exists u :: 0 <= u < |w.p.pc| && u != w.id
                   && (Holds(w.p.pc[u]) || OwesTasks(w.p.pc[u]) || w.p.pc[w.id].id in Sends(w.p.pc[u]))
  }

  /** `lock_async`, and with a deadline `lock_async_timeout`. It polls its continuation; with a
      deadline it then polls the timer's. */
  method LockAsync<T>(w: Thread<T>, dl: Deadline) returns (r: Acquisition)
    requires w.Valid() && w.p.pc[w.id].Out?
    modifies w.m, w.c, w.p
    ensures w.Ran([Lock(w.id, Tasking, dl)]) && Settled(w, r, dl, Fresh)
    ensures r.Locked? ==> Owns(w)
    ensures r.TimedOut? ==> exists at :: old(|w.p.trace|) <= at && Refused(w, at)
    ensures r.Pending? ==> TaskHelped(w)
  {
    hide Apply, Enabled, Init, Possible, Exec, Calls, Undisturbed, CanGo, HeldUp, Owns, Refused, Settled, TaskHelped;
    hide Foreign, Spurts, SpuriousIn;
    hide Thread.Valid, Thread.View;
    w.Begin(Lock(w.id, Tasking, dl));
    while true
      invariant w.Ran([Lock(w.id, Tasking, dl)]) && w.p.pc[w.id] == EnterTask(dl, Fresh)
      decreases |w.p.schedule|
    {
      w.Others();
      if dl.Some? {
        var expired := w.LockExpired();
        if expired {
          r := LastAttempt(w, dl.value);
          return;
        }
      }
      var done := LockOrAwait(w, dl);
      if done.Some? { return done.value; }
    }
  }

  /** The attempt or the push in one critical section of the list, then the continuation. No result means that it was
      sent. */
  method LockOrAwait<T>(w: Thread<T>, dl: Deadline) returns (r: Option<Acquisition>)
    requires w.Valid() && w.p.pc[w.id] == TaskEnter(dl, Fresh)
    modifies w.m, w.c, w.p
    ensures w.Ran([])
    ensures match r
            case None => w.p.pc[w.id] == EnterTask(dl, Fresh) && |w.p.schedule| < old(|w.p.schedule|)
            case Some(a) => Settled(w, a, dl, Fresh) && (a.Locked? ==> Owns(w)) && (a.Pending? ==> TaskHelped(w))
    ensures r == Some(TimedOut) ==> exists at :: old(|w.p.trace|) <= at && Refused(w, at)
  {
    hide Apply, Enabled, Init, Possible, Exec, Calls, Undisturbed, CanGo, HeldUp, Owns, HeldByAnother;
    hide Foreign, Spurts, SpuriousIn;
    hide Thread.Valid, Thread.View;
    NewIsUnsent(w);
    ghost var run := w.p.trace;
    if w.m.dataLock { SomeoneHolds(w); }
    var ok := w.TryLockOrPushTask();
    if ok {
      OwnsIt(w);
      return Some(Locked);
    }
    var a := AwaitTask(w, dl);
    assert w.p.trace[..|run|] == run;
    assert Refused(w, |run|);
    r := if a.Locked? then None else Some(a);
  }

  /** `receiver.await`, or `Race`, which polls the continuation before the timer. */
  method AwaitTask<T>(w: Thread<T>, dl: Deadline) returns (r: Acquisition)
    requires w.Valid() && w.p.pc[w.id].TaskPoll? && w.p.pc[w.id].dl == dl && w.p.pc[w.id].reply == Fresh
    requires w.p.pc[w.id].id !in w.p.fired
    modifies w.m, w.c, w.p
    ensures w.Ran([])
    ensures if r.Locked? then w.p.pc[w.id] == EnterTask(dl, Fresh) && |w.p.schedule| < old(|w.p.schedule|)
            else Settled(w, r, dl, Fresh)
    ensures r.Pending? ==> TaskHelped(w)
  {
    hide Apply, Enabled, Init, Possible, Exec, Calls, Undisturbed, CanGo, HeldUp, Owns, Thread.Valid, Thread.View;
    hide Foreign, Spurts, SpuriousIn;
    var sender := w.p.pc[w.id].id;
    while true
      invariant w.Ran([]) && w.p.pc[w.id] == TaskPoll(sender, dl, Fresh)
      invariant |w.p.schedule| < old(|w.p.schedule|) || sender !in w.p.fired
      decreases |w.p.schedule|
    {
      if sender in w.p.fired {
        w.Polled();
        return Locked;
      }
      if dl.Some? {
        w.NotYet();
        var expired := w.LockExpired();
        if expired { return TimedOut; }
      }
      if w.p.schedule == [] {
        UnsentIsSettled(w);
        return Pending;
      }
      w.Others();
    }
  }

  lemma UnsentIsSettled<T>(w: Thread<T>)
    requires w.Valid() && w.p.pc[w.id].TaskPoll? && w.p.pc[w.id].id !in w.p.fired && Ahead(w.p.pc[w.id].dl, w.p.clock)
    ensures Acquires(w.p.pc[w.id]) && HeldUp(w.View(), w.id) && (w.p.pc[w.id].dl.None? ==> !CanGo(w.View(), w.id))
    ensures TaskHelped(w)
  {
    w.Sound();
    AwaitedIsRescued(w.View(), w.id, w.p.pc[w.id].id);
  }

  // ------------------------------------------------------------ the guard's drop

  /** The actions of `Guard::drop`: clear the lock, then `did_unlock`. */
  method ReleaseLock<T>(w: Thread<T>)
    requires w.Valid() && w.p.pc[w.id].Release?
    modifies w.m, w.c, w.p
    ensures w.Ran([]) && w.p.pc[w.id] == Proceed(old(w.p.pc[w.id].after))
  {
    hide Apply, Enabled, Init, Possible, Exec, Calls, Undisturbed, Owns, Thread.Valid, Thread.View, Proceed;
    hide Foreign, Spurts, SpuriousIn;
    w.ClearLock();
    w.Others();
    DidUnlock(w);
  }

  /** Take and wake one list after the other. */
  method DidUnlock<T>(w: Thread<T>)
    requires w.Valid() && w.p.pc[w.id].TakeThreads?
    modifies w.m, w.c, w.p
    ensures w.Ran([]) && w.p.pc[w.id] == Proceed(old(w.p.pc[w.id].after))
  {
    hide Apply, Enabled, Init, Possible, Exec, Calls, Undisturbed, Owns, Thread.Valid, Thread.View, Proceed;
    hide Foreign, Spurts, SpuriousIn;
    var threads := w.TakeLockThreads();
    w.SignalEach(threads);
    w.Others();
    var senders := w.TakeLockTasks();
    w.SignalEach(senders);
  }

  method DropGuard<T>(w: Thread<T>)
    requires w.Valid() && w.p.pc[w.id].In?
    modifies w.m, w.c, w.p
    ensures w.Ran([Unlock(w.id)]) && w.p.pc[w.id].Out?
  {
    hide Apply, Enabled, Init, Possible, Exec, Calls, Undisturbed, CanGo, HeldUp, Owns, Thread.Valid, Thread.View;
    hide Foreign, Spurts, SpuriousIn;
    w.Begin(Unlock(w.id));
    ReleaseLock(w);
  }

  // ------------------------------------------------------------ lock_sync and with_mut_sync

  /** `lock_sync` as the re-acquisition of a wait: it spins or blocks, as the platform allows. */
  method Reacquire<T>(w: Thread<T>, sync: Sync, timedOut: bool) returns (r: Acquisition)
    requires w.Valid() && w.p.pc[w.id] == Relock(sync, timedOut)
    modifies w.m, w.c, w.p
    ensures w.Ran([]) && !r.TimedOut? && Settled(w, r, None, Waited(timedOut))
    ensures r.Locked? ==> Owns(w)
    ensures r.Pending? ==> Report(w.p.pc[w.id]) == Some(timedOut)
  {
    hide Apply, Enabled, Init, Possible, Exec, Calls, Undisturbed, CanGo, HeldUp, Owns, Thread.Valid, Thread.View;
    hide Foreign, Spurts, SpuriousIn;
    if sync.SyncSpin? {
      r := SpinLoop(w, Waited(timedOut));
    } else {
      r := BlockLoop(w, Waited(timedOut));
    }
    if r.Locked? { OwnsIt(w); }
  }

  function HowOf(sync: Sync): How { if sync.SyncSpin? then Spinning else Blocking }

  method LockSync<T>(w: Thread<T>, sync: Sync) returns (r: Acquisition)
    requires w.Valid() && w.p.pc[w.id].Out?
    modifies w.m, w.c, w.p
    ensures w.Ran([Lock(w.id, HowOf(sync), None)]) && !r.TimedOut? && Settled(w, r, None, Fresh)
    ensures r.Locked? ==> Owns(w)
  {
    if sync.SyncSpin? {
      r := LockSpin(w);
    } else {
      r := LockBlock(w);
    }
  }

  /** The critical sections so far, in the order in which they acquired the lock. */
  ghost function Order<T>(w: Thread<T>): seq<Section<T>>
    requires w.Valid()
    reads w.m, w.c, w.p
  {
    Sections(w.p.origin, w.p.trace, [])
  }

  /** What holds of the run when `run` was all of it. */
  ghost predicate Extends<T>(w: Thread<T>, run: seq<Step<T>>, calls: seq<Step<T>>)
    requires w.Valid()
    reads w.m, w.c, w.p
  {
    && run <= w.p.trace && Possible(w.p.origin, run)
    && Calls(w.p.trace, w.id) == Calls(run, w.id) + calls && forall e :: e in calls ==> !e.Store?
  }

  lemma WentOnSince<T>(w: Thread<T>, run: seq<Step<T>>, calls: seq<Step<T>>)
    requires w.Valid() && Extends(w, run, calls)
    ensures w.p.trace == run + w.p.trace[|run|..] && WentOn(w.p.origin, run, w.p.trace[|run|..], w.id)
  {
    hide Apply, Enabled, Init, Possible, Exec, Calls;
    hide Foreign, Spurts, SpuriousIn;
    var more := w.p.trace[|run|..];
    assert w.p.trace == run + more;
    CallsConcat(run, more, w.id);
    var before := Calls(run, w.id);
    assert Calls(more, w.id) == (before + Calls(more, w.id))[|before|..] == (before + calls)[|before|..] == calls;
    assert w.View().pc == w.p.pc;
    InitInv(|w.p.origin.pc|, w.p.origin.lock.value);
  }

  /** Back with the guard, and nothing written: the thread's section is the last. */
  lemma IsLast<T>(w: Thread<T>, run: seq<Step<T>>, calls: seq<Step<T>>)
    requires w.Valid() && Extends(w, run, calls) && Holds(w.p.pc[w.id])
    requires w.id < |Exec(w.p.origin, run).pc| && !Holds(Exec(w.p.origin, run).pc[w.id])
    ensures |Sections(w.p.origin, run, [])| < |Order(w)| && Last(Order(w)) == Section(w.id, w.m.inner, w.m.inner)
  {
    hide Apply, Enabled, Init, Calls;
    hide Foreign, Spurts, SpuriousIn;
    WentOnSince(w, run, calls);
    Enters(w.p.origin, run, w.p.trace[|run|..], w.id);
  }

  /** After its last write, the section stands. */
  lemma StillThere<T>(w: Thread<T>, run: seq<Step<T>>, calls: seq<Step<T>>, at: nat)
    requires w.Valid() && Extends(w, run, calls)
    requires at < |Sections(w.p.origin, run, [])| && Sections(w.p.origin, run, [])[at].t == w.id
    ensures at < |Order(w)| && Order(w)[at] == Sections(w.p.origin, run, [])[at]
  {
    hide Apply, Enabled, Init, Calls;
    hide Foreign, Spurts, SpuriousIn;
    WentOnSince(w, run, calls);
    Stands(|w.p.origin.pc|, w.p.origin.lock.value, run, w.p.trace[|run|..], w.id, at);
  }

  /** What `with_mut_sync` reads under the guard, and its place in the acquisition order. */
  method Read<T>(w: Thread<T>, ghost run: seq<Step<T>>, ghost calls: seq<Step<T>>) returns (data: T, ghost at: nat)
    requires w.Valid() && w.p.pc[w.id].In? && Extends(w, run, calls)
    requires w.id < |Exec(w.p.origin, run).pc| && !Holds(Exec(w.p.origin, run).pc[w.id])
    modifies w.m, w.c, w.p
    ensures w.Paused() && data == w.m.inner
    ensures |Sections(w.p.origin, run, [])| <= at == |Order(w)| - 1 && Order(w)[at] == Section(w.id, data, data)
  {
    hide Apply, Enabled, Init, Possible, Exec, Calls, CanGo, Sections;
    hide Foreign, Spurts, SpuriousIn;
    data := w.m.inner;
    w.Others();
    IsLast(w, run, calls);
    at := |Order(w)| - 1;
  }

  /** The write through the guard. */
  method Write<T>(w: Thread<T>, v: T, ghost at: nat)
    requires w.Valid() && w.p.pc[w.id].In? && at == |Order(w)| - 1 && Order(w)[at].t == w.id
    modifies w.m, w.p
    ensures w.Did(Step.Store(w.id, v)) && w.p.pc == old(w.p.pc)
    ensures Order(w) == old(Order(w))[at := old(Order(w)[at]).(after := v)]
  {
    hide Advance, Init, Possible, Exec, Calls, CanGo, Sections;
    hide Foreign, Spurts, SpuriousIn;
    SectionsSnoc(w.p.origin, w.p.trace, Step.Store(w.id, v), []);
    w.Store(v);
  }

  /** The drop of the guard leaves the section as it is. */
  method Finish<T>(w: Thread<T>, ghost at: nat)
    requires w.Valid() && w.p.pc[w.id].In? && at < |Order(w)| && Order(w)[at].t == w.id
    modifies w.m, w.c, w.p
    ensures w.Ran([Unlock(w.id)]) && w.p.pc[w.id].Out?
    ensures at < |Order(w)| && Order(w)[at] == old(Order(w)[at])
  {
    hide Apply, Enabled, Init, Possible, Exec, Calls, CanGo, Sections, Undisturbed;
    hide Foreign, Spurts, SpuriousIn;
    ghost var run := w.p.trace;
    w.Others();
    DropGuard(w);
    StillThere(w, run, [Unlock(w.id)], at);
  }

  /** `with_mut_sync`: the closure's effect is atomic, and is one critical section of the acquisition order. The
      section found the value that the closure was applied to, and left the one that the closure returned, though
      others ran in between. */
  method WithMutSync<T, R>(w: Thread<T>, sync: Sync, f: T -> (T, R))
    returns (result: Option<R>, ghost before: T, ghost at: nat)
    requires w.Valid() && w.p.pc[w.id].Out?
    modifies w.m, w.c, w.p
    ensures result.Some?
            ==> && w.Ran([Lock(w.id, HowOf(sync), None), Store(w.id, f(before).0), Unlock(w.id)])
                && w.p.pc[w.id].Out? && result.value == f(before).1
                && old(|Order(w)|) <= at < |Order(w)| && Order(w)[at] == Section(w.id, before, f(before).0)
    ensures result.None? ==> w.Ran([Lock(w.id, HowOf(sync), None)]) && w.p.schedule == [] && !CanGo(w.View(), w.id)
  {
    hide Apply, Enabled, Init, Possible, Exec, Calls, CanGo, Owns, Sections;
    hide Foreign, Spurts, SpuriousIn;
    ghost var run := w.p.trace;
    var r := LockSync(w, sync);
    before, at := w.m.inner, 0;
    if !r.Locked? { return None, before, at; }
    var data;
    data, at := Read(w, run, [Lock(w.id, HowOf(sync), None)]);
    before := data;
    var out := f(data);
    Write(w, out.0, at);
    Finish(w, at);
    return Some(out.1), before, at;
  }
}
