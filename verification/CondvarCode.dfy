/** The condition variable's own code: the blocking and spinning waits, their timed and predicate forms,
    and the two notifications. */
module CondvarCode {
  import opened Basics
  import opened Monitor
  import opened MonitorSteps
  import opened MonitorSafety
  import opened MonitorRuns
  import opened MonitorEntries
  import opened MonitorExact
  import opened MonitorNotifyOne
  import opened MonitorAlone
  import opened MonitorLimits
  import opened MonitorTasks
  import opened Threads
  import opened MutexCode

  /** A wait that is `Unfinished` goes on when the schedule does. */
  datatype Return = Back(timedOut: bool) | Unfinished

  /** How a wait leaves its thread. It returns with the lock, and it reports a timeout only once the
      deadline has passed. One that has not returned is held up, inside its wait or on its way back. */
  ghost predicate Returned<T>(w: Thread<T>, r: Return, dl: Deadline)
    requires w.Valid()
    reads w.m, w.c, w.p
  {
    match r
    case Back(timedOut) =>
      && w.p.pc[w.id] == In(Waited(timedOut)) && Owns(w)
      && (timedOut ==> dl.Some? && w.p.clock >= dl.value)
    case Unfinished =>
      && w.p.schedule == [] && HeldUp(w.View(), w.id)
      && (if dl.None? then !CanGo(w.View(), w.id) else WaitsBy(w.p.pc[w.id], dl.value, w.p.clock))
  }

  /** Parked without its token, and with time left. */
  lemma StaysParked<T>(w: Thread<T>, dl: Deadline)
    requires w.Valid() && w.p.schedule == [] && !w.p.token[w.id] && Ahead(dl, w.p.clock)
    requires w.p.pc[w.id].CvPark? || w.p.pc[w.id].CvParkUntil?
    requires dl == ParkLimit(w.p.pc[w.id])
    ensures Returned(w, Unfinished, dl)
  {
  }

  /** Its flag not stored, and with time left or withdrawn too late. */
  lemma StaysSpinning<T>(w: Thread<T>, dl: Deadline)
    requires w.Valid() && w.p.schedule == [] && w.p.pc[w.id].CvSpin? && w.p.pc[w.id].id !in w.p.flags
    requires Ahead(w.p.pc[w.id].dl, w.p.clock)
    requires dl == w.p.pc[w.id].dl || (w.p.pc[w.id].dl.None? && dl.Some? && w.p.clock >= dl.value)
    ensures Returned(w, Unfinished, dl)
  {
  }

  /** Re-acquisition, whatever it was that ended the wait. */
  method Finish<T>(w: Thread<T>, sync: Sync, timedOut: bool, dl: Deadline) returns (r: Return)
    requires w.Valid() && w.p.pc[w.id] == Relock(sync, timedOut)
    requires timedOut ==> dl.Some? && w.p.clock >= dl.value
    modifies w.m, w.c, w.p
    ensures w.Ran([]) && Returned(w, r, dl) && (r.Back? ==> r.timedOut == timedOut)
  {
    hide Apply, Enabled, Init, Possible, Exec, Calls, CanGo, Owns, Thread.Valid, Thread.View;
    hide Foreign, Spurts, SpuriousIn;
    w.Others();
    var l := Reacquire(w, sync, timedOut);
    if l.Pending? { return Unfinished; }
    r := Back(timedOut);
  }

  /** The values that the lock held just before each of this thread's stores. */
  ghost function Found<T>(w: Thread<T>): seq<T>
    requires w.Valid()
    reads w.m, w.c, w.p
  {
    FoundIn(w.p.origin, w.p.trace, w.id)
  }

  /** The wake-ups of its park that this thread can have without the others. */
  ghost function Waking<T>(w: Thread<T>): nat
    requires w.Valid()
    reads w.m, w.c, w.p
  {
    Wakes(w.View(), w.id)
  }

  /** What the calls `calls` add to them. */
  twostate lemma Since<T>(w: Thread<T>, new calls: seq<Step<T>>)
    requires old(w.Valid()) && w.Ran(calls)
    ensures old(w.p.trace) <= w.p.trace
    ensures var more := w.p.trace[|old(w.p.trace)|..];
            && Possible(old(w.View()), more) && Exec(old(w.View()), more) == w.View() && Calls(more, w.id) == calls
            && Found(w) == old(Found(w)) + FoundIn(old(w.View()), more, w.id)
            && (old(w.p.schedule) == [] ==> Foreign(more, w.id) == [] && Spurts(more, w.id) == 0)
  {
    hide Apply, Enabled, Init, Calls, Foreign, Spurts, FoundIn;
    var before, more := old(w.p.trace), w.p.trace[|old(w.p.trace)|..];
    assert w.p.trace == before + more;
    ExecSplit(w.p.origin, before, more);
    FoundConcat(w.p.origin, before, more, w.id);
    CallsConcat(before, more, w.id);
    CountsConcat(before, more, w.id);
    assert Calls(more, w.id) == (Calls(before, w.id) + Calls(more, w.id))[|Calls(before, w.id)|..] == calls;
    if old(w.p.schedule) == [] {
      assert Foreign(more, w.id) == (Foreign(before, w.id) + Foreign(more, w.id))[|Foreign(before, w.id)|..] == [];
    }
  }

  /** A wait stores nothing; and once the schedule is over, one that comes back as notified has cost the thread a
      wake-up that it had. */
  twostate lemma Waits<T>(w: Thread<T>, new req: Request, new r: Return)
    requires old(w.Valid()) && w.Ran([Wait(w.id, req)]) && old(w.p.pc[w.id].In?)
    requires r.Back? ==> w.p.pc[w.id] == In(Waited(r.timedOut))
    ensures Found(w) == old(Found(w))
    ensures old(w.p.schedule) == [] && r == Back(false) ==> Waking(w) < old(Waking(w))
  {
    hide Apply, Enabled, Init, Calls, Foreign, Spurts, FoundIn, Wakes;
    Since(w, [Wait(w.id, req)]);
    var more := w.p.trace[|old(w.p.trace)|..];
    FoundNothing(old(w.View()), more, w.id);
    if old(w.p.schedule) == [] && r == Back(false) {
      InvReachable(|w.p.origin.pc|, w.p.origin.lock.value, old(w.p.trace));
      NoTasks(|w.p.origin.pc|, w.p.origin.lock.value);
      TaskRun(w.p.origin, old(w.p.trace));
      NewIsUnsignalled(old(w.View()));
      WaitsAlone(old(w.View()), req, more, w.id);
      WaitCostsWakeup(old(w.View()), req, more[1..], w.id);
    }
  }

  /** It returns once its thread was unparked, or as often as the schedule has a spurious return. */
  method WaitBlock<T>(w: Thread<T>, sync: Sync) returns (r: Return)
    requires w.Valid() && w.p.pc[w.id].In?
    modifies w.m, w.c, w.p
    ensures w.Ran([Wait(w.id, Request.WaitBlock(sync))]) && Returned(w, r, None)
    ensures r.Back? && SpuriousIn(w.p.schedule) == old(SpuriousIn(w.p.schedule))
            ==> exists at :: old(|w.p.trace|) <= at && w.TookToken(at, CvPark(sync))
    ensures |w.p.schedule| < old(|w.p.schedule|) || w.p.schedule == []
    ensures old(w.p.schedule) == [] && r == Back(false) ==> Waking(w) < old(Waking(w))
    ensures Found(w) == old(Found(w))
  {
    hide Apply, Enabled, Init, Possible, Exec, Calls, Undisturbed, CanGo, Owns, Thread.Valid, Thread.View;
    hide Foreign, Spurts, SpuriousIn;
    // register this thread before releasing the lock
    w.Others();
    w.PushThread(Request.WaitBlock(sync));
    w.Others();
    ReleaseLock(w);
    r := UntilUnparked(w, sync);
    Waits(w, Request.WaitBlock(sync), r);
  }

  /** The park, and the lock again. */
  method UntilUnparked<T>(w: Thread<T>, sync: Sync) returns (r: Return)
    requires w.Valid() && w.p.pc[w.id] == CvPark(sync)
    modifies w.m, w.c, w.p
    ensures w.Ran([]) && Returned(w, r, None)
    ensures r.Back? && SpuriousIn(w.p.schedule) == old(SpuriousIn(w.p.schedule))
            ==> exists at :: old(|w.p.trace|) <= at && w.TookToken(at, CvPark(sync))
  {
    hide Apply, Enabled, Init, Possible, Exec, Calls, Undisturbed, CanGo, Owns, Thread.Valid, Thread.View;
    hide Foreign, Spurts, SpuriousIn, Thread.TookToken;
    var woke := w.Park(None);
    if !woke {
      StaysParked(w, None);
      return Unfinished;
    }
    ghost var at, left := |w.p.trace| - 1, SpuriousIn(w.p.schedule);
    label parked:
    r := Finish(w, sync, false, None);
    if left == old(SpuriousIn(w.p.schedule)) { w.StillTook@parked(at, CvPark(sync)); }
  }

  /** From its registration on, what the thread will report of a timed wait is exact. */
  ghost predicate Exactly<T>(w: Thread<T>)
    requires w.Valid()
    reads w.m, w.c, w.p
  {
    Exact(w.View(), w.id)
  }

  twostate lemma StaysExact<T>(w: Thread<T>)
    requires old(w.Valid()) && w.Ran([]) && old(Exactly(w))
    ensures Exactly(w)
  {
    hide Apply, Enabled, Init, Possible, Exec, Calls, Exact;
    hide Foreign, Spurts, SpuriousIn;
    w.Since();
    var es :| Meanwhile(old(w.View()), w.View(), w.id, es);
    ExactRun(old(w.View()), es, w.id);
  }

  /** No other thread lists this one. */
  twostate lemma StaysUnlisted<T>(w: Thread<T>)
    requires old(w.Valid()) && w.Ran([]) && w.id !in old(w.c.waitingSyncThreads)
    ensures w.id !in w.c.waitingSyncThreads
  {
    hide Apply, Enabled, Init, Possible, Exec, Calls, Exact, Thread.Valid;
    hide Foreign, Spurts, SpuriousIn;
    w.Since();
    var es :| Meanwhile(old(w.View()), w.View(), w.id, es);
    NoNewEntries(old(w.View()), w.View(), w.id, es);
    EntriesIn(old(w.View()), w.id);
    EntriesIn(w.View(), w.id);
  }

  lemma ExactAnswer<T>(w: Thread<T>)
    requires w.Valid() && Exactly(w) && w.p.pc[w.id].In?
    ensures w.id < |w.p.hist.popped| && w.p.pc[w.id] == In(Waited(!w.p.hist.popped[w.id]))
    ensures w.id !in w.c.waitingSyncThreads
  {
    hide Init, Possible, Exec, Calls;
    hide Foreign, Spurts, SpuriousIn;
    EntriesIn(w.View(), w.id);
  }

  method RegisterTimed<T>(w: Thread<T>, deadline: nat, sync: Sync)
    requires w.Valid() && w.p.pc[w.id].In?
    modifies w.c, w.p
    ensures w.Did(Wait(w.id, Request.WaitBlockTimeout(deadline, sync)))
    ensures w.p.pc[w.id] == Release(Resume(OnThreadUntil(deadline, sync)))
    ensures w.id !in old(w.c.waitingSyncThreads) ==> Exactly(w)
  {
    hide Apply, Enabled, Init, Possible, Exec, Calls, Exact;
    hide Foreign, Spurts, SpuriousIn;
    ghost var s := w.View();
    w.PushThread(Request.WaitBlockTimeout(deadline, sync));
    if w.id !in s.cond.threads { RegistersOnce(s, w.id, deadline, sync); }
  }

  /** The rest of `wait_block_timeout`, once the entry is registered. */
  method ReleaseAndWait<T>(w: Thread<T>, deadline: nat, sync: Sync) returns (r: Return)
    requires w.Valid() && w.p.pc[w.id] == Release(Resume(OnThreadUntil(deadline, sync)))
    modifies w.m, w.c, w.p
    ensures w.Ran([]) && Returned(w, r, Some(deadline))
    ensures r.Back? && old(Exactly(w))
            ==> w.id < |w.p.hist.popped| && r.timedOut == !w.p.hist.popped[w.id] && w.id !in w.c.waitingSyncThreads
  {
    hide Apply, Enabled, Init, Possible, Exec, Calls, Undisturbed, CanGo, Owns, Exactly, Thread.Valid, Thread.View;
    hide Foreign, Spurts, SpuriousIn;
    w.Others();
    ReleaseLock(w);
    r := UntilNotified(w, deadline, sync);
    if r.Back? && old(Exactly(w)) {
      StaysExact(w);
      ExactAnswer(w);
    }
  }

  method OthersFirst<T>(w: Thread<T>)
    requires w.Valid()
    modifies w.m, w.c, w.p
    ensures w.Paused() && (w.id !in old(w.c.waitingSyncThreads) ==> w.id !in w.c.waitingSyncThreads)
  {
    hide Apply, Enabled, Init, Possible, Exec, Calls, Undisturbed, Thread.Valid, Thread.View;
    hide Foreign, Spurts, SpuriousIn;
    w.Others();
    if w.id !in old(w.c.waitingSyncThreads) { StaysUnlisted(w); }
  }

  /** If the thread is not listed when it calls, the answer is exact: a timeout if and only if no notifier took the
      entry. */
  method WaitBlockTimeout<T>(w: Thread<T>, deadline: nat, sync: Sync) returns (r: Return)
    requires w.Valid() && w.p.pc[w.id].In?
    modifies w.m, w.c, w.p
    ensures w.Ran([Wait(w.id, Request.WaitBlockTimeout(deadline, sync))]) && Returned(w, r, Some(deadline))
    ensures |w.p.schedule| < old(|w.p.schedule|) || w.p.schedule == []
    ensures old(w.p.schedule) == [] && r == Back(false) ==> Waking(w) < old(Waking(w))
    ensures Found(w) == old(Found(w))
    ensures r.Back? && w.id !in old(w.c.waitingSyncThreads)
            ==> w.id < |w.p.hist.popped| && r.timedOut == !w.p.hist.popped[w.id] && w.id !in w.c.waitingSyncThreads
  {
    hide Apply, Enabled, Init, Possible, Exec, Calls, Undisturbed, CanGo, Owns, Exactly, Thread.Valid, Thread.View;
    hide Foreign, Spurts, SpuriousIn;
    OthersFirst(w);
    RegisterTimed(w, deadline, sync);
    r := ReleaseAndWait(w, deadline, sync);
    Waits(w, Request.WaitBlockTimeout(deadline, sync), r);
  }

  /** The loop of `wait_block_timeout`. */
  method UntilNotified<T>(w: Thread<T>, deadline: nat, sync: Sync) returns (r: Return)
    requires w.Valid() && w.p.pc[w.id] == CvClock(deadline, sync)
    modifies w.m, w.c, w.p
    ensures w.Ran([]) && Returned(w, r, Some(deadline))
  {
    hide Apply, Enabled, Init, Possible, Exec, Calls, Undisturbed, CanGo, Owns, Thread.Valid, Thread.View, Returned;
    hide HeldUp, WaitsBy, Relock, Exactly;
    hide Foreign, Spurts, SpuriousIn;
    while true
      invariant w.Ran([]) && w.p.pc[w.id] == CvClock(deadline, sync)
      decreases |w.p.schedule|, Bit(w.p.token[w.id])
    {
      w.Others();
      var expired := w.WaitExpired();
      if expired {
        r := GiveUp(w, deadline);
        return;
      }
      var woke, notified := ParkAndCheck(w);
      if !woke { return Unfinished; }
      if notified {
        r := Finish(w, sync, false, Some(deadline));
        return;
      }
    }
  }

  /** The park, and the look at the list after it. */
  method ParkAndCheck<T>(w: Thread<T>) returns (woke: bool, notified: bool)
    requires w.Valid() && w.p.pc[w.id].CvParkUntil?
    modifies w.m, w.c, w.p
    ensures w.Ran([])
    ensures var at := old(w.p.pc[w.id]);
            if woke then
              && w.p.pc[w.id] == (if notified then Relock(at.sync, false) else CvClock(at.limit, at.sync))
              && (|w.p.schedule| < old(|w.p.schedule|)
                  || (w.p.schedule == old(w.p.schedule) && old(w.p.token[w.id]) && !w.p.token[w.id])
                  || (w.p.schedule == old(w.p.schedule) && old(w.p.clock) >= at.limit))
            else Returned(w, Unfinished, Some(at.limit))
  {
    hide Apply, Enabled, Init, Possible, Exec, Calls, Undisturbed, CanGo, Thread.Valid, Thread.View;
    hide Foreign, Spurts, SpuriousIn;
    var limit := w.p.pc[w.id].limit;
    woke := w.Park(Some(limit));
    notified := false;
    if !woke {
      StaysParked(w, Some(limit));
    } else {
      w.Others();
      notified := w.CheckListed();
    }
  }

  /** At the deadline: "check one last time". */
  method GiveUp<T>(w: Thread<T>, deadline: nat) returns (r: Return)
    requires w.Valid() && w.p.pc[w.id].CvRemove? && w.p.clock >= deadline
    modifies w.m, w.c, w.p
    ensures w.Ran([]) && Returned(w, r, Some(deadline))
  {
    hide Apply, Enabled, Init, Possible, Exec, Calls, Undisturbed, CanGo, Owns, Thread.Valid, Thread.View, Returned;
    hide Foreign, Spurts, SpuriousIn;
    var sync := w.p.pc[w.id].sync;
    w.Others();
    var notified := w.RemoveThread();
    r := Finish(w, sync, !notified, Some(deadline));
  }

  /** What the answer of a spinning wait on flag `wake` means: a timeout exactly if the wait withdrew the flag, and
      otherwise a notifier took it and stored it. */
  ghost predicate FlagAnswer<T>(w: Thread<T>, wake: Sig, timedOut: bool)
    reads w.p
  {
    && (timedOut <==> wake in w.p.hist.expired) && (timedOut <==> wake !in w.p.hist.taken)
    && (!timedOut ==> wake in w.p.flags) && wake < w.p.next
  }

  ghost predicate WaitsOn<T>(w: Thread<T>, wake: Sig)
    requires w.Valid()
    reads w.m, w.c, w.p
  {
    SpinWaits(w.p.pc[w.id], wake)
  }

  twostate lemma FlagAnswers<T>(w: Thread<T>, new wake: Sig, new timedOut: bool)
    requires old(w.Valid()) && w.Ran([]) && old(WaitsOn(w, wake))
    ensures w.p.pc[w.id] == In(Waited(timedOut)) ==> FlagAnswer(w, wake, timedOut)
  {
    hide Apply, Enabled, Init, Inv, Possible, Exec, Calls;
    hide Foreign, Spurts, SpuriousIn;
    w.Since();
    var es :| Meanwhile(old(w.View()), w.View(), w.id, es);
    InvReachable(|w.p.origin.pc|, w.p.origin.lock.value, old(w.p.trace));
    SpinExactRun(old(w.View()), w.View(), w.id, wake, es);
  }

  /** No flag made since has a name from before. */
  twostate lemma NamesAreNew<T>(w: Thread<T>)
    requires old(w.Valid()) && w.Ran([])
    ensures old(w.p.next) <= w.p.next
  {
    hide Apply, Enabled, Init, Possible, Exec, Calls;
    hide Foreign, Spurts, SpuriousIn;
    w.Since();
    var es :| Meanwhile(old(w.View()), w.View(), w.id, es);
    NamesGrowRun(old(w.View()), w.View(), w.id, es);
  }

  method OthersFirstSpin<T>(w: Thread<T>)
    requires w.Valid()
    modifies w.m, w.c, w.p
    ensures w.Paused() && old(w.p.next) <= w.p.next
  {
    hide Apply, Enabled, Init, Possible, Exec, Calls, Undisturbed, Thread.Valid, Thread.View;
    hide Foreign, Spurts, SpuriousIn;
    w.Others();
    NamesAreNew(w);
  }

  /** The loops of `wait_spin` and `wait_spin_timeout`. */
  method Spin<T>(w: Thread<T>, wake: Sig, dl: Deadline, sync: Sync) returns (r: Return)
    requires w.Valid() && w.p.pc[w.id] == CvSpin(wake, dl, sync)
    modifies w.m, w.c, w.p
    ensures w.Ran([]) && Returned(w, r, dl)
  {
    if dl.Some? {
      r := UntilStoredOrLate(w, wake, dl.value, sync);
    } else {
      r := UntilStored(w, wake, sync, None);
    }
  }

  /** The rest of a spinning wait, once its flag is registered. */
  method ReleaseAndSpin<T>(w: Thread<T>, wake: Sig, dl: Deadline, sync: Sync) returns (r: Return)
    requires w.Valid() && w.p.pc[w.id] == Release(Resume(OnFlag(wake, dl, sync)))
    modifies w.m, w.c, w.p
    ensures w.Ran([]) && Returned(w, r, dl) && (r.Back? ==> FlagAnswer(w, wake, r.timedOut))
  {
    hide Apply, Enabled, Init, Possible, Exec, Calls, Undisturbed, CanGo, Owns, Thread.Valid, Thread.View, FlagAnswer;
    hide Foreign, Spurts, SpuriousIn;
    w.Others();
    ReleaseLock(w);
    r := Spin(w, wake, dl, sync);
    FlagAnswers(w, wake, r.Back? && r.timedOut);
  }

  /** It returns once a notifier has taken its flag and stored it. */
  method WaitSpin<T>(w: Thread<T>, sync: Sync) returns (r: Return)
    requires w.Valid() && w.p.pc[w.id].In?
    modifies w.m, w.c, w.p
    ensures w.Ran([Wait(w.id, Request.WaitSpin(None, sync))]) && Returned(w, r, None)
    ensures |w.p.schedule| < old(|w.p.schedule|) || w.p.schedule == []
    ensures old(w.p.schedule) == [] && r == Back(false) ==> Waking(w) < old(Waking(w))
    ensures Found(w) == old(Found(w))
    ensures r.Back? ==> exists wake :: old(w.p.next) <= wake && FlagAnswer(w, wake, false)
  {
    hide Apply, Enabled, Init, Possible, Exec, Calls, Undisturbed, CanGo, Owns, Thread.Valid, Thread.View, FlagAnswer;
    hide Foreign, Spurts, SpuriousIn;
    OthersFirstSpin(w);
    var wake := w.PushSpin(None, sync);
    r := ReleaseAndSpin(w, wake, None, sync);
    Waits(w, Request.WaitSpin(None, sync), r);
  }

  /** `while !wake.load() {}`, then the lock. */
  method UntilStored<T>(w: Thread<T>, wake: Sig, sync: Sync, dl: Deadline) returns (r: Return)
    requires w.Valid() && w.p.pc[w.id] == CvSpin(wake, None, sync) && (dl.Some? ==> w.p.clock >= dl.value)
    modifies w.m, w.c, w.p
    ensures w.Ran([]) && Returned(w, r, dl) && (r.Back? ==> !r.timedOut)
  {
    hide Apply, Enabled, Init, Possible, Exec, Calls, Undisturbed, CanGo, Owns, Thread.Valid, Thread.View;
    hide Foreign, Spurts, SpuriousIn;
    while true
      invariant w.Ran([]) && w.p.pc[w.id] == CvSpin(wake, None, sync)
      decreases |w.p.schedule|
    {
      var stored := w.LoadFlag();
      if stored {
        r := Finish(w, sync, false, dl);
        return;
      }
      if w.p.schedule == [] {
        StaysSpinning(w, dl);
        return Unfinished;
      }
      w.Others();
    }
  }

  /** The answer is exact, whatever other threads do: a timeout if and only if no notifier took the flag. */
  method WaitSpinTimeout<T>(w: Thread<T>, deadline: nat, sync: Sync) returns (r: Return)
    requires w.Valid() && w.p.pc[w.id].In?
    modifies w.m, w.c, w.p
    ensures w.Ran([Wait(w.id, Request.WaitSpin(Some(deadline), sync))]) && Returned(w, r, Some(deadline))
    ensures |w.p.schedule| < old(|w.p.schedule|) || w.p.schedule == []
    ensures old(w.p.schedule) == [] && r == Back(false) ==> Waking(w) < old(Waking(w))
    ensures Found(w) == old(Found(w))
    ensures r.Back? ==> exists wake :: old(w.p.next) <= wake && FlagAnswer(w, wake, r.timedOut)
  {
    hide Apply, Enabled, Init, Possible, Exec, Calls, Undisturbed, CanGo, Owns, Thread.Valid, Thread.View, FlagAnswer;
    hide Foreign, Spurts, SpuriousIn;
    OthersFirstSpin(w);
    var wake := w.PushSpin(Some(deadline), sync);
    r := ReleaseAndSpin(w, wake, Some(deadline), sync);
    Waits(w, Request.WaitSpin(Some(deadline), sync), r);
  }

  /** The loop of `wait_spin_timeout`. */
  method UntilStoredOrLate<T>(w: Thread<T>, wake: Sig, deadline: nat, sync: Sync) returns (r: Return)
    requires w.Valid() && w.p.pc[w.id] == CvSpin(wake, Some(deadline), sync)
    modifies w.m, w.c, w.p
    ensures w.Ran([]) && Returned(w, r, Some(deadline))
  {
    hide Apply, Enabled, Init, Possible, Exec, Calls, Undisturbed, CanGo, Owns, Thread.Valid, Thread.View, Returned;
    hide HeldUp, WaitsBy, Relock, Exactly;
    hide Foreign, Spurts, SpuriousIn;
    while true
      invariant w.Ran([]) && w.p.pc[w.id] == CvSpin(wake, Some(deadline), sync)
      decreases |w.p.schedule|
    {
      var stored := w.LoadFlag();
      if stored {
        r := Finish(w, sync, false, Some(deadline));
        return;
      }
      var expired := w.WaitExpired();
      if expired {
        r := GiveUpSpin(w, deadline);
        return;
      }
      if w.p.schedule == [] {
        StaysSpinning(w, Some(deadline));
        return Unfinished;
      }
      w.Others();
    }
  }

  /** At the deadline: a flag that is no longer listed will be stored. */
  method GiveUpSpin<T>(w: Thread<T>, deadline: nat) returns (r: Return)
    requires w.Valid() && w.p.pc[w.id].CvSpinRemove? && w.p.clock >= deadline
    modifies w.m, w.c, w.p
    ensures w.Ran([]) && Returned(w, r, Some(deadline))
  {
    hide Apply, Enabled, Init, Possible, Exec, Calls, Undisturbed, CanGo, Owns, Thread.Valid, Thread.View, Returned;
    hide Foreign, Spurts, SpuriousIn;
    var wake, sync := w.p.pc[w.id].id, w.p.pc[w.id].sync;
    w.Others();
    var notified := w.RemoveSpin();
    if notified {
      r := UntilStored(w, wake, sync, Some(deadline));
    } else {
      r := Finish(w, sync, true, Some(deadline));
    }
  }

  // ------------------------------------------------------------ predicate waits

  /** The calls of a predicate wait whose condition was asked of the values `asked`, one after the other: it stores what
      the condition left, and waits if it held. */
  function Asking<T>(asked: seq<T>, t: Tid, req: Request, condition: T -> (T, bool)): seq<Step<T>> {
    if asked == [] then []
    else
      var v := Last(asked);
      Asking(asked[..|asked| - 1], t, req, condition) + [Store(t, condition(v).0)]
      + (if condition(v).1 then [Wait(t, req)] else [])
  }

  /** How a predicate wait ends. Its condition was asked of what the lock held at the call and after each wait; it held
      each time but the last, and the last time too unless that ends the call. A timeout is that of the last wait. */
  ghost predicate Concluded<T>(w: Thread<T>, r: Return, dl: Deadline, asked: seq<T>, condition: T -> (T, bool))
    requires w.Valid()
    reads w.m, w.c, w.p
  {
    && asked != [] && (forall i :: 0 <= i < |asked| - 1 ==> condition(asked[i]).1)
    && (r == Back(false) <==> !condition(Last(asked)).1)
    && (if r == Back(false) then Owns(w) && w.m.inner == condition(Last(asked)).0 else Returned(w, r, dl))
  }

  twostate lemma Stored<T>(w: Thread<T>, new v: T)
    requires w.Did(Store(w.id, v)) && old(w.p.pc[w.id].In?)
    ensures Found(w) == old(Found(w)) + [old(w.m.inner)] && Waking(w) == old(Waking(w))
  {
    hide Possible, Exec, Init, Calls, Foreign, Spurts;
    var e := Store(w.id, v);
    EmptyRun(w.View());
    assert Possible(old(w.View()), [e]) by { OneStep(old(w.View()), e); }
    FoundConcat(w.p.origin, old(w.p.trace), [e], w.id);
    assert FoundIn(old(w.View()), [e], w.id) == [old(w.m.inner)] by { OneStep(old(w.View()), e); }
  }

  lemma OneStep<T>(s: State<T>, e: Step<T>)
    requires Wf(s) && Enabled(s, e) && e.Store?
    ensures Possible(s, [e]) && FoundIn(s, [e], e.t) == [s.lock.value]
  {
    hide Apply;
    WfStep(s, e);
    assert [e][1..] == [];
    EmptyRun(Apply(s, e));
  }

  /** The others go on, and cannot touch what the guard protects. */
  method OthersOutside<T>(w: Thread<T>)
    requires w.Valid() && w.p.pc[w.id].In?
    modifies w.m, w.c, w.p
    ensures w.Paused() && w.m.inner == old(w.m.inner) && Found(w) == old(Found(w))
    ensures old(w.p.schedule) == [] ==> Waking(w) == old(Waking(w))
  {
    hide Apply, Enabled, Init, Possible, Exec, Calls, Foreign, Spurts, SpuriousIn, FoundIn, CanGo, Thread.Valid;
    w.Others();
    Since(w, []);
    FoundNothing(old(w.View()), w.p.trace[|old(w.p.trace)|..], w.id);
    if old(w.p.schedule) == [] {
      assert w.p.trace[|old(w.p.trace)|..] == [];
      EmptyRun(old(w.View()));
    }
  }

  /** The condition on the guarded value, which it may also change. */
  method Evaluate<T>(w: Thread<T>, condition: T -> (T, bool)) returns (more: bool, ghost v: T)
    requires w.Valid() && w.p.pc[w.id].In?
    modifies w.m, w.c, w.p
    ensures w.Ran([Store(w.id, w.m.inner)]) && w.p.pc[w.id] == old(w.p.pc[w.id]) && Owns(w)
    ensures v == old(w.m.inner) && Found(w) == old(Found(w)) + [v] && condition(v) == (w.m.inner, more)
    ensures old(w.p.schedule) == [] ==> Waking(w) == old(Waking(w))
  {
    hide Apply, Enabled, Init, Possible, Exec, Calls, CanGo, Owns, Found, Waking, Thread.Valid, Thread.View;
    hide Foreign, Spurts, SpuriousIn;
    OthersOutside(w);
    v := w.m.inner;
    var out := condition(w.m.inner);
    label before:
    w.Store(out.0);
    Stored@before(w, out.0);
    more := out.1;
    OwnsIt(w);
  }

  method WaitBlockWhile<T>(w: Thread<T>, sync: Sync, condition: T -> (T, bool))
    returns (r: Return, ghost asked: seq<T>)
    requires w.Valid() && w.p.pc[w.id].In?
    modifies w.m, w.c, w.p
    ensures w.Ran(Asking(asked, w.id, Request.WaitBlock(sync), condition))
    ensures Found(w) == old(Found(w)) + asked && Concluded(w, r, None, asked, condition)
  {
    hide Apply, Enabled, Init, Possible, Exec, Calls, Undisturbed, CanGo, HeldUp, WaitsBy, Owns, Found, Waking;
    hide Foreign, Spurts, SpuriousIn, Thread.Valid, Thread.View;
    asked := [];
    while true
      invariant w.Ran(Asking(asked, w.id, Request.WaitBlock(sync), condition)) && w.p.pc[w.id].In?
      invariant Found(w) == old(Found(w)) + asked && forall i :: 0 <= i < |asked| ==> condition(asked[i]).1
      decreases |w.p.schedule|, Waking(w)
    {
      ghost var v;
      var more;
      more, v := Evaluate(w, condition);
      asked := asked + [v];
      assert asked[..|asked| - 1] + [v] == asked;
      if !more { return Back(false), asked; }
      r := WaitBlock(w, sync);
      if r.Unfinished? { return; }
    }
  }

  method WaitBlockTimeoutWhile<T>(w: Thread<T>, deadline: nat, sync: Sync, condition: T -> (T, bool))
    returns (r: Return, ghost asked: seq<T>)
    requires w.Valid() && w.p.pc[w.id].In?
    modifies w.m, w.c, w.p
    ensures w.Ran(Asking(asked, w.id, Request.WaitBlockTimeout(deadline, sync), condition))
    ensures Found(w) == old(Found(w)) + asked && Concluded(w, r, Some(deadline), asked, condition)
  {
    hide Apply, Enabled, Init, Possible, Exec, Calls, Undisturbed, CanGo, HeldUp, WaitsBy, Owns, Found, Waking;
    hide Foreign, Spurts, SpuriousIn, Thread.Valid, Thread.View;
    asked := [];
    while true
      invariant w.Ran(Asking(asked, w.id, Request.WaitBlockTimeout(deadline, sync), condition)) && w.p.pc[w.id].In?
      invariant Found(w) == old(Found(w)) + asked && forall i :: 0 <= i < |asked| ==> condition(asked[i]).1
      decreases |w.p.schedule|, Waking(w)
    {
      ghost var v;
      var more;
      more, v := Evaluate(w, condition);
      asked := asked + [v];
      assert asked[..|asked| - 1] + [v] == asked;
      if !more { return Back(false), asked; }
      r := WaitBlockTimeout(w, deadline, sync);
      if r.Unfinished? || r.timedOut { return; }
    }
  }

  method WaitSpinWhile<T>(w: Thread<T>, sync: Sync, condition: T -> (T, bool))
    returns (r: Return, ghost asked: seq<T>)
    requires w.Valid() && w.p.pc[w.id].In?
    modifies w.m, w.c, w.p
    ensures w.Ran(Asking(asked, w.id, Request.WaitSpin(None, sync), condition))
    ensures Found(w) == old(Found(w)) + asked && Concluded(w, r, None, asked, condition)
  {
    hide Apply, Enabled, Init, Possible, Exec, Calls, Undisturbed, CanGo, HeldUp, WaitsBy, Owns, Found, Waking;
    hide Foreign, Spurts, SpuriousIn, Thread.Valid, Thread.View;
    asked := [];
    while true
      invariant w.Ran(Asking(asked, w.id, Request.WaitSpin(None, sync), condition)) && w.p.pc[w.id].In?
      invariant Found(w) == old(Found(w)) + asked && forall i :: 0 <= i < |asked| ==> condition(asked[i]).1
      decreases |w.p.schedule|, Waking(w)
    {
      ghost var v;
      var more;
      more, v := Evaluate(w, condition);
      asked := asked + [v];
      assert asked[..|asked| - 1] + [v] == asked;
      if !more { return Back(false), asked; }
      r := WaitSpin(w, sync);
      if r.Unfinished? { return; }
    }
  }

  method WaitSpinTimeoutWhile<T>(w: Thread<T>, deadline: nat, sync: Sync, condition: T -> (T, bool))
    returns (r: Return, ghost asked: seq<T>)
    requires w.Valid() && w.p.pc[w.id].In?
    modifies w.m, w.c, w.p
    ensures w.Ran(Asking(asked, w.id, Request.WaitSpin(Some(deadline), sync), condition))
    ensures Found(w) == old(Found(w)) + asked && Concluded(w, r, Some(deadline), asked, condition)
  {
    hide Apply, Enabled, Init, Possible, Exec, Calls, Undisturbed, CanGo, HeldUp, WaitsBy, Owns, Found, Waking;
    hide Foreign, Spurts, SpuriousIn, Thread.Valid, Thread.View;
    asked := [];
    while true
      invariant w.Ran(Asking(asked, w.id, Request.WaitSpin(Some(deadline), sync), condition)) && w.p.pc[w.id].In?
      invariant Found(w) == old(Found(w)) + asked && forall i :: 0 <= i < |asked| ==> condition(asked[i]).1
      decreases |w.p.schedule|, Waking(w)
    {
      ghost var v;
      var more;
      more, v := Evaluate(w, condition);
      asked := asked + [v];
      assert asked[..|asked| - 1] + [v] == asked;
      if !more { return Back(false), asked; }
      r := WaitSpinTimeout(w, deadline, sync);
      if r.Unfinished? || r.timedOut { return; }
    }
  }

  // ------------------------------------------------------------ notify.rs

  /** All that happened since `s` is one whole notification by this thread, among steps of others, and steps of
      others after it: so `MonitorNotifyOne.NotifyOneTakesOne`, or the theorems of `MonitorNotify`, hold of it. */
  ghost predicate Notified<T>(w: Thread<T>, s: State<T>, all: bool, call: seq<Step<T>>, rest: seq<Step<T>>)
    reads w.m, w.c, w.p
  {
    && Wf(s) && Enabled(s, Notify(w.id, all))
    && Returns(Apply(s, Notify(w.id, all)), w.View(), w.id, all, call, rest)
  }

  twostate lemma WholeCall<T>(w: Thread<T>, new all: bool)
    requires old(w.Valid()) && w.Ran([]) && Ready(w.p.pc[w.id]) && old(w.p.pc[w.id].NSpins? && w.p.pc[w.id].all == all)
    ensures exists call, rest :: Returns(old(w.View()), w.View(), w.id, all, call, rest)
  {
    hide Apply, Enabled, Init, Possible, Exec, Calls;
    hide Foreign, Spurts, SpuriousIn;
    w.Since();
    var es :| Meanwhile(old(w.View()), w.View(), w.id, es);
    ReturnsWithin(old(w.View()), w.View(), w.id, all, es);
  }

  method NotifyOne<T>(w: Thread<T>)
    requires w.Valid() && Ready(w.p.pc[w.id])
    modifies w.m, w.c, w.p
    ensures w.Ran([Notify(w.id, false)]) && w.p.pc[w.id] == Monitor.Return(old(w.p.pc[w.id].In?))
    ensures exists call, rest :: Notified(w, old(w.View()), false, call, rest)
  {
    hide Apply, Enabled, Init, Possible, Exec, Calls, Undisturbed, CanGo, Thread.View, Returns;
    hide Foreign, Spurts, SpuriousIn;
    w.Begin(Notify(w.id, false));
    ghost var s := w.View();
    TakeOne(w);
    ghost var call, rest :| Returns(s, w.View(), w.id, false, call, rest);
    assert Notified(w, old(w.View()), false, call, rest);
  }

  /** `notify_one`: the last spin flag, else the last thread, else the last task. */
  method TakeOne<T>(w: Thread<T>)
    requires w.Valid() && w.p.pc[w.id].NSpins? && !w.p.pc[w.id].all
    modifies w.m, w.c, w.p
    ensures w.Ran([]) && w.p.pc[w.id] == Monitor.Return(old(w.p.pc[w.id].inside))
    ensures exists call, rest :: Returns(old(w.View()), w.View(), w.id, false, call, rest)
  {
    hide Apply, Enabled, Init, Possible, Exec, Calls, Undisturbed, CanGo, Returns, Thread.Valid, Thread.View;
    hide Foreign, Spurts, SpuriousIn;
    w.Others();
    var wake := w.PopSpin();
    if wake.Some? {
      w.SignalEach([wake.value]);
    } else {
      NotifyOneThread(w);
    }
    WholeCall(w, false);
  }

  method NotifyOneThread<T>(w: Thread<T>)
    requires w.Valid() && w.p.pc[w.id].NThreads? && !w.p.pc[w.id].all
    modifies w.m, w.c, w.p
    ensures w.Ran([]) && w.p.pc[w.id] == Monitor.Return(old(w.p.pc[w.id].inside))
  {
    hide Apply, Enabled, Init, Possible, Exec, Calls, Undisturbed, CanGo, Thread.Valid, Thread.View;
    hide Foreign, Spurts, SpuriousIn;
    w.Others();
    var thread := w.PopThread();
    if thread.Some? {
      w.SignalEach([thread.value]);
    } else {
      NotifyOneTask(w);
    }
  }

  method NotifyOneTask<T>(w: Thread<T>)
    requires w.Valid() && w.p.pc[w.id].NTasks? && !w.p.pc[w.id].all
    modifies w.m, w.c, w.p
    ensures w.Ran([]) && w.p.pc[w.id] == Monitor.Return(old(w.p.pc[w.id].inside))
  {
    hide Apply, Enabled, Init, Possible, Exec, Calls, Undisturbed, CanGo, Thread.Valid, Thread.View;
    hide Foreign, Spurts, SpuriousIn;
    w.Others();
    var waiter := w.PopTask();
    if waiter.Some? {
      w.SignalEach([waiter.value]);
    }
  }

  method NotifyAll<T>(w: Thread<T>)
    requires w.Valid() && Ready(w.p.pc[w.id])
    modifies w.m, w.c, w.p
    ensures w.Ran([Notify(w.id, true)]) && w.p.pc[w.id] == Monitor.Return(old(w.p.pc[w.id].In?))
    ensures exists call, rest :: Notified(w, old(w.View()), true, call, rest)
  {
    hide Apply, Enabled, Init, Possible, Exec, Calls, Undisturbed, CanGo, Thread.View, Returns;
    hide Foreign, Spurts, SpuriousIn;
    w.Begin(Notify(w.id, true));
    ghost var s := w.View();
    TakeAll(w);
    ghost var call, rest :| Returns(s, w.View(), w.id, true, call, rest);
    assert Notified(w, old(w.View()), true, call, rest);
  }

  /** `notify_all`: every spin flag, then every thread, then every task. */
  method TakeAll<T>(w: Thread<T>)
    requires w.Valid() && w.p.pc[w.id].NSpins? && w.p.pc[w.id].all
    modifies w.m, w.c, w.p
    ensures w.Ran([]) && w.p.pc[w.id] == Monitor.Return(old(w.p.pc[w.id].inside))
    ensures exists call, rest :: Returns(old(w.View()), w.View(), w.id, true, call, rest)
  {
    hide Apply, Enabled, Init, Possible, Exec, Calls, Undisturbed, CanGo, Returns, Thread.Valid, Thread.View;
    hide Foreign, Spurts, SpuriousIn;
    NotifySpins(w);
    NotifyThreads(w);
    NotifyTasks(w);
    WholeCall(w, true);
  }

  method NotifySpins<T>(w: Thread<T>)
    requires w.Valid() && w.p.pc[w.id].NSpins? && w.p.pc[w.id].all
    modifies w.m, w.c, w.p
    ensures w.Ran([]) && w.p.pc[w.id] == NThreads(true, old(w.p.pc[w.id].inside))
  {
    hide Apply, Enabled, Init, Possible, Exec, Calls, Undisturbed, CanGo, Thread.Valid, Thread.View;
    hide Foreign, Spurts, SpuriousIn;
    w.Others();
    var wakes := w.TakeSpins();
    w.SignalEach(wakes);
  }

  method NotifyThreads<T>(w: Thread<T>)
    requires w.Valid() && w.p.pc[w.id].NThreads? && w.p.pc[w.id].all
    modifies w.m, w.c, w.p
    ensures w.Ran([]) && w.p.pc[w.id] == NTasks(true, old(w.p.pc[w.id].inside))
  {
    hide Apply, Enabled, Init, Possible, Exec, Calls, Undisturbed, CanGo, Thread.Valid, Thread.View;
    hide Foreign, Spurts, SpuriousIn;
    w.Others();
    var threads := w.TakeCvThreads();
    w.SignalEach(threads);
  }

  method NotifyTasks<T>(w: Thread<T>)
    requires w.Valid() && w.p.pc[w.id].NTasks? && w.p.pc[w.id].all
    modifies w.m, w.c, w.p
    ensures w.Ran([]) && w.p.pc[w.id] == Monitor.Return(old(w.p.pc[w.id].inside))
  {
    hide Apply, Enabled, Init, Possible, Exec, Calls, Undisturbed, CanGo, Thread.Valid, Thread.View;
    hide Foreign, Spurts, SpuriousIn;
    w.Others();
    var waiters := w.TakeCvTasks();
    w.SignalEach(waiters);
  }
}
