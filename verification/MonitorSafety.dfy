/** What every step of the monitor keeps, for every client: mutual exclusion, no lost wake-up of a
    lock waiter, and conservation of spin notifications. */
module MonitorSafety {
  import opened Basics
  import opened Monitor
  import opened Handoff
  import opened MonitorSteps

  // ------------------------------------------------------------ invariants

  /** `data_lock` is set exactly while one thread owns the guard, and never two do. */
  ghost predicate Exclusive<T>(s: State<T>) {
    && (forall t :: 0 <= t < |s.pc| && Holds(s.pc[t]) ==> s.lock.held)
    && (forall t, u :: 0 <= t < |s.pc| && 0 <= u < |s.pc| && Holds(s.pc[t]) && Holds(s.pc[u]) ==> t == u)
    && (s.lock.held ==> exists t :: 0 <= t < |s.pc| && Holds(s.pc[t]))
  }

  /** Entries of either lock list imply a holder, or a releaser that has yet to take that list. */
  ghost predicate ListsCovered<T>(s: State<T>) {
    && Covered(s.lock.held, s.lock.threads != [], s.pc, OwesThreads, Never)
    && Covered(s.lock.held, s.lock.tasks != [], s.pc, OwesTasks, Never)
  }

  /** A thread at its park in `lock_block` is listed, has its token, or is about to be unparked. */
  ghost predicate ThreadReachable<T>(s: State<T>, t: Tid)
    requires Wf(s) && t < |s.pc|
  {
    s.pc[t].BlockPark? ==> Delivered(t, s.rt.token[t], t in s.lock.threads, s.pc, Unparks)
  }

  /** The continuation a task awaits in `lock_async` is listed, sent, or about to be sent. */
  ghost predicate TaskReachable<T>(s: State<T>, id: Sig) {
    forall t :: 0 <= t < |s.pc| && LockAwaits(s.pc[t], id)
                ==> Delivered(id, id in s.rt.fired, id in s.lock.tasks, s.pc, Sends)
  }

  /** A thread in a blocking wait is listed, has its token, or is about to be unparked. */
  ghost predicate WaiterReachable<T>(s: State<T>, t: Tid)
    requires Wf(s) && t < |s.pc|
  {
    Armed(s.pc[t]) ==> Delivered(t, s.rt.token[t], t in s.cond.threads, s.pc, Unparks)
  }

  /** So is the continuation of an asynchronous wait. */
  ghost predicate CvTaskReachable<T>(s: State<T>, id: Sig) {
    && (id in s.cond.tasks ==> id < s.rt.next)
    && forall t :: 0 <= t < |s.pc| && TaskWaits(s.pc[t], id)
                ==> Delivered(id, id in s.rt.fired, id in s.cond.tasks, s.pc, Sends)
  }

  ghost predicate SpinWaited<T>(s: State<T>, x: Sig) {
    exists u :: 0 <= u < |s.pc| && SpinWaits(s.pc[u], x)
  }

  /** Every spin flag ever registered is listed, taken by a notifier or withdrawn at a timeout, and
      only one of these. A taken flag is stored or about to be. Its one waiter returns on it once. */
  ghost predicate SpinFlag<T>(s: State<T>, x: Sig) {
    && (x in s.cond.spins || x in s.hist.taken || x in s.hist.expired ==> x < s.rt.next)
    && (x in s.cond.spins ==> x !in s.hist.taken && x !in s.hist.expired)
    && (x in s.hist.taken ==> x !in s.hist.expired)
    && (x in s.hist.taken ==> Delivered(x, x in s.rt.flags, false, s.pc, Stores))
    && (forall u :: 0 <= u < |s.pc| && x in Stores(s.pc[u]) ==> x in s.hist.taken)
    && (x in s.rt.flags ==> x in s.hist.taken)
    && (x in s.hist.seen ==> x in s.rt.flags)
    && (forall u :: 0 <= u < |s.pc| && SpinWaits(s.pc[u], x)
                    ==> (x in s.cond.spins || x in s.hist.taken) && x !in s.hist.seen)
    && (forall u, v :: 0 <= u < |s.pc| && 0 <= v < |s.pc| && SpinWaits(s.pc[u], x) && SpinWaits(s.pc[v], x) ==> u == v)
    && (x in s.cond.spins || (x in s.hist.taken && x !in s.hist.seen) ==> SpinWaited(s, x))
  }

  ghost predicate Inv<T>(s: State<T>) {
    && Wf(s)
    && Exclusive(s)
    && ListsCovered(s)
    && (forall t :: 0 <= t < |s.pc| ==> ThreadReachable(s, t))
    && (forall id :: TaskReachable(s, id))
    && (forall t :: 0 <= t < |s.pc| ==> WaiterReachable(s, t))
    && (forall id :: CvTaskReachable(s, id))
    && NoDup(s.cond.spins)
    && (forall x :: SpinFlag(s, x))
  }

  // ------------------------------------------------------------ one step

  lemma ExclusiveKept<T>(s: State<T>, s': State<T>, t: Tid)
    requires LockFacts(s, s', t) && Exclusive(s)
    ensures Exclusive(s')
  {
    if s'.lock.held {
      if s.lock.held {
        var h :| 0 <= h < |s.pc| && Holds(s.pc[h]);
        assert Holds(s'.pc[h]);
      } else {
        assert Holds(s'.pc[t]);
      }
    }
  }

  lemma ListsKept<T>(s: State<T>, s': State<T>, t: Tid)
    requires LockFacts(s, s', t) && ListsCovered(s)
    ensures ListsCovered(s')
  {
    CoveredKept(s.lock.held, s.lock.threads != [], s.pc,
                s'.lock.held, s'.lock.threads != [], s'.pc, OwesThreads, Never, t);
    CoveredKept(s.lock.held, s.lock.tasks != [], s.pc,
                s'.lock.held, s'.lock.tasks != [], s'.pc, OwesTasks, Never, t);
  }

  lemma ThreadKept<T>(s: State<T>, s': State<T>, t: Tid, x: Tid)
    requires Wf(s) && Wf(s') && x < |s.pc| && ThreadReachable(s, x)
    requires LockFacts(s, s', t) && WakeFacts(s, s', t, x)
    ensures ThreadReachable(s', x)
  {
    if s'.pc[x].BlockPark? && x !in s'.lock.threads {
      DeliveredKept(x, s.rt.token[x], x in s.lock.threads, s.pc,
                    s'.rt.token[x], x in s'.lock.threads, s'.pc, Unparks, t);
    }
  }

  lemma TaskKept<T>(s: State<T>, s': State<T>, t: Tid, id: Sig)
    requires TaskReachable(s, id) && LockFacts(s, s', t) && WakeFacts(s, s', t, id)
    ensures TaskReachable(s', id)
  {
    forall u | 0 <= u < |s'.pc| && LockAwaits(s'.pc[u], id)
      ensures Delivered(id, id in s'.rt.fired, id in s'.lock.tasks, s'.pc, Sends)
    {
      if id !in s'.lock.tasks {
        assert LockAwaits(s.pc[u], id);
        DeliveredKept(id, id in s.rt.fired, id in s.lock.tasks, s.pc,
                      id in s'.rt.fired, id in s'.lock.tasks, s'.pc, Sends, t);
      }
    }
  }

  lemma WaiterKept<T>(s: State<T>, s': State<T>, t: Tid, x: Tid)
    requires Wf(s) && Wf(s') && x < |s.pc| && WaiterReachable(s, x)
    requires LockFacts(s, s', t) && WakeFacts(s, s', t, x) && CvThreadFacts(s, s', t, x)
    ensures WaiterReachable(s', x)
  {
    if Armed(s'.pc[x]) && x !in s'.cond.threads {
      DeliveredKept(x, s.rt.token[x], x in s.cond.threads, s.pc,
                    s'.rt.token[x], x in s'.cond.threads, s'.pc, Unparks, t);
    }
  }

  lemma CvTaskKept<T>(s: State<T>, s': State<T>, t: Tid, id: Sig)
    requires CvTaskReachable(s, id) && LockFacts(s, s', t) && WakeFacts(s, s', t, id) && CvTaskFacts(s, s', t, id)
    requires s.rt.next <= s'.rt.next
    ensures CvTaskReachable(s', id)
  {
    forall u | 0 <= u < |s'.pc| && TaskWaits(s'.pc[u], id)
      ensures Delivered(id, id in s'.rt.fired, id in s'.cond.tasks, s'.pc, Sends)
    {
      if id !in s'.cond.tasks {
        assert TaskWaits(s.pc[u], id);
        DeliveredKept(id, id in s.rt.fired, id in s.cond.tasks, s.pc,
                      id in s'.rt.fired, id in s'.cond.tasks, s'.pc, Sends, t);
      }
    }
  }

  lemma SpinKept<T>(s: State<T>, s': State<T>, t: Tid, x: Sig)
    requires LockFacts(s, s', t) && SpinListFacts(s, s', t, x) && SpinFlagFacts(s, s', t, x)
    requires SpinFlag(s, x)
    ensures SpinFlag(s', x)
  {
    if x in s'.hist.taken {
      if x in s.hist.taken {
        DeliveredKept(x, x in s.rt.flags, false, s.pc, x in s'.rt.flags, false, s'.pc, Stores, t);
      } else {
        assert x in Stores(s'.pc[t]);
      }
    }
    SpinWaitedKept(s, s', t, x);
  }

  lemma SpinWaitedKept<T>(s: State<T>, s': State<T>, t: Tid, x: Sig)
    requires LockFacts(s, s', t) && SpinListFacts(s, s', t, x) && SpinFlagFacts(s, s', t, x)
    requires SpinFlag(s, x)
    ensures x in s'.cond.spins || (x in s'.hist.taken && x !in s'.hist.seen) ==> SpinWaited(s', x)
  {
    if SpinWaited(s, x) {
      var u :| 0 <= u < |s.pc| && SpinWaits(s.pc[u], x);
      assert SpinWaits(s'.pc[u], x) || u == t;
    } else if x in s'.cond.spins {
      assert SpinWaits(s'.pc[t], x);
    }
  }

  /** Every step of every thread keeps the invariant, whatever the client calls next. */
  lemma InvStep<T>(s: State<T>, e: Step<T>)
    requires Inv(s) && Enabled(s, e)
    ensures Inv(Apply(s, e))
  {
    var s' := Apply(s, e);
    if e.Tick? {
      assert s' == s.(rt := s'.rt);
      TickKeeps(s, s');
    } else {
      SpinsBelow(s);
      forall x: nat
        ensures Facts(s, s', e.t, x)
      {
        StepFacts(s, e, x);
      }
      FactsKeep(s, s', e.t);
    }
  }

  lemma SpinsBelow<T>(s: State<T>)
    requires Inv(s)
    ensures Below(s.cond.spins, s.rt.next)
  {
    forall i | 0 <= i < |s.cond.spins|
      ensures s.cond.spins[i] < s.rt.next
    {
      assert SpinFlag(s, s.cond.spins[i]);
    }
  }

  lemma TickKeeps<T>(s: State<T>, s': State<T>)
    requires Inv(s) && s' == s.(rt := s'.rt) && s'.rt == s.rt.(clock := s'.rt.clock)
    ensures Inv(s')
  {
    forall t | 0 <= t < |s'.pc|
      ensures ThreadReachable(s', t)
    {
      assert ThreadReachable(s, t);
    }
    forall t | 0 <= t < |s'.pc|
      ensures WaiterReachable(s', t)
    {
      assert WaiterReachable(s, t);
    }
    forall id: nat
      ensures TaskReachable(s', id) && CvTaskReachable(s', id)
    {
      assert TaskReachable(s, id) && CvTaskReachable(s, id);
    }
    forall x: nat
      ensures SpinFlag(s', x)
    {
      assert SpinFlag(s, x) && (SpinWaited(s, x) ==> SpinWaited(s', x));
    }
  }

  lemma FactsKeep<T>(s: State<T>, s': State<T>, t: Tid)
    requires Inv(s) && forall x: nat :: Facts(s, s', t, x)
    ensures Inv(s')
  {
    assert Facts(s, s', t, 0);
    ExclusiveKept(s, s', t);
    ListsKept(s, s', t);
    forall x | 0 <= x < |s'.pc|
      ensures ThreadReachable(s', x) && WaiterReachable(s', x)
    {
      assert Facts(s, s', t, x) && ThreadReachable(s, x) && WaiterReachable(s, x);
      ThreadKept(s, s', t, x);
      WaiterKept(s, s', t, x);
    }
    forall id: nat
      ensures TaskReachable(s', id) && CvTaskReachable(s', id)
    {
      assert Facts(s, s', t, id) && TaskReachable(s, id) && CvTaskReachable(s, id);
      TaskKept(s, s', t, id);
      CvTaskKept(s, s', t, id);
    }
    forall x: nat
      ensures SpinFlag(s', x)
    {
      assert Facts(s, s', t, x) && SpinFlag(s, x);
      SpinKept(s, s', t, x);
    }
  }
}
