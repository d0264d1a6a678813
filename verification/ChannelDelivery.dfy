/** No lost message. A receiver waits on one list of the condition variable at a time, but an entry that `recv_block`
    left behind at a spurious return stays in the list of threads. What a `notify_one` takes is its waiter's entry as
    long as no such entry is taken instead: so `recv_block` and the spinning receives may begin in any state, a timed
    blocking receive if its thread is not listed, an asynchronous receive if no thread is. Otherwise any mix of
    receives, of threads that own the receiver one after the other, of senders, clones, drops, spurious park returns
    and stray tokens is allowed. */
module ChannelDelivery {
  import opened Basics
  import opened Monitor
  import opened Handoff
  import opened MonitorSteps
  import opened MonitorSafety
  import opened MonitorTasks
  import opened Channel
  import opened ChannelSafety

  /** A wait of kind `k` by thread `t` will not find an old entry in the way. */
  predicate Unhindered(q: seq<Tid>, t: Tid, k: Kind) {
    k.By? ==> match k.how
              case Spinning => true
              case Blocking => k.dl.None? || t !in q
              case Tasking => q == []
  }

  predicate Permitted<M>(c: Chan<M>, op: Op<M>)
    requires Sized(c)
  {
    op.Act? && op.t < |c.cl| && c.cl[op.t].RecvWait? ==> Unhindered(c.mon.cond.threads, op.t, c.cl[op.t].k)
  }

  // ------------------------------------------------------------ the monitor's side

  /** The receiver's current wait is over, or its wake-up is on its way. */
  ghost predicate Pledged<T>(m: State<T>, rx: Tid, w: Waiting)
    requires Wf(m) && rx < |m.pc|
  {
    match w
    case OnThread(_) => Delivered(rx, m.rt.token[rx], false, m.pc, Unparks)
    case OnThreadUntil(_, _) => rx !in m.cond.threads
    case OnFlag(id, _, _) => id !in m.cond.spins
    case OnTask(id, _) => id !in m.cond.tasks
  }

  /** The same wait, at possibly another of its actions. */
  predicate SameWait(w: Waiting, w': Waiting) {
    match w
    case OnThread(_) => w'.OnThread?
    case OnThreadUntil(_, _) => w'.OnThreadUntil?
    case OnFlag(id, _, _) => w'.OnFlag? && w'.id == id
    case OnTask(id, _) => w'.OnTask? && w'.id == id
  }

  predicate IsWaiting(p: Pc) { Pending(p).Some? }

  lemma WaitGoesOn<T>(m: State<T>, e: Step<T>, rx: Tid)
    requires Wf(m) && Enabled(m, e) && rx < |m.pc| && IsWaiting(m.pc[rx])
    ensures |Apply(m, e).pc| == |m.pc|
    ensures IsWaiting(Apply(m, e).pc[rx]) ==> SameWait(Pending(m.pc[rx]).value, Pending(Apply(m, e).pc[rx]).value)
  {
    hide Advance;
    WfStep(m, e);
    if e.Go? && e.t == rx {
      OwnWaitGoesOn(m, rx);
    } else {
      if !e.Tick? {
        StepBounded(m, e);
      }
    }
  }

  lemma OwnWaitGoesOn<T>(m: State<T>, rx: Tid)
    requires Wf(m) && rx < |m.pc| && CanGo(m, rx) && IsWaiting(m.pc[rx])
    ensures |Advance(m, rx).pc| == |m.pc|
    ensures IsWaiting(Advance(m, rx).pc[rx]) ==> SameWait(Pending(m.pc[rx]).value, Pending(Advance(m, rx).pc[rx]).value)
  {
    hide GoAcquire, GoNotify;
  }

  lemma PledgeKept<T>(m: State<T>, m': State<T>, t: Tid, rx: Tid, w: Waiting)
    requires Wf(m) && Wf(m') && rx < |m.pc| && Bounded(m, m', t)
    requires Pending(m.pc[rx]) == Some(w) && IsWaiting(m'.pc[rx]) && SameWait(w, Pending(m'.pc[rx]).value)
    requires Pledged(m, rx, w)
    requires WakeFacts(m, m', t, rx) && CvThreadFacts(m, m', t, rx)
    requires w.OnFlag? ==> SpinListFacts(m, m', t, w.id) && SpinFlag(m, w.id)
    requires w.OnTask? ==> TaskFacts(m, m', t, w.id) && Entry(m, w.id)
    ensures Pledged(m', rx, w)
  {
    if w.OnThread? {
      DeliveredKept(rx, m.rt.token[rx], false, m.pc, m'.rt.token[rx], false, m'.pc, Unparks, t);
    } else if w.OnFlag? {
      assert SpinWaits(m.pc[rx], w.id);
    } else if w.OnTask? {
      assert TaskWaits(m.pc[rx], w.id) && Named(m, w.id);
    }
  }

  /** A `notify_one` that has yet to reach the list the wait `w` is registered in. */
  predicate YetToPop(p: Pc, w: Waiting) {
    || (p.NSpins? && !p.all)
    || (p.NThreads? && !p.all && !w.OnFlag?)
    || (p.NTasks? && !p.all && w.OnTask?)
  }

  /** Nobody else waits on the condition variable. */
  ghost predicate Sole<T>(m: State<T>, rx: Tid) {
    && Inv(m) && TaskInv(m) && rx < |m.pc|
    && (forall u :: 0 <= u < |m.pc| && u != rx ==> !IsWaiting(m.pc[u]))
  }

  /** The entry of the wait is the one a `notify_one` takes first; or the wake-up is on its way. */
  ghost predicate Clean<T>(m: State<T>, rx: Tid, w: Waiting)
    requires Wf(m) && rx < |m.pc|
  {
    var q := m.cond.threads;
    match w
    case OnThread(_) => Pledged(m, rx, w) || (q != [] && Last(q) == rx)
    case OnThreadUntil(_, _) => rx in q ==> Last(q) == rx && rx !in q[..|q| - 1]
    case OnFlag(_, _, _) => true
    case OnTask(_, _) => q == []
  }

  /** How a step other than a registration changes the list of threads: a notifier takes its end, or a timed wait
      removes its own entry. */
  ghost predicate Shrinks<T>(m: State<T>, m': State<T>, e: Step<T>)
    requires Wf(m) && Enabled(m, e)
  {
    || m'.cond.threads == m.cond.threads
    || (e.Go? && m.pc[e.t].CvRemove?)
    || (e.Go? && e.t < |m'.pc|
        && exists n :: 0 <= n <= |m.cond.threads| && m'.cond.threads == m.cond.threads[..n]
                       && Unparks(m'.pc[e.t]) == m.cond.threads[n..])
  }

  lemma ThreadsShrink<T>(m: State<T>, e: Step<T>)
    requires Wf(m) && Enabled(m, e) && !e.Wait?
    ensures Shrinks(m, Apply(m, e), e)
  {
    hide GoAcquire, GoRelease, GoAwait, GoNotify;
    if e.Go? {
      if Acquires(m.pc[e.t]) || Releases(m.pc[e.t]) {
        LockLeavesThreads(m, e.t);
      } else if Awaits(m.pc[e.t]) {
        AwaitLeavesThreads(m, e.t);
      } else {
        NotifyTakesThreads(m, e.t);
      }
    }
  }

  lemma LockLeavesThreads<T>(m: State<T>, t: Tid)
    requires Wf(m) && t < |m.pc| && CanGo(m, t) && (Acquires(m.pc[t]) || Releases(m.pc[t]))
    ensures Acquires(m.pc[t]) ==> GoAcquire(m, t).cond == m.cond
    ensures Releases(m.pc[t]) ==> GoRelease(m, t).cond == m.cond
  {
  }

  lemma AwaitLeavesThreads<T>(m: State<T>, t: Tid)
    requires Wf(m) && t < |m.pc| && CanGo(m, t) && Awaits(m.pc[t])
    ensures !m.pc[t].CvRemove? ==> GoAwait(m, t).cond.threads == m.cond.threads
  {
  }

  lemma NotifyTakesThreads<T>(m: State<T>, t: Tid)
    requires Wf(m) && t < |m.pc| && Notifies(m.pc[t])
    ensures var m' := GoNotify(m, t);
            var q := m.cond.threads;
            && |m'.pc| == |m.pc|
            && (m'.cond.threads == q
                || exists n :: 0 <= n <= |q| && m'.cond.threads == q[..n] && Unparks(m'.pc[t]) == q[n..])
  {
    var m', q := GoNotify(m, t), m.cond.threads;
    if m.pc[t].NThreads? && (m.pc[t].all || q != []) {
      var n := if m.pc[t].all then 0 else |q| - 1;
      assert m'.cond.threads == q[..n] && Unparks(m'.pc[t]) == q[n..];
    }
  }

  /** A step that is no registration keeps it, while the wait goes on. */
  lemma CleanKept<T>(m: State<T>, e: Step<T>, rx: Tid, w: Waiting, w': Waiting)
    requires Inv(m) && TaskInv(m) && Enabled(m, e) && !e.Wait? && rx < |m.pc|
    requires Pending(m.pc[rx]) == Some(w) && Clean(m, rx, w)
    requires forall u :: 0 <= u < |m.pc| && u != rx ==> !IsWaiting(m.pc[u])
    requires Wf(Apply(m, e)) && |Apply(m, e).pc| == |m.pc|
    requires Pending(Apply(m, e).pc[rx]) == Some(w') && SameWait(w, w')
    ensures Clean(Apply(m, e), rx, w')
  {
    hide Advance, TaskInv, Pledged;
    var m', q := Apply(m, e), m.cond.threads;
    ThreadsShrink(m, e);
    if e.Go? && m.pc[e.t].CvRemove? {
      RemovalEnds(m, e, rx, w);
    } else if w.OnThread? && Pledged(m, rx, w) {
      PledgedStep(m, e, rx, w);
      SamePledge(m', rx, w, w');
    } else if m'.cond.threads != q {
      var n :| 0 <= n <= |q| && m'.cond.threads == q[..n] && Unparks(m'.pc[e.t]) == q[n..];
      TakesEnd(m', e.t, rx, w', q, n);
    }
  }

  lemma SamePledge<T>(m: State<T>, rx: Tid, w: Waiting, w': Waiting)
    requires Wf(m) && rx < |m.pc| && SameWait(w, w') && Pledged(m, rx, w)
    ensures Pledged(m, rx, w')
  {
  }

  /** A timed wait that removes its entry is over. */
  lemma RemovalEnds<T>(m: State<T>, e: Step<T>, rx: Tid, w: Waiting)
    requires Wf(m) && Enabled(m, e) && rx < |m.pc| && e.Go? && m.pc[e.t].CvRemove?
    requires forall u :: 0 <= u < |m.pc| && u != rx ==> !IsWaiting(m.pc[u])
    requires |Apply(m, e).pc| == |m.pc| && IsWaiting(Apply(m, e).pc[rx])
    ensures false
  {
    hide GoAcquire, GoRelease, GoNotify;
    assert IsWaiting(m.pc[e.t]);
  }

  /** A notifier took `q[n..]`, which begins with the receiver's entry at the latest. */
  lemma TakesEnd<T>(m: State<T>, u: Tid, rx: Tid, w: Waiting, q: seq<Tid>, n: nat)
    requires Wf(m) && u < |m.pc| && rx < |m.pc| && n < |q|
    requires m.cond.threads == q[..n] && Unparks(m.pc[u]) == q[n..]
    requires match w
             case OnThread(_) => Last(q) == rx
             case OnThreadUntil(_, _) => rx in q ==> Last(q) == rx && rx !in q[..|q| - 1]
             case OnFlag(_, _, _) => true
             case OnTask(_, _) => false
    ensures Clean(m, rx, w)
  {
    assert q[n..][|q| - 1 - n] == Last(q);
    if w.OnThread? {
      assert rx in Unparks(m.pc[u]);
    } else if w.OnThreadUntil? && rx in q {
      assert q[..n] <= q[..|q| - 1];
      assert forall i :: 0 <= i < n ==> q[..n][i] in q[..|q| - 1];
    }
  }

  /** A `notify_one` that goes on has either passed a list without the receiver's entry, or taken it. */
  lemma PopPledges<T>(m: State<T>, u: Tid, rx: Tid, w: Waiting)
    requires Sole(m, rx) && u < |m.pc| && u != rx && YetToPop(m.pc[u], w) && Pending(m.pc[rx]) == Some(w)
    requires Clean(m, rx, w) && !Pledged(m, rx, w)
    ensures Wf(Advance(m, u)) && |Advance(m, u).pc| == |m.pc|
    ensures Pledged(Advance(m, u), rx, w) || YetToPop(Advance(m, u).pc[u], w)
  {
    hide Pledged;
    StepBounded(m, Go(u));
    WfStep(m, Go(u));
    match m.pc[u] {
      case NSpins(_, _) => PopSpin(m, u, rx, w);
      case NThreads(_, _) => PopThread(m, u, rx, w);
      case NTasks(_, _) => PopTask(m, u, rx, w);
    }
  }

  lemma PopSpin<T>(m: State<T>, u: Tid, rx: Tid, w: Waiting)
    requires Sole(m, rx) && u < |m.pc| && u != rx && m.pc[u].NSpins? && !m.pc[u].all && Pending(m.pc[rx]) == Some(w)
    requires Wf(Advance(m, u)) && |Advance(m, u).pc| == |m.pc|
    ensures Pledged(Advance(m, u), rx, w) || YetToPop(Advance(m, u).pc[u], w)
  {
    hide GoAcquire, GoRelease, GoAwait, Inv;
    if m.cond.spins != [] {
      var x := Last(m.cond.spins);
      assert SpinFlag(m, x) by { SpinsHave(m, x); }
      var v :| 0 <= v < |m.pc| && SpinWaits(m.pc[v], x);
      assert v == rx && w.OnFlag? && w.id == x;
      assert NoDup(m.cond.spins) by { SpinsHave(m, x); }
    }
  }

  lemma SpinsHave<T>(m: State<T>, x: Sig)
    requires Inv(m)
    ensures SpinFlag(m, x) && NoDup(m.cond.spins)
  {
  }

  lemma PopThread<T>(m: State<T>, u: Tid, rx: Tid, w: Waiting)
    requires Sole(m, rx) && u < |m.pc| && u != rx && m.pc[u].NThreads? && !m.pc[u].all && Pending(m.pc[rx]) == Some(w)
    requires !w.OnFlag? && Clean(m, rx, w) && !Pledged(m, rx, w)
    requires Wf(Advance(m, u)) && |Advance(m, u).pc| == |m.pc|
    ensures Pledged(Advance(m, u), rx, w) || YetToPop(Advance(m, u).pc[u], w)
  {
    hide GoAcquire, GoRelease, GoAwait, Inv;
    var m' := Advance(m, u);
    if m.cond.threads != [] {
      assert rx in Unparks(m'.pc[u]);
    }
  }

  lemma WaiterHas<T>(m: State<T>, x: Tid)
    requires Inv(m) && x < |m.pc|
    ensures WaiterReachable(m, x)
  {
  }

  lemma PopTask<T>(m: State<T>, u: Tid, rx: Tid, w: Waiting)
    requires Sole(m, rx) && u < |m.pc| && u != rx && m.pc[u].NTasks? && !m.pc[u].all && Pending(m.pc[rx]) == Some(w)
    requires w.OnTask? && Wf(Advance(m, u)) && |Advance(m, u).pc| == |m.pc|
    ensures Pledged(Advance(m, u), rx, w)
  {
    hide GoAcquire, GoRelease, GoAwait, Inv;
    if m.cond.tasks != [] {
      var x := Last(m.cond.tasks);
      assert Entry(m, x);
      var v :| 0 <= v < |m.pc| && TaskWaits(m.pc[v], x);
      assert v == rx && w.id == x;
    }
  }

  /** A step of the monitor, seen by the receiver's pending wait. */
  lemma PledgedStep<T>(m: State<T>, e: Step<T>, rx: Tid, w: Waiting)
    requires Inv(m) && TaskInv(m) && Enabled(m, e) && rx < |m.pc|
    requires Pending(m.pc[rx]) == Some(w) && Pledged(m, rx, w)
    requires Wf(Apply(m, e)) && |Apply(m, e).pc| == |m.pc|
    requires IsWaiting(Apply(m, e).pc[rx]) && SameWait(w, Pending(Apply(m, e).pc[rx]).value)
    ensures Pledged(Apply(m, e), rx, w)
  {
    hide Advance;
    if e.Tick? {
      if w.OnThread? && !m.rt.token[rx] {
        var u :| 0 <= u < |m.pc| && rx in Unparks(m.pc[u]);
        assert rx in Unparks(Apply(m, e).pc[u]);
      }
    } else {
      PledgedFacts(m, e, rx, w);
      PledgeKept(m, Apply(m, e), e.t, rx, w);
    }
  }

  lemma PledgedFacts<T>(m: State<T>, e: Step<T>, rx: Tid, w: Waiting)
    requires Inv(m) && TaskInv(m) && Enabled(m, e) && !e.Tick?
    ensures var m' := Apply(m, e);
            && Bounded(m, m', e.t) && WakeFacts(m, m', e.t, rx) && CvThreadFacts(m, m', e.t, rx)
            && (w.OnFlag? ==> SpinListFacts(m, m', e.t, w.id) && SpinFlag(m, w.id))
            && (w.OnTask? ==> TaskFacts(m, m', e.t, w.id) && Entry(m, w.id))
  {
    hide Apply;
    SpinsBelow(m);
    StepFacts(m, e, rx);
    if w.OnFlag? {
      StepFacts(m, e, w.id);
    } else if w.OnTask? {
      forall i | 0 <= i < |m.cond.tasks|
        ensures m.cond.tasks[i] < m.rt.next
      {
        assert Entry(m, m.cond.tasks[i]) && Named(m, m.cond.tasks[i]);
      }
      StepTaskFacts(m, e, w.id);
    }
  }

  // ------------------------------------------------------------ the channel's side

  /** A sender that has pushed and whose `notify_one` can still reach the receiver's wait. */
  predicate Notifier<M>(x: Client<M>, p: Pc, w: Waiting) {
    x.SendUnlock? || x.SendNotify? || (x.SendReturn? && YetToPop(p, w))
  }

  ghost predicate SomeNotifier<M>(c: Chan<M>, rx: Tid, w: Waiting)
    requires Sized(c)
  {
    exists u :: 0 <= u < |c.cl| && u != rx && Notifier(c.cl[u], c.mon.pc[u], w)
  }

  /** While thread `rx` waits its entry is clean; and if the queue is not empty, its wake-up is on its way or a sender
      still has its notification to perform. */
  ghost predicate Attended<M>(c: Chan<M>, rx: Tid)
    requires Sized(c) && rx < |c.cl|
  {
    IsWaiting(c.mon.pc[rx])
    ==> var w := Pending(c.mon.pc[rx]).value;
        Clean(c.mon, rx, w) && (c.mon.lock.value != [] ==> Pledged(c.mon, rx, w) || SomeNotifier(c, rx, w))
  }

  ghost predicate DeliveryInv<M>(c: Chan<M>) {
    && ChanInv(c) && TaskInv(c.mon)
    && forall t :: 0 <= t < |c.cl| ==> Attended(c, t)
  }

  /** Only the receiver's owner waits on the condition variable. */
  lemma WaiterIsReceiver<M>(c: Chan<M>, t: Tid)
    requires Sized(c) && t < |c.cl| && ClientInv(c, t) && IsWaiting(c.mon.pc[t])
    ensures c.receiver == Some(t) && c.cl[t].RecvWaiting?
  {
  }

  lemma IsSole<M>(c: Chan<M>, rx: Tid)
    requires ChanInv(c) && TaskInv(c.mon) && rx < |c.cl| && IsWaiting(c.mon.pc[rx])
    ensures Sole(c.mon, rx)
  {
    hide Inv, TaskInv, Ledger;
    assert ClientInv(c, rx);
    WaiterIsReceiver(c, rx);
    forall u | 0 <= u < |c.mon.pc| && u != rx
      ensures !IsWaiting(c.mon.pc[u])
    {
      if IsWaiting(c.mon.pc[u]) {
        assert ClientInv(c, u);
        WaiterIsReceiver(c, u);
      }
    }
  }

  // ------------------------------------------------------------ one channel step

  /** The step by which thread `rx` begins to wait is its registration. */
  lemma BeginsByWait<M>(c: Chan<M>, op: Op<M>, rx: Tid)
    requires ChanInv(c) && Can(c, op) && rx < |c.cl| && !IsWaiting(c.mon.pc[rx])
    requires Sized(Next(c, op)) && |Next(c, op).cl| == |c.cl| && IsWaiting(Next(c, op).mon.pc[rx])
    ensures op.Act? && op.t == rx && c.cl[rx].RecvWait?
  {
    hide Inv, Advance, Turn, Open, Ledger;
    assert ClientInv(c, rx);
    var e := Underlying(c, op);
    if e.Some? && e.value.Go? {
      GoDoesNotBegin(c.mon, e.value.t, rx);
    } else if e.Some? && !e.value.Tick? {
      CallBounded(c.mon, e.value);
    }
  }

  /** The wait has just begun: its registration saw the queue empty. */
  lemma BeginsEmpty<M>(c: Chan<M>, op: Op<M>, rx: Tid)
    requires ChanInv(c) && Can(c, op) && rx < |c.cl| && !IsWaiting(c.mon.pc[rx])
    requires Sized(Next(c, op)) && |Next(c, op).cl| == |c.cl| && IsWaiting(Next(c, op).mon.pc[rx])
    ensures Next(c, op).mon.lock.value == []
  {
    hide Inv, Apply, Turn, Open, Ledger;
    BeginsByWait(c, op, rx);
    assert ClientInv(c, rx);
    MonitorValue(c.mon, Underlying(c, op));
  }

  lemma GoDoesNotBegin<T>(m: State<T>, t: Tid, rx: Tid)
    requires Wf(m) && t < |m.pc| && rx < |m.pc| && CanGo(m, t) && !IsWaiting(m.pc[rx])
    ensures |Advance(m, t).pc| == |m.pc| && !IsWaiting(Advance(m, t).pc[rx])
  {
    hide GoAwait, GoNotify, GoAcquire, GoRelease;
    StepBounded(m, Go(t));
    if t == rx {
      OwnGoDoesNotBegin(m, t);
    }
  }

  lemma OwnGoDoesNotBegin<T>(m: State<T>, t: Tid)
    requires Wf(m) && t < |m.pc| && CanGo(m, t) && !IsWaiting(m.pc[t])
    ensures |Advance(m, t).pc| == |m.pc| && !IsWaiting(Advance(m, t).pc[t])
  {
    hide GoAwait, GoAcquire, GoRelease, GoNotify;
    if Acquires(m.pc[t]) {
      AcquireIsNoWait(m, t);
    } else if Releases(m.pc[t]) {
      LeaveIsNoWait(m, t);
    } else {
      NotifyIsNoWait(m, t);
    }
  }

  lemma AcquireIsNoWait<T>(m: State<T>, t: Tid)
    requires Wf(m) && t < |m.pc| && CanGo(m, t) && Acquires(m.pc[t])
    ensures |GoAcquire(m, t).pc| == |m.pc| && !IsWaiting(GoAcquire(m, t).pc[t])
  {
  }

  lemma LeaveIsNoWait<T>(m: State<T>, t: Tid)
    requires Wf(m) && t < |m.pc| && Releases(m.pc[t]) && !IsWaiting(m.pc[t])
    ensures |GoRelease(m, t).pc| == |m.pc| && !IsWaiting(GoRelease(m, t).pc[t])
  {
  }

  lemma NotifyIsNoWait<T>(m: State<T>, t: Tid)
    requires Wf(m) && t < |m.pc| && Notifies(m.pc[t])
    ensures |GoNotify(m, t).pc| == |m.pc| && !IsWaiting(GoNotify(m, t).pc[t])
  {
  }

  /** The queue has just become nonempty: the sender that pushed has its notification ahead. */
  lemma PushNotifies<M>(c: Chan<M>, op: Op<M>, rx: Tid, w: Waiting)
    requires ChanInv(c) && Can(c, op) && rx < |c.cl| && IsWaiting(c.mon.pc[rx])
    requires Sized(Next(c, op)) && |Next(c, op).cl| == |c.cl|
    requires c.mon.lock.value == [] && Next(c, op).mon.lock.value != []
    ensures SomeNotifier(Next(c, op), rx, w)
  {
    hide Inv, Apply, Open, Ledger;
    QueueMoves(c, op);
    assert ClientInv(c, op.t) && ClientInv(c, rx);
    MonitorValue(c.mon, Underlying(c, op));
    assert c.cl[op.t].SendPush?;
    assert Notifier(Next(c, op).cl[op.t], Next(c, op).mon.pc[op.t], w);
  }

  /** A sender on its way to its notification goes on, or passes the wake-up to the receiver. */
  lemma NotifierGoesOn<M>(c: Chan<M>, op: Op<M>, rx: Tid, w: Waiting, u: Tid)
    requires ChanInv(c) && TaskInv(c.mon) && Can(c, op) && rx < |c.cl| && u < |c.cl| && u != rx
    requires Pending(c.mon.pc[rx]) == Some(w) && Clean(c.mon, rx, w) && !Pledged(c.mon, rx, w)
    requires Notifier(c.cl[u], c.mon.pc[u], w)
    requires Sized(Next(c, op)) && |Next(c, op).cl| == |c.cl|
    ensures Pledged(Next(c, op).mon, rx, w) || SomeNotifier(Next(c, op), rx, w)
  {
    hide Inv, Apply, Open, Turn, TaskInv;
    var c' := Next(c, op);
    if !Owner(op, u) {
      OthersStay(c, op, u);
      assert Notifier(c'.cl[u], c'.mon.pc[u], w);
    } else {
      NotifierMoves(c, op, rx, w, u);
    }
  }

  lemma NotifierMoves<M>(c: Chan<M>, op: Op<M>, rx: Tid, w: Waiting, u: Tid)
    requires ChanInv(c) && TaskInv(c.mon) && Can(c, op) && rx < |c.cl| && u < |c.cl| && u != rx && Owner(op, u)
    requires Pending(c.mon.pc[rx]) == Some(w) && Clean(c.mon, rx, w) && !Pledged(c.mon, rx, w)
    requires Notifier(c.cl[u], c.mon.pc[u], w)
    requires Sized(Next(c, op)) && |Next(c, op).cl| == |c.cl|
    ensures Pledged(Next(c, op).mon, rx, w) || SomeNotifier(Next(c, op), rx, w)
  {
    hide Inv, Open, TaskInv, Advance, Ledger, Clean, Pledged;
    var c' := Next(c, op);
    assert ClientInv(c, u) && ClientInv(c, rx);
    if op.Act? {
      assert Notifier(c'.cl[u], c'.mon.pc[u], w);
    } else if c.cl[u].SendReturn? {
      assert op.Inner? && op.e.Go?;
      IsSole(c, rx);
      PopPledges(c.mon, u, rx, w);
      assert c'.cl[u].SendReturn?;
    } else {
      assert op.Inner?;
      assert Notifier(c'.cl[u], c'.mon.pc[u], w);
    }
  }

  lemma AnsweredAs<M>(c: Chan<M>, op: Op<M>, rx: Tid, w: Waiting)
    requires DeliveryInv(c) && Can(c, op) && rx < |c.cl| && Pending(c.mon.pc[rx]) == Some(w)
    requires Sized(Next(c, op)) && |Next(c, op).cl| == |c.cl|
    requires IsWaiting(Next(c, op).mon.pc[rx]) && SameWait(w, Pending(Next(c, op).mon.pc[rx]).value)
    requires Next(c, op).mon.lock.value != []
    ensures Pledged(Next(c, op).mon, rx, w) || SomeNotifier(Next(c, op), rx, w)
  {
    hide Inv, Apply, Open, Turn, TaskInv, Ledger, Call, Pledged, Notifier, Clean;
    assert Attended(c, rx);
    if c.mon.lock.value == [] {
      PushNotifies(c, op, rx, w);
    } else if Pledged(c.mon, rx, w) {
      var e := Underlying(c, op);
      if e.Some? {
        PledgedStep(c.mon, e.value, rx, w);
      }
    } else {
      var u :| 0 <= u < |c.cl| && u != rx && Notifier(c.cl[u], c.mon.pc[u], w);
      NotifierGoesOn(c, op, rx, w, u);
    }
  }

  lemma SameAnswer<M>(c: Chan<M>, rx: Tid, w: Waiting, w': Waiting)
    requires Sized(c) && rx < |c.cl| && SameWait(w, w')
    ensures Pledged(c.mon, rx, w) ==> Pledged(c.mon, rx, w')
    ensures SomeNotifier(c, rx, w) ==> SomeNotifier(c, rx, w')
  {
    if SomeNotifier(c, rx, w) {
      var u :| 0 <= u < |c.cl| && u != rx && Notifier(c.cl[u], c.mon.pc[u], w);
      assert Notifier(c.cl[u], c.mon.pc[u], w');
    }
  }

  /** Nobody registers while another thread waits. */
  lemma NoRegistration<M>(c: Chan<M>, op: Op<M>, rx: Tid)
    requires ChanInv(c) && Can(c, op) && rx < |c.cl| && IsWaiting(c.mon.pc[rx])
    ensures Underlying(c, op).Some? ==> !Underlying(c, op).value.Wait?
  {
    hide Inv, Ledger, Enabled;
    assert ClientInv(c, rx);
    if op.Act? {
      assert ClientInv(c, op.t);
    }
  }

  /** A wait that goes on stays clean. */
  lemma StaysClean<M>(c: Chan<M>, op: Op<M>, rx: Tid, w: Waiting, w': Waiting)
    requires DeliveryInv(c) && Can(c, op) && rx < |c.cl| && Pending(c.mon.pc[rx]) == Some(w)
    requires Sized(Next(c, op)) && |Next(c, op).cl| == |c.cl|
    requires Pending(Next(c, op).mon.pc[rx]) == Some(w') && SameWait(w, w')
    ensures Clean(Next(c, op).mon, rx, w')
  {
    hide Inv, Apply, Open, Turn, TaskInv, Ledger, Call, Notifier, Clean;
    assert Attended(c, rx);
    NoRegistration(c, op, rx);
    IsSole(c, rx);
    var e := Underlying(c, op);
    if e.Some? {
      CleanKept(c.mon, e.value, rx, w, w');
    }
  }

  /** What a registration does to the list of threads. */
  lemma Registration<T>(m: State<T>, t: Tid, k: Kind, sync: Sync)
    requires Wf(m) && t < |m.pc| && m.pc[t].In? && k.By?
    ensures var m' := Apply(m, Wait(t, WaitRequest(k, sync)));
            && |m'.pc| == |m.pc| && IsWaiting(m'.pc[t])
            && m'.cond.threads == (if k.how.Blocking? then m.cond.threads + [t] else m.cond.threads)
            && match k.how
               case Spinning => Pending(m'.pc[t]).value.OnFlag?
               case Blocking => if k.dl.Some? then Pending(m'.pc[t]).value.OnThreadUntil?
                                else Pending(m'.pc[t]).value.OnThread?
               case Tasking => Pending(m'.pc[t]).value.OnTask?
  {
    hide Advance, Wf;
  }

  /** A permitted registration is clean. */
  lemma RegistersClean<T>(m: State<T>, t: Tid, k: Kind, sync: Sync)
    requires Wf(m) && t < |m.pc| && m.pc[t].In? && k.By? && Unhindered(m.cond.threads, t, k)
    ensures var m' := Apply(m, Wait(t, WaitRequest(k, sync)));
            && Wf(m') && |m'.pc| == |m.pc| && IsWaiting(m'.pc[t]) && Clean(m', t, Pending(m'.pc[t]).value)
  {
    hide Apply, Pledged, Wf, WaitRequest, Pending;
    var q := m.cond.threads;
    Registration(m, t, k, sync);
    WfStep(m, Wait(t, WaitRequest(k, sync)));
    assert (q + [t])[..|q + [t]| - 1] == q;
  }

  lemma BeginsClean<M>(c: Chan<M>, op: Op<M>, rx: Tid)
    requires ChanInv(c) && Can(c, op) && Permitted(c, op) && rx < |c.cl| && !IsWaiting(c.mon.pc[rx])
    requires Sized(Next(c, op)) && |Next(c, op).cl| == |c.cl| && IsWaiting(Next(c, op).mon.pc[rx])
    ensures Clean(Next(c, op).mon, rx, Pending(Next(c, op).mon.pc[rx]).value)
  {
    hide Inv, Apply, Turn, Open, Ledger, Clean;
    BeginsByWait(c, op, rx);
    assert ClientInv(c, rx);
    RegistersClean(c.mon, rx, c.cl[rx].k, op.sync);
  }

  lemma AttendedStep<M>(c: Chan<M>, op: Op<M>, rx: Tid)
    requires DeliveryInv(c) && Can(c, op) && Permitted(c, op) && rx < |c.cl|
    requires Sized(Next(c, op)) && |Next(c, op).cl| == |c.cl|
    ensures Attended(Next(c, op), rx)
  {
    hide Inv, Apply, Open, Turn, TaskInv, Ledger, Call, Pledged, Notifier, Clean, Permitted;
    var c' := Next(c, op);
    if IsWaiting(c'.mon.pc[rx]) {
      if !IsWaiting(c.mon.pc[rx]) {
        BeginsEmpty(c, op, rx);
        BeginsClean(c, op, rx);
      } else {
        var w, w' := Pending(c.mon.pc[rx]).value, Pending(c'.mon.pc[rx]).value;
        var e := Underlying(c, op);
        if e.Some? {
          WaitGoesOn(c.mon, e.value, rx);
        }
        StaysClean(c, op, rx, w, w');
        if c'.mon.lock.value != [] {
          AnsweredAs(c, op, rx, w);
          SameAnswer(c', rx, w, w');
        }
      }
    }
  }

  /** Every permitted step of every thread keeps it. */
  lemma DeliveryStep<M>(c: Chan<M>, op: Op<M>)
    requires DeliveryInv(c) && Can(c, op) && Permitted(c, op)
    ensures DeliveryInv(Next(c, op)) && |Next(c, op).cl| == |c.cl|
  {
    hide Apply, Open, Turn, TaskInv, Call, Attended, Inv, Ledger, ClientInv, Underlying, Can, Permitted;
    ChanStep(c, op);
    SizedNext(c, op);
    MonitorKept(c, op);
    forall t | 0 <= t < |c.cl|
      ensures Attended(Next(c, op), t)
    {
      AttendedStep(c, op, t);
    }
  }

  lemma SizedNext<M>(c: Chan<M>, op: Op<M>)
    requires ChanInv(c) && Can(c, op)
    ensures Sized(Next(c, op))
  {
    Refines(c, op);
  }

  lemma MonitorKept<M>(c: Chan<M>, op: Op<M>)
    requires DeliveryInv(c) && Can(c, op)
    ensures TaskInv(Next(c, op).mon)
  {
    hide Apply, Open, Turn, TaskInv, Call, Attended;
    if Underlying(c, op).Some? {
      TaskStep(c.mon, Underlying(c, op).value);
    }
  }
}
