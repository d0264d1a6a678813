/** The condition under which `ChannelDelivery` lets a receive begin to wait is exact. From every reachable state in
    which a receive is about to wait and every other thread is between operations: some continuation leaves a message
    in the queue, the receiver asleep and nobody about to wake it, if and only if an old entry is in the way. */
module ChannelStale {
  import opened Basics
  import opened Monitor
  import opened MonitorSafety
  import opened MonitorRuns
  import opened MonitorTasks
  import opened MonitorOwn
  import opened Channel
  import opened ChannelSafety
  import opened ChannelDelivery
  import opened ChannelRuns
  import opened ChannelProgress
  import opened ChannelOwn
  import opened ChannelClosing

  /** A message is queued, the receiver sleeps, and no thread has a notification or a wake-up for it to perform. */
  ghost predicate Lost<M>(c: Chan<M>, rx: Tid)
    requires Sized(c) && rx < |c.cl|
  {
    c.mon.lock.value != [] && Unsignalled(c.mon, rx) && (IsWaiting(c.mon.pc[rx]) ==> !HelpComes(c, rx))
  }

  /** Thread `rx` registers its wait first, and is still in that wait when the message is lost. */
  ghost predicate Loses<M>(c: Chan<M>, rx: Tid, ops: seq<Op<M>>)
    requires Sized(c) && rx < |c.cl|
  {
    && Runs(c, ops) && ops != [] && ops[0].Act? && ops[0].t == rx && OnlyOnce(ops[1..], rx)
    && Lost(Outcome(c, ops), rx)
  }

  predicate OnlyOnce<M>(ops: seq<Op<M>>, rx: Tid) {
    forall i :: 0 <= i < |ops| ==> !(ops[i].Act? && ops[i].t == rx)
  }

  /** A reachable state in which thread `rx` is about to wait by kind `k`, its deadline still ahead, thread `u` has a
      sender, and every thread but `rx` is between operations. */
  ghost predicate AboutToWait<M>(n: nat, first: Tid, before: seq<Op<M>>, c: Chan<M>, rx: Tid, k: Kind, u: Tid) {
    && first < n && Runs(Channel.Init<M>(n, first), before) && c == Outcome(Channel.Init<M>(n, first), before)
    && rx < |c.cl| && c.cl[rx] == RecvWait(k) && Quiet(c, rx)
    && u < |c.cl| && u != rx && c.handles[u] > 0
    && (k.By? && k.how.Blocking? && k.dl.Some? ==> c.mon.rt.clock < k.dl.value)
  }

  lemma WaitFacts<M>(n: nat, first: Tid, before: seq<Op<M>>, c: Chan<M>, rx: Tid, k: Kind, u: Tid)
    requires AboutToWait(n, first, before, c, rx, k, u)
    ensures ChanInv(c) && TaskInv(c.mon) && k.By? && c.mon.pc[rx].In? && c.active && Alone(c.mon, rx)
    ensures c.mon.cond.spins == []
  {
    hide Inv, TaskInv, Ledger, Next;
    ChanInit<M>(n, first);
    ChanRun(Channel.Init<M>(n, first), before);
    NoTasks<seq<M>>(n, []);
    TasksRun(Channel.Init<M>(n, first), before);
    assert ClientInv(c, rx);
    IsActive(c, rx);
    QuietIsAlone(c, rx);
    NoFlags(c.mon, rx);
  }

  lemma IsActive<M>(c: Chan<M>, rx: Tid)
    requires Sized(c) && Ledger(c) && c.receiver == Some(rx)
    ensures c.active
  {
  }

  /** Nobody spins, so no flag is listed. */
  lemma NoFlags<T>(m: State<T>, rx: Tid)
    requires Inv(m) && rx < |m.pc| && Alone(m, rx) && m.pc[rx].In?
    ensures m.cond.spins == []
  {
    hide Inv;
    forall x | x in m.cond.spins
      ensures SpinWaited(m, x)
    {
      SpinsHave(m, x);
    }
    assert m.cond.spins != [] ==> SpinWaited(m, m.cond.spins[0]);
  }

  // ------------------------------------------------------------ unhindered: nothing is lost

  /** While thread `rx` stays in its wait nobody registers another. */
  lemma {:induction false} StaysOrderly<M>(c: Chan<M>, ops: seq<Op<M>>, rx: Tid)
    requires ChanInv(c) && rx < |c.cl| && c.cl[rx].RecvWaiting? && Runs(c, ops) && OnlyOnce(ops, rx)
    ensures Orderly(c, ops)
    decreases |ops|
  {
    hide Inv, Ledger, Next, Can;
    if ops != [] {
      var op := ops[0];
      ChanStep(c, op);
      WaitingStays(c, op, rx);
      StaysOrderly(Next(c, op), ops[1..], rx);
    }
  }

  lemma WaitingStays<M>(c: Chan<M>, op: Op<M>, rx: Tid)
    requires ChanInv(c) && Can(c, op) && rx < |c.cl| && c.cl[rx].RecvWaiting? && !(op.Act? && op.t == rx)
    ensures Permitted(c, op) && |Next(c, op).cl| == |c.cl| && Next(c, op).cl[rx].RecvWaiting?
  {
    hide Inv, Ledger, Apply, Turn;
    assert ClientInv(c, rx);
    SizedStep(c, op);
    if op.Act? {
      assert ClientInv(c, op.t);
    }
  }

  lemma NotLost<M>(c: Chan<M>, rx: Tid, k: Kind, ops: seq<Op<M>>)
    requires ChanInv(c) && TaskInv(c.mon) && rx < |c.cl| && c.cl[rx] == RecvWait(k)
    requires Unhindered(c.mon.cond.threads, rx, k)
    ensures !Loses(c, rx, ops)
  {
    hide Inv, TaskInv, Ledger, Next, Can, Unhindered, HelpComes, Unsignalled;
    if Loses(c, rx, ops) {
      NobodyWaits(c, rx);
      ChanStep(c, ops[0]);
      BeginsWaiting(c, ops[0], rx);
      StaysOrderly(Next(c, ops[0]), ops[1..], rx);
      assert Orderly(c, ops);
      DeliveryRun(c, ops);
      Helped(Outcome(c, ops), rx);
    }
  }

  lemma BeginsWaiting<M>(c: Chan<M>, op: Op<M>, rx: Tid)
    requires Sized(c) && Can(c, op) && rx < |c.cl| && c.cl[rx].RecvWait? && op.Act? && op.t == rx
    ensures |Next(c, op).cl| == |c.cl| && Next(c, op).cl[rx].RecvWaiting?
  {
    hide Apply;
  }

  /** Before the registration nobody waits, so there is nothing to attend to. */
  lemma NobodyWaits<M>(c: Chan<M>, rx: Tid)
    requires ChanInv(c) && TaskInv(c.mon) && rx < |c.cl| && c.cl[rx].RecvWait?
    ensures DeliveryInv(c)
  {
    hide Inv, TaskInv, Ledger, Clean;
    assert ClientInv(c, rx);
    forall t | 0 <= t < |c.cl|
      ensures Attended(c, t)
    {
      assert ClientInv(c, t);
      if IsWaiting(c.mon.pc[t]) {
        WaiterIsReceiver(c, t);
      }
    }
  }

  // ------------------------------------------------------------ hindered: a message can be lost

  /** Still listed, a timed wait goes back to its park, without a token. */
  lemma ParksListed<T>(m: State<T>, t: Tid, limit: nat, sync: Sync) returns (es: seq<Step<T>>)
    requires Wf(m) && t < |m.pc| && m.pc[t] == CvClock(limit, sync) && m.rt.clock < limit && t in m.cond.threads
    ensures Possible(m, es) && OwnOrClock(es, t)
    ensures var m' := Exec(m, es);
            && m'.pc == m.pc[t := CvParkUntil(limit, sync)] && t < |m'.rt.token| && !m'.rt.token[t]
            && m'.lock.value == m.lock.value
  {
    hide GoRelease, GoNotify, GoAcquire, Possible, Exec;
    EmptyRun(m);
    es := GoesOn(m, [], t);
    if m.rt.token[t] {
      es := GoesOn(m, es, t);
      es := GoesOn(m, es, t);
      es := GoesOn(m, es, t);
    }
  }

  lemma NobodyHelps<M>(c: Chan<M>, rx: Tid)
    requires Sized(c) && rx < |c.cl| && Quiet(c, rx) && Alone(c.mon, rx) && IsWaiting(c.mon.pc[rx])
    ensures !HelpComes(c, rx)
  {
  }

  /** The receiver has registered, and the message was sent: the notification went to the old entry. */
  lemma MessageWaits<M>(c: Chan<M>, rx: Tid, k: Kind, u: Tid, m: M) returns (ops: seq<Op<M>>)
    requires ChanInv(c) && TaskInv(c.mon) && rx < |c.cl| && c.cl[rx] == RecvWait(k) && k.By?
    requires c.mon.pc[rx].In? && c.active && Alone(c.mon, rx) && Quiet(c, rx) && c.mon.cond.spins == []
    requires u < |c.cl| && u != rx && c.handles[u] > 0 && !Unhindered(c.mon.cond.threads, rx, k)
    ensures Runs(c, ops) && ops != [] && ops[0] == Act(rx, SyncBlock) && OnlyOnce(ops[1..], rx)
    ensures var d := Outcome(c, ops);
            && |d.cl| == |c.cl| && |d.mon.pc| == |c.mon.pc| && Alone(d.mon, rx) && Quiet(d, rx)
            && d.mon.lock.value != [] && d.mon.pc[rx] == Proceed(Resume(WaitOf(c.mon, k)))
            && d.mon.rt.clock == c.mon.rt.clock
            && (k.how.Blocking? ==> rx in d.mon.cond.threads)
            && (k.how.Tasking? ==> c.mon.rt.next !in d.mon.rt.fired)
  {
    hide Runs, Outcome, Inv, Ledger, ClientInv, TaskInv;
    var waits := ComesToWait(c, rx, k);
    var d := Outcome(c, waits);
    assert d.cl[u].Idle? && d.mon.pc[u].Out?;
    var sends := SendsAlone(d, u, m);
    OutcomeConcat(c, waits, sends);
    ops := waits + sends;
    OthersOnly(waits, sends, rx, u);
    TasksRun(c, waits);
    if k.how.Tasking? {
      UnsentYet(d.mon, c.mon.rt.next);
    }
    assert ops[1..] == waits[1..] + sends;
  }

  /** A listed continuation is neither sent nor in the lock's list. */
  lemma UnsentYet<T>(m: State<T>, id: Sig)
    requires TaskInv(m) && id in m.cond.tasks
    ensures id !in m.rt.fired && id !in m.lock.tasks
  {
    assert Entry(m, id);
  }

  lemma OthersOnly<M>(waits: seq<Op<M>>, sends: seq<Op<M>>, rx: Tid, u: Tid)
    requires u != rx && waits != [] && sends != [] && sends[0].Send? && OwnActions(sends[1..], u)
    requires forall i :: 1 <= i < |waits| ==> waits[i] == Inner(Go(rx))
    ensures OnlyOnce(waits[1..] + sends, rx)
  {
    var q := waits[1..] + sends;
    forall i | 0 <= i < |q|
      ensures !(q[i].Act? && q[i].t == rx)
    {
      if i < |waits| - 1 {
        assert q[i] == waits[i + 1];
      } else if i > |waits| - 1 {
        assert q[i] == sends[1..][i - |waits|];
      }
    }
  }

  lemma CanLose<M>(c: Chan<M>, rx: Tid, k: Kind, u: Tid, m: M)
    requires ChanInv(c) && TaskInv(c.mon) && rx < |c.cl| && c.cl[rx] == RecvWait(k) && k.By?
    requires c.mon.pc[rx].In? && c.active && Alone(c.mon, rx) && Quiet(c, rx) && c.mon.cond.spins == []
    requires u < |c.cl| && u != rx && c.handles[u] > 0 && !Unhindered(c.mon.cond.threads, rx, k)
    requires k.how.Blocking? && k.dl.Some? ==> c.mon.rt.clock < k.dl.value
    ensures exists ops :: Loses(c, rx, ops)
  {
    hide Runs, Outcome, Inv, Ledger, ClientInv, TaskInv, Possible, Exec, HelpComes;
    var ops := MessageWaits(c, rx, k, u, m);
    var d := Outcome(c, ops);
    if k.how.Blocking? {
      var es := ParksListed(d.mon, rx, k.dl.value, SyncBlock);
      var more := Inside(c, ops, es);
      assert more[1..] == ops[1..] + Lift<M>(es);
      ops := more;
    }
    NobodyHelps(Outcome(c, ops), rx);
    assert Loses(c, rx, ops);
  }

  /** The exact condition: with a sender elsewhere, a message can be lost in the wait that begins if and only if a
      timed blocking receive finds its thread listed, or an asynchronous one finds any thread listed. */
  lemma LosesIffHindered<M>(n: nat, first: Tid, before: seq<Op<M>>, c: Chan<M>, rx: Tid, k: Kind, u: Tid, m: M)
    requires AboutToWait(n, first, before, c, rx, k, u)
    ensures Sized(c) && rx < |c.cl|
    ensures !Unhindered(c.mon.cond.threads, rx, k) <==> exists ops :: Loses(c, rx, ops)
  {
    hide ChanInv, TaskInv, Unhindered, Loses;
    WaitFacts(n, first, before, c, rx, k, u);
    IsSized(c);
    if Unhindered(c.mon.cond.threads, rx, k) {
      forall ops: seq<Op<M>>
        ensures !Loses(c, rx, ops)
      {
        NotLost(c, rx, k, ops);
      }
    } else {
      CanLose(c, rx, k, u, m);
    }
  }

  // ------------------------------------------------------------ how an old entry comes to be in the way

  /** `recv_block`. */
  const PLAIN := By(Blocking, None)

  /** `d` is `c` but for the monitor and the logs: the same operations at the same places, the same handles. */
  ghost predicate Alike<M>(c: Chan<M>, d: Chan<M>, rx: Tid)
    requires Sized(c) && Sized(d)
  {
    && d.cl == c.cl && d.handles == c.handles && d.senderCount == c.senderCount && d.receiver == c.receiver
    && d.active == c.active && |d.mon.pc| == |c.mon.pc| && d.mon.rt.clock == c.mon.rt.clock
    && (Alone(c.mon, rx) ==> Alone(d.mon, rx))
  }

  /** The park of `recv_block` returns spuriously, the queue is still empty, and the receive is about to wait again:
      its thread is listed. */
  lemma WaitsAgain<M>(c: Chan<M>, rx: Tid) returns (ops: seq<Op<M>>)
    requires Sized(c) && rx < |c.cl| && c.cl[rx] == RecvWait(PLAIN) && c.mon.pc[rx].In? && c.mon.lock.value == []
    requires c.senderCount != 0
    ensures Runs(c, ops)
    ensures var d := Outcome(c, ops);
            && Alike(c, d, rx) && d.mon.pc[rx].In? && d.mon.lock.value == [] && d.mon.cond.spins == c.mon.cond.spins
            && d.mon.cond.threads == c.mon.cond.threads + [rx]
  {
    hide GoRelease, GoAwait, GoNotify, Runs, Outcome;
    ops := ComesToWait(c, rx, PLAIN);
    ops := Then(c, ops, Inner(Spurious(rx)));
    ops := Then(c, ops, Inner(Go(rx)));
    ops := Then(c, ops, Act(rx, SyncBlock));
    ops := Then(c, ops, Act(rx, SyncBlock));
    assert Outcome(c, ops).cl == c.cl;
  }

  /** It waits, and thread `u` sends `m` and notifies it. */
  lemma IsNotified<M>(c: Chan<M>, rx: Tid, u: Tid, m: M) returns (ops: seq<Op<M>>)
    requires Sized(c) && rx < |c.cl| && c.cl[rx] == RecvWait(PLAIN) && c.mon.pc[rx].In? && c.mon.lock.value == []
    requires u < |c.cl| && u != rx && c.cl[u].Idle? && c.mon.pc[u].Out? && c.handles[u] > 0 && c.active
    requires c.mon.cond.spins == []
    ensures Runs(c, ops)
    ensures var d := Outcome(c, ops);
            && Alike(c.(cl := c.cl[rx := RecvWaiting(PLAIN)]), d, rx) && d.mon.lock.value == [m] && !d.mon.lock.held
            && d.mon.cond == c.mon.cond && d.mon.pc[rx] == CvPark(SyncBlock) && d.mon.rt.token[rx]
  {
    hide Advance, Runs, Outcome;
    var waits := ComesToWait(c, rx, PLAIN);
    var d := Outcome(c, waits);
    var sends := SendsAlone(d, u, m);
    OutcomeConcat(c, waits, sends);
    ops := waits + sends;
    assert (c.mon.cond.threads + [rx])[..|c.mon.cond.threads|] == c.mon.cond.threads;
  }

  /** It wakes and takes the message off the queue. */
  lemma Wakes<M>(c: Chan<M>, rx: Tid, m: M) returns (ops: seq<Op<M>>)
    requires Sized(c) && rx < |c.cl| && c.cl[rx] == RecvWaiting(PLAIN) && c.mon.pc[rx] == CvPark(SyncBlock)
    requires c.mon.rt.token[rx] && !c.mon.lock.held && c.mon.lock.value == [m]
    ensures Runs(c, ops)
    ensures var d := Outcome(c, ops);
            && Alike(c.(cl := c.cl[rx := RecvUnlock(Got(m))]), d, rx) && d.mon.pc[rx].In? && d.mon.lock.value == []
            && d.mon.cond == c.mon.cond
  {
    hide GoRelease, GoNotify, Runs, Outcome, Turn, Call;
    Nothing(c);
    ops := Then(c, [], Inner(Go(rx)));
    ops := Then(c, ops, Inner(Go(rx)));
    var c1 := Outcome(c, ops);
    PopsOnly(c1, rx, m);
    ops := Then(c, ops, Act(rx, SyncBlock));
  }

  lemma PopsOnly<M>(c: Chan<M>, rx: Tid, m: M)
    requires Sized(c) && rx < |c.cl| && c.cl[rx].RecvWaiting? && c.mon.pc[rx] == In(Waited(false))
    requires c.mon.lock.value == [m]
    ensures Can(c, Act(rx, SyncBlock))
    ensures var d := Next(c, Act(rx, SyncBlock));
            && d == c.(mon := d.mon, cl := c.cl[rx := RecvUnlock(Got(m))], log := d.log)
            && d.mon == c.mon.(lock := c.mon.lock.(value := []))
  {
    assert [m][1..] == [];
  }

  /** The receive returns. */
  lemma Ends<M>(c: Chan<M>, rx: Tid, r: Result<M>) returns (ops: seq<Op<M>>)
    requires Sized(c) && rx < |c.cl| && c.cl[rx] == RecvUnlock(r) && c.mon.pc[rx].In?
    ensures Runs(c, ops)
    ensures var d := Outcome(c, ops);
            && Alike(c.(cl := c.cl[rx := Idle]), d, rx) && d.mon.pc[rx].Out? && !d.mon.lock.held
            && d.mon.lock.value == c.mon.lock.value && d.mon.cond == c.mon.cond
  {
    hide Advance, Runs, Outcome, Possible, Exec, Alike;
    Unlocks(c, rx, r);
    Nothing(c);
    ops := Then(c, [], Act(rx, SyncBlock));
    var c1 := Outcome(c, ops);
    var es := FinishRelease(c1.mon, rx);
    ops := Inside(c, ops, es);
    Returned(c, c1, Outcome(c, ops), rx, r);
    ops := Then(c, ops, Act(rx, SyncBlock));
  }

  lemma Unlocks<M>(c: Chan<M>, rx: Tid, r: Result<M>)
    requires Sized(c) && rx < |c.cl| && c.cl[rx] == RecvUnlock(r) && c.mon.pc[rx].In?
    ensures Can(c, Act(rx, SyncBlock))
    ensures Next(c, Act(rx, SyncBlock)) == c.(cl := c.cl[rx := RecvReturn(r)], mon := At(c.mon, rx, Release(Leave)))
  {
  }

  lemma Returned<M>(c: Chan<M>, c1: Chan<M>, d: Chan<M>, rx: Tid, r: Result<M>)
    requires Sized(c) && Sized(c1) && Sized(d) && rx < |c.cl| && c.cl[rx] == RecvUnlock(r)
    requires c1 == c.(cl := c.cl[rx := RecvReturn(r)], mon := At(c.mon, rx, Release(Leave)))
    requires d == c1.(mon := d.mon) && Released(c1.mon, d.mon, rx)
    ensures Can(d, Act(rx, SyncBlock))
    ensures var e := Next(d, Act(rx, SyncBlock));
            && Sized(e) && Alike(c.(cl := c.cl[rx := Idle]), e, rx) && e.mon.pc[rx].Out? && !e.mon.lock.held
            && e.mon.lock.value == c.mon.lock.value && e.mon.cond == c.mon.cond
  {
    hide Apply, Advance;
  }

  /** The next receive locks, finds the queue empty and a sender alive, and is about to wait. */
  lemma Locks<M>(c: Chan<M>, rx: Tid, k: Kind) returns (ops: seq<Op<M>>)
    requires Sized(c) && rx < |c.cl| && c.cl[rx].Idle? && c.mon.pc[rx].Out? && c.receiver == Some(rx)
    requires !c.mon.lock.held && k.By? && (k.dl.Some? ==> c.mon.rt.clock < k.dl.value)
    ensures Runs(c, ops) && ops != [] && ops[0] == Recv(rx, k) && OwnActions(ops[1..], rx)
    ensures var d := Outcome(c, ops);
            && Alike(c.(cl := c.cl[rx := RecvLock(k)]), d, rx) && d.mon.pc[rx].In?
            && d.mon.lock == c.mon.lock.(held := true) && d.mon.cond == c.mon.cond && d.mon.rt == c.mon.rt
  {
    hide GoRelease, GoAwait, GoNotify, Runs, Outcome;
    Nothing(c);
    ops := Then(c, [], Recv(rx, k));
    ops := Then(c, ops, Inner(Go(rx)));
    if k.dl.Some? && !k.how.Spinning? {
      ops := Then(c, ops, Inner(Go(rx)));
    }
  }

  lemma Counts<M>(c: Chan<M>, rx: Tid, k: Kind) returns (ops: seq<Op<M>>)
    requires Sized(c) && rx < |c.cl| && c.cl[rx] == RecvLock(k) && c.mon.pc[rx].In? && k.By?
    requires c.mon.lock.value == [] && c.senderCount != 0
    ensures Runs(c, ops) && OwnActions(ops, rx) && Outcome(c, ops) == c.(cl := c.cl[rx := RecvWait(k)])
  {
    hide Runs, Outcome;
    Nothing(c);
    ops := Then(c, [], Act(rx, SyncBlock));
    ops := Then(c, ops, Act(rx, SyncBlock));
  }

  /** From a reachable state on, to one in which a receive of kind `k` is about to wait with an old entry in the way. */
  ghost predicate LeavesOld<M>(n: nat, first: Tid, before: seq<Op<M>>, rx: Tid, k: Kind, u: Tid, ops: seq<Op<M>>,
                               d: Chan<M>)
  {
    AboutToWait(n, first, before + ops, d, rx, k, u) && !Unhindered(d.mon.cond.threads, rx, k)
  }

  /** A `recv_block` that parks twice, once returning spuriously, and then receives. */
  lemma PlainReceives<M>(c: Chan<M>, rx: Tid, u: Tid, m: M) returns (ops: seq<Op<M>>)
    requires Sized(c) && rx < |c.cl| && c.cl[rx] == RecvWait(PLAIN) && c.mon.pc[rx].In? && c.mon.lock.value == []
    requires u < |c.cl| && u != rx && c.cl[u].Idle? && c.mon.pc[u].Out? && c.handles[u] > 0 && c.active
    requires c.mon.cond.spins == [] && c.senderCount != 0 && Alone(c.mon, rx)
    ensures Runs(c, ops)
    ensures var d := Outcome(c, ops);
            && Alike(c.(cl := c.cl[rx := RecvUnlock(Got(m))]), d, rx) && d.mon.pc[rx].In? && d.mon.lock.value == []
            && d.mon.cond.threads == c.mon.cond.threads + [rx]
  {
    hide Runs, Outcome, Next, Can, Apply;
    ops := WaitsAgain(c, rx);
    var c1 := Outcome(c, ops);
    var more := IsNotified(c1, rx, u, m);
    OutcomeConcat(c, ops, more);
    ops := ops + more;
    var c2 := Outcome(c1, more);
    more := Wakes(c2, rx, m);
    OutcomeConcat(c, ops, more);
    ops := ops + more;
    assert c.cl[rx := RecvWaiting(PLAIN)][rx := RecvUnlock(Got(m))] == c.cl[rx := RecvUnlock(Got(m))];
  }

  /** It returns, and the next receive is about to wait. */
  lemma NextReceive<M>(c: Chan<M>, rx: Tid, k: Kind, m: M) returns (ops: seq<Op<M>>)
    requires Sized(c) && rx < |c.cl| && c.cl[rx] == RecvUnlock(Got(m)) && c.mon.pc[rx].In? && c.mon.lock.value == []
    requires c.senderCount != 0 && c.receiver == Some(rx) && Alone(c.mon, rx)
    requires k.By? && !k.how.Spinning? && (k.dl.Some? ==> c.mon.rt.clock < k.dl.value)
    ensures Runs(c, ops)
    ensures var d := Outcome(c, ops);
            Alike(c.(cl := c.cl[rx := RecvWait(k)]), d, rx) && d.mon.cond == c.mon.cond
  {
    hide Runs, Outcome, Next, Can, Apply;
    ops := Ends(c, rx, Got(m));
    var c1 := Outcome(c, ops);
    var more := Locks(c1, rx, k);
    OutcomeConcat(c, ops, more);
    ops := ops + more;
    var c2 := Outcome(c1, more);
    more := Counts(c2, rx, k);
    OutcomeConcat(c, ops, more);
    ops := ops + more;
    assert c.cl[rx := Idle][rx := RecvLock(k)][rx := RecvWait(k)] == c.cl[rx := RecvWait(k)];
  }

  /** The failing case is reached: from every reachable state in which a `recv_block` is about to wait, a spurious
      return leads to one in which the next timed blocking or asynchronous receive has an old entry in the way. */
  lemma OldEntryIsReached<M>(n: nat, first: Tid, before: seq<Op<M>>, c: Chan<M>, rx: Tid, k: Kind, u: Tid, m: M)
    requires AboutToWait(n, first, before, c, rx, PLAIN, u)
    requires k.By? && (k.how.Tasking? || (k.how.Blocking? && k.dl.Some?))
    requires k.dl.Some? ==> c.mon.rt.clock < k.dl.value
    ensures exists ops, d :: LeavesOld(n, first, before, rx, k, u, ops, d)
  {
    hide Inv, TaskInv, Runs, Outcome, Channel.Init;
    WaitFacts(n, first, before, c, rx, PLAIN, u);
    Senders(c, rx, u);
    var ops := PlainReceives(c, rx, u, m);
    var more := NextReceive(Outcome(c, ops), rx, k, m);
    OutcomeConcat(c, ops, more);
    ops := ops + more;
    OutcomeConcat(Channel.Init<M>(n, first), before, ops);
    assert rx in c.mon.cond.threads + [rx];
    assert LeavesOld(n, first, before, rx, k, u, ops, Outcome(c, ops));
  }

  lemma Senders<M>(c: Chan<M>, rx: Tid, u: Tid)
    requires ChanInv(c) && rx < |c.cl| && c.cl[rx].RecvWait? && u < |c.cl| && c.handles[u] > 0
    ensures c.senderCount != 0 && c.receiver == Some(rx) && c.mon.lock.value == []
  {
    hide Inv;
    assert ClientInv(c, rx);
    if c.senderCount == 0 {
      NoSenders(c, u);
    }
  }
}
