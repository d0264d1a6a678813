/** What the delivery invariant means: no message waits for a receiver that sleeps. */
module ChannelProgress {
  import opened Basics
  import opened Monitor
  import opened MonitorSteps
  import opened MonitorSafety
  import opened MonitorRuns
  import opened MonitorTasks
  import opened Channel
  import opened ChannelFit
  import opened ChannelSafety
  import opened ChannelDelivery
  import opened ChannelRuns

  lemma DeliveryInit<M>(n: nat, first: Tid)
    requires first < n
    ensures DeliveryInv(Channel.Init<M>(n, first))
  {
    hide Inv;
    ChanInit<M>(n, first);
  }

  /** Every step of the run is permitted where it is taken. */
  ghost predicate Orderly<M>(c: Chan<M>, ops: seq<Op<M>>)
    requires Sized(c) && Runs(c, ops)
    decreases |ops|
  {
    ops == [] || (Permitted(c, ops[0]) && (SizedStep(c, ops[0]); Orderly(Next(c, ops[0]), ops[1..])))
  }

  lemma {:induction false} DeliveryRun<M>(c: Chan<M>, ops: seq<Op<M>>)
    requires DeliveryInv(c) && Runs(c, ops) && Orderly(c, ops)
    ensures DeliveryInv(Outcome(c, ops))
    decreases |ops|
  {
    hide Next, Inv, TaskInv, Ledger, Attended, ClientInv, Permitted;
    if ops != [] {
      DeliveryStep(c, ops[0]);
      DeliveryRun(Next(c, ops[0]), ops[1..]);
    }
  }

  /** The receiver waits and what it waits for has not come: no token at its park, its spin flag not
      stored, its continuation not sent. */
  predicate Unsignalled<T>(m: State<T>, rx: Tid)
    requires Wf(m) && rx < |m.pc|
  {
    var p := m.pc[rx];
    || ((p.CvPark? || p.CvParkUntil?) && !m.rt.token[rx])
    || ((p.CvSpin? || p.CvSpinClock?) && p.id !in m.rt.flags)
    || ((p.CvPoll? || p.CvTimer?) && p.id !in m.rt.fired)
  }

  /** Thread `u` is about to unpark the receiver, or to store or send what it waits for. */
  predicate Signals(p: Pc, rx: Tid, w: Waiting) {
    match w
    case OnThread(_) => rx in Unparks(p)
    case OnThreadUntil(_, _) => rx in Unparks(p)
    case OnFlag(id, _, _) => id in Stores(p)
    case OnTask(id, _) => id in Sends(p)
  }

  ghost predicate HelpComes<M>(c: Chan<M>, rx: Tid)
    requires Sized(c) && rx < |c.cl| && IsWaiting(c.mon.pc[rx])
  {
    var w := Pending(c.mon.pc[rx]).value;
    exists u :: 0 <= u < |c.cl| && u != rx && (Notifier(c.cl[u], c.mon.pc[u], w) || Signals(c.mon.pc[u], rx, w))
  }

  /** A pledged wake-up that has not arrived is in some other thread's hands. */
  lemma PledgeInHand<T>(m: State<T>, rx: Tid) returns (u: Tid)
    requires Inv(m) && rx < |m.pc| && IsWaiting(m.pc[rx]) && Unsignalled(m, rx)
    requires Pledged(m, rx, Pending(m.pc[rx]).value)
    ensures u < |m.pc| && u != rx && Signals(m.pc[u], rx, Pending(m.pc[rx]).value)
  {
    hide Inv;
    match Pending(m.pc[rx]).value {
      case OnThread(_) =>
        u :| 0 <= u < |m.pc| && rx in Unparks(m.pc[u]);
      case OnThreadUntil(_, _) =>
        WaiterHas(m, rx);
        u :| 0 <= u < |m.pc| && rx in Unparks(m.pc[u]);
      case OnFlag(id, _, _) =>
        SpinsHave(m, id);
        assert SpinWaits(m.pc[rx], id);
        u :| 0 <= u < |m.pc| && id in Stores(m.pc[u]);
      case OnTask(id, _) =>
        TasksHave(m, id);
        assert TaskWaits(m.pc[rx], id);
        u :| 0 <= u < |m.pc| && id in Sends(m.pc[u]);
    }
  }

  lemma TasksHave<T>(m: State<T>, id: Sig)
    requires Inv(m)
    ensures CvTaskReachable(m, id)
  {
  }

  lemma Helped<M>(c: Chan<M>, rx: Tid)
    requires DeliveryInv(c) && rx < |c.cl| && Unsignalled(c.mon, rx) && c.mon.lock.value != []
    ensures IsWaiting(c.mon.pc[rx]) && HelpComes(c, rx)
  {
    hide Inv, TaskInv, Ledger, ClientInv, Pledged, Notifier, Clean;
    assert IsWaiting(c.mon.pc[rx]) && Attended(c, rx);
    var w := Pending(c.mon.pc[rx]).value;
    if Pledged(c.mon, rx, w) {
      var u := PledgeInHand(c.mon, rx);
      assert Signals(c.mon.pc[u], rx, w);
    } else {
      var u :| 0 <= u < |c.cl| && u != rx && Notifier(c.cl[u], c.mon.pc[u], w);
    }
  }

  /** `c` is reached by the orderly run `ops` from a new channel. */
  ghost predicate Reached<M>(n: nat, first: Tid, ops: seq<Op<M>>, c: Chan<M>) {
    && first < n && Runs(Channel.Init<M>(n, first), ops) && Orderly(Channel.Init<M>(n, first), ops)
    && c == Outcome(Channel.Init<M>(n, first), ops)
  }

  lemma ReachedDelivers<M>(n: nat, first: Tid, ops: seq<Op<M>>, c: Chan<M>)
    requires Reached(n, first, ops, c)
    ensures DeliveryInv(c)
  {
    hide DeliveryInv, Orderly, Next;
    DeliveryInit<M>(n, first);
    DeliveryRun(Channel.Init<M>(n, first), ops);
  }

  /** No lost message, end to end. Whenever a thread waits unsignalled in a receive while the queue holds a
      message, some sender has pushed and has its `notify_one` still to perform, or some thread has
      taken the receiver's entry and has its wake-up still to perform. The mutex and the condition
      variable share the receiver's one token, stale entries may be listed, and the receiver may have moved. */
  lemma NoLostMessage<M>(n: nat, first: Tid, ops: seq<Op<M>>, c: Chan<M>, rx: Tid)
    requires Reached(n, first, ops, c) && Sized(c) && rx < |c.cl|
    requires Unsignalled(c.mon, rx) && c.mon.lock.value != []
    ensures IsWaiting(c.mon.pc[rx]) && HelpComes(c, rx)
  {
    hide DeliveryInv, Unsignalled, HelpComes, IsWaiting, Reached;
    ReachedDelivers(n, first, ops, c);
    Helped(c, rx);
  }

  /** A spinning receiver never misses a message. While thread `rx` waits on a flag, the spin list holds at most that
      one; and if the flag is not set and the queue holds a message, some sender still owes its pop, or some
      thread the store of that flag. */
  lemma SpinReceiver<M>(n: nat, first: Tid, ops: seq<Op<M>>, c: Chan<M>, rx: Tid, id: Sig)
    requires Reached(n, first, ops, c) && Sized(c) && rx < |c.cl| && SpinWaits(c.mon.pc[rx], id)
    ensures |c.mon.cond.spins| <= 1 && forall x :: x in c.mon.cond.spins ==> x == id
    ensures id !in c.mon.rt.flags && c.mon.lock.value != []
            ==> exists u :: 0 <= u < |c.cl| && u != rx
                            && (Notifier(c.cl[u], c.mon.pc[u], Pending(c.mon.pc[rx]).value)
                                || id in Stores(c.mon.pc[u]))
  {
    hide Inv, Notifier, Reached, Attended, ClientInv, Ledger;
    ReachedDelivers(n, first, ops, c);
    IsSole(c, rx);
    forall x | x in c.mon.cond.spins
      ensures x == id
    {
      SoleFlag(c.mon, rx, x);
    }
    SpinsHave(c.mon, id);
    AllTheSame(c.mon.cond.spins, id);
    if id !in c.mon.rt.flags && c.mon.lock.value != [] {
      SpinHelp(c, rx, id);
    }
  }

  lemma AllTheSame(q: seq<nat>, x: nat)
    requires NoDup(q) && forall y :: y in q ==> y == x
    ensures |q| <= 1
  {
    CardinalityNoDup(q);
    if q != [] {
      assert q[0] in q && SetOf(q) == {x};
    }
  }

  lemma SoleFlag<T>(m: State<T>, rx: Tid, id: Sig)
    requires Sole(m, rx)
    ensures id in m.cond.spins ==> SpinWaits(m.pc[rx], id)
  {
    hide Inv, TaskInv;
    SpinsHave(m, id);
  }

  lemma SpinHelp<M>(c: Chan<M>, rx: Tid, id: Sig)
    requires DeliveryInv(c) && rx < |c.cl| && SpinWaits(c.mon.pc[rx], id)
    requires id !in c.mon.rt.flags && c.mon.lock.value != []
    ensures exists u :: 0 <= u < |c.cl| && u != rx
                        && (Notifier(c.cl[u], c.mon.pc[u], Pending(c.mon.pc[rx]).value) || id in Stores(c.mon.pc[u]))
  {
    hide Inv, TaskInv, Ledger, ClientInv, Notifier, Clean;
    assert Attended(c, rx);
    var w := Pending(c.mon.pc[rx]).value;
    assert IsWaiting(c.mon.pc[rx]);
    if Pledged(c.mon, rx, w) {
      SpinsHave(c.mon, id);
      var u :| 0 <= u < |c.mon.pc| && id in Stores(c.mon.pc[u]);
      assert u != rx;
    } else {
      var u :| 0 <= u < |c.cl| && u != rx && Notifier(c.cl[u], c.mon.pc[u], w);
    }
  }

  // ------------------------------------------------------------ the receiver goes on

  /** Every other thread is between operations. */
  predicate Quiet<M>(c: Chan<M>, rx: Tid)
    requires Sized(c)
  {
    forall u :: 0 <= u < |c.cl| && u != rx ==> c.cl[u].Idle?
  }

  predicate Alone<T>(m: State<T>, t: Tid) {
    forall u :: 0 <= u < |m.pc| && u != t ==> m.pc[u].Out?
  }

  lemma QuietIsAlone<M>(c: Chan<M>, rx: Tid)
    requires ChanInv(c) && Quiet(c, rx)
    ensures Alone(c.mon, rx)
  {
    hide Inv, Ledger;
    forall u | 0 <= u < |c.mon.pc| && u != rx
      ensures c.mon.pc[u].Out?
    {
      assert ClientInv(c, u);
    }
  }

  /** Alone, a thread that acquires the lock is never blocked. */
  lemma AcquireGoesOn<T>(m: State<T>, t: Tid)
    requires Inv(m) && t < |m.pc| && Alone(m, t) && Acquires(m.pc[t])
    ensures CanGo(m, t) && !m.lock.held
  {
    if m.pc[t].BlockPark? && !m.rt.token[t] {
      ParkedIsRescued(m, t);
    }
    if m.pc[t].TaskPoll? && m.pc[t].id !in m.rt.fired {
      TaskIsRescued(m, t, m.pc[t].id);
    }
  }

  lemma TaskIsRescued<T>(m: State<T>, t: Tid, id: Sig)
    requires Inv(m) && t < |m.pc| && LockAwaits(m.pc[t], id) && id !in m.rt.fired
    ensures exists u :: 0 <= u < |m.pc| && u != t && !m.pc[u].Out?
  {
    AwaitedIsRescued(m, t, id);
    var u :| 0 <= u < |m.pc| && u != t && (Holds(m.pc[u]) || OwesTasks(m.pc[u]) || id in Sends(m.pc[u]));
    assert !m.pc[u].Out?;
  }

  /** Alone and with a message in the queue, the receiver is never blocked in its wait. */
  lemma WaitGoesThrough<M>(c: Chan<M>, rx: Tid)
    requires DeliveryInv(c) && rx < |c.cl| && Quiet(c, rx) && c.mon.lock.value != [] && Awaits(c.mon.pc[rx])
    ensures !Unsignalled(c.mon, rx) && CanGo(c.mon, rx)
  {
    hide Inv, TaskInv, Ledger;
    if Unsignalled(c.mon, rx) {
      Helped(c, rx);
      QuietIsAlone(c, rx);
    }
  }

  /** The receiver's own next action: its monitor call's, or its operation's. */
  function OwnOp<M>(c: Chan<M>, rx: Tid): Op<M>
    requires Sized(c) && rx < |c.cl|
  {
    if CallDone(c.cl[rx], c.mon.pc[rx]) then Act(rx, SyncBlock) else Inner(Go(rx))
  }

  /** Never stuck: with a message in the queue and every other thread between operations, a receive in
      progress can take its next action, without a spurious wake-up. */
  lemma ReceiverGoesOn<M>(c: Chan<M>, rx: Tid)
    requires DeliveryInv(c) && rx < |c.cl| && Quiet(c, rx) && c.mon.lock.value != [] && Receiving(c.cl[rx])
    ensures Can(c, OwnOp(c, rx))
  {
    hide Inv, TaskInv, Ledger;
    assert ClientInv(c, rx);
    if !CallDone(c.cl[rx], c.mon.pc[rx]) {
      if Acquires(c.mon.pc[rx]) {
        QuietIsAlone(c, rx);
        AcquireGoesOn(c.mon, rx);
      } else if Awaits(c.mon.pc[rx]) {
        WaitGoesThrough(c, rx);
      }
    }
  }

  /** How many actions an untimed receive is from its `pop_front`, at most. */
  function Distance<T>(m: State<T>, p: Pc): nat {
    var l, k := |m.lock.threads|, |m.lock.tasks|;
    match p
    case In(_) => 0
    case SpinSwap(_, _) => 1
    case BlockEnter(_, _) => 1
    case TaskEnter(_, _) => 1
    case BlockPark(_, _) => 2
    case TaskPoll(_, _, _) => 2
    case CvPark(_) => 3
    case CvSpin(_, _, _) => 3
    case CvPoll(_, _) => 3
    case WakeTasks(gs, _) => 4 + |gs|
    case TakeTasks(_) => 5 + k
    case WakeThreads(ws, _) => 6 + |ws| + k
    case TakeThreads(_) => 7 + l + k
    case _ => 8 + l + k
  }

  predicate NoLimit(k: Kind) { k.By? && k.dl.None? }

  lemma DistanceFalls<T>(m: State<T>, t: Tid, k: Kind)
    requires Wf(m) && t < |m.pc| && CanGo(m, t) && NoLimit(k)
    requires Acquires(m.pc[t]) ==> !m.lock.held
    requires Fits(Locking(k), m.pc[t]) || Fits(Awaiting(k.how, k.dl), m.pc[t])
    ensures var m' := Advance(m, t); |m'.pc| == |m.pc| && Distance(m', m'.pc[t]) < Distance(m, m.pc[t])
  {
    hide GoNotify;
  }

  predicate InReceive<M>(c: Chan<M>, rx: Tid, k: Kind)
    requires Sized(c)
  {
    rx < |c.cl| && NoLimit(k) && (c.cl[rx] == RecvLock(k) || c.cl[rx] == RecvWaiting(k))
  }

  /** The receiver's action inside its monitor call brings it nearer, and changes nothing else. */
  lemma Nearer<M>(c: Chan<M>, rx: Tid, k: Kind)
    requires DeliveryInv(c) && rx < |c.cl| && Quiet(c, rx) && c.mon.lock.value != [] && InReceive(c, rx, k)
    requires !CallDone(c.cl[rx], c.mon.pc[rx])
    ensures Can(c, Inner(Go(rx)))
    ensures var d := Next(c, Inner(Go(rx)));
            && DeliveryInv(d) && Quiet(d, rx) && InReceive(d, rx, k)
            && d.mon.lock.value == c.mon.lock.value && d.log == c.log
            && Distance(d.mon, d.mon.pc[rx]) < Distance(c.mon, c.mon.pc[rx])
  {
    hide Inv, TaskInv, Ledger, Advance, Attended;
    var op: Op<M> := Inner(Go(rx));
    ReceiverGoesOn(c, rx);
    DeliveryStep(c, op);
    ValueKept(c.mon, op.e);
    assert ClientInv(c, rx);
    if Acquires(c.mon.pc[rx]) {
      QuietIsAlone(c, rx);
      AcquireGoesOn(c.mon, rx);
    }
    DistanceFalls(c.mon, rx, k);
  }

  /** Back with the guard, the receiver pops the first message. */
  lemma Pops<M>(c: Chan<M>, rx: Tid, k: Kind)
    requires ChanInv(c) && c.mon.lock.value != [] && InReceive(c, rx, k) && CallDone(c.cl[rx], c.mon.pc[rx])
    ensures var op := Act(rx, SyncBlock);
            && Can(c, op)
            && Next(c, op).log.received == c.log.received + [c.mon.lock.value[0]]
            && Next(c, op).cl[rx] == RecvUnlock(Got(c.mon.lock.value[0]))
  {
    hide Inv, Ledger, Apply;
    assert ClientInv(c, rx);
  }

  /** Delivery: from any reachable state with a message in the queue, a receive without a time limit in
      progress and every other thread between operations, the receiver's own actions, at most this
      many and no spurious wake-up among them, return the oldest message. */
  lemma {:induction false} Delivers<M>(c: Chan<M>, rx: Tid, k: Kind) returns (ops: seq<Op<M>>)
    requires DeliveryInv(c) && rx < |c.cl| && Quiet(c, rx) && c.mon.lock.value != [] && InReceive(c, rx, k)
    ensures Runs(c, ops) && |ops| <= Distance(c.mon, c.mon.pc[rx]) + 1
    ensures forall i :: 0 <= i < |ops| ==> ops[i] == Act(rx, SyncBlock) || ops[i] == Inner(Go(rx))
    ensures var c' := Outcome(c, ops);
            && c'.log.received == c.log.received + [c.mon.lock.value[0]]
            && c'.cl[rx] == RecvUnlock(Got(c.mon.lock.value[0]))
    decreases Distance(c.mon, c.mon.pc[rx])
  {
    hide Inv, TaskInv, Ledger, Next, Attended, Can, ClientInv, CallDone, Distance;
    if CallDone(c.cl[rx], c.mon.pc[rx]) {
      Pops(c, rx, k);
      ops := [Act(rx, SyncBlock)];
      assert ops[1..] == [];
      SizedStep(c, ops[0]);
    } else {
      var op: Op<M> := Inner(Go(rx));
      Nearer(c, rx, k);
      var rest := Delivers(Next(c, op), rx, k);
      ops := [op] + rest;
      assert ops[1..] == rest;
    }
  }

  /** `more` are actions of the receiver alone, none of them a spurious return, that return the oldest
      message in the queue. */
  ghost predicate ReturnsOldest<M>(c: Chan<M>, rx: Tid, more: seq<Op<M>>)
    requires Sized(c) && rx < |c.cl| && c.mon.lock.value != []
  {
    && Runs(c, more) && |more| <= Distance(c.mon, c.mon.pc[rx]) + 1
    && (forall i :: 0 <= i < |more| ==> more[i] == Act(rx, SyncBlock) || more[i] == Inner(Go(rx)))
    && Outcome(c, more).log.received == c.log.received + [c.mon.lock.value[0]]
    && Outcome(c, more).cl[rx] == RecvUnlock(Got(c.mon.lock.value[0]))
  }

  /** Delivery, from a new channel: in every state reached by an orderly run with a message in the queue, a receive
      without a time limit in progress and every other thread between operations. */
  lemma OldestIsDelivered<M>(n: nat, first: Tid, ops: seq<Op<M>>, c: Chan<M>, rx: Tid, k: Kind)
    requires Reached(n, first, ops, c) && Sized(c) && rx < |c.cl|
    requires Quiet(c, rx) && c.mon.lock.value != [] && InReceive(c, rx, k)
    ensures exists more :: ReturnsOldest(c, rx, more)
  {
    hide DeliveryInv, Reached, Runs, Outcome;
    ReachedDelivers(n, first, ops, c);
    var more := Delivers(c, rx, k);
    assert ReturnsOldest(c, rx, more);
  }
}
