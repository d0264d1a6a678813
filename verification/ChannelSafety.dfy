/** Safety of the channel, for any mix of send and receive variants, timeouts, clones and drops. */
module ChannelSafety {
  import opened Basics
  import opened Monitor
  import opened MonitorSteps
  import opened MonitorSafety
  import opened Channel
  import opened ChannelFit
  import opened Sums

  /** The operation has seen the queue empty and still owns the guard. */
  predicate SawEmpty<M>(x: Client<M>) { x.RecvCount? || x.RecvWait? || (x.RecvUnlock? && x.r.Disconnected?) }

  /** A send knows its place. */
  ghost predicate InPlace<M>(x: Client<M>, pushed: seq<M>) {
    && (x.SendCheck? || x.SendLock? || x.SendPush? ==> x.from <= |pushed|)
    && (x.SendUnlock? || x.SendNotify? || x.SendReturn? ==> x.from <= x.at < |pushed| && pushed[x.at] == x.m)
  }

  /** Thread `t`'s operation. */
  ghost predicate ClientInv<M>(c: Chan<M>, t: Tid)
    requires Sized(c) && t < |c.cl|
  {
    var x := c.cl[t];
    && Fits(ModeOf(x), c.mon.pc[t])
    && (Sending(x) ==> c.handles[t] > 0)
    && (Receiving(x) ==> c.receiver == Some(t))
    && (SawEmpty(x) ==> c.mon.lock.value == [])
    && (x.RecvWait? || x.RecvWaiting? ==> x.k.By?)
    && InPlace(x, c.log.pushed)
  }

  /** Conservation, the counts, and what "disconnected" has meant. */
  ghost predicate Ledger<M>(c: Chan<M>)
    requires Sized(c)
  {
    && c.log.pushed == c.log.received + c.mon.lock.value
    && Below(c.log.done, |c.log.pushed|)
    && c.senderCount == Sum(c.handles)
    && (c.log.closed ==> c.senderCount == 0 && c.mon.lock.value == [])
    && c.active == c.receiver.Some?
    && c.log.lastDrops == (if c.senderCount == 0 then 1 else 0)
  }

  ghost predicate ChanInv<M>(c: Chan<M>) {
    && Sized(c) && Inv(c.mon)
    && Ledger(c)
    && forall t :: 0 <= t < |c.cl| ==> ClientInv(c, t)
  }

  // ------------------------------------------------------------ the monitor under the channel

  /** Every channel step is a step of the monitor, or leaves the monitor alone. */
  lemma Refines<M>(c: Chan<M>, op: Op<M>)
    requires ChanInv(c) && Can(c, op)
    ensures Sized(Next(c, op)) && |Next(c, op).cl| == |c.cl| && Inv(Next(c, op).mon)
  {
    hide Apply, Turn, Open;
    if Underlying(c, op).Some? {
      InvStep(c.mon, Underlying(c, op).value);
      WfStep(c.mon, Underlying(c, op).value);
    }
  }

  /** The thread a channel step belongs to. */
  predicate Owner<M>(op: Op<M>, t: Tid) {
    if op.Inner? then IsBy(op.e, t) else op.t == t
  }

  lemma OthersStay<M>(c: Chan<M>, op: Op<M>, u: Tid)
    requires ChanInv(c) && Can(c, op) && u < |c.cl| && !Owner(op, u)
    ensures var c' := Next(c, op);
            && |c'.cl| == |c.cl| && |c'.mon.pc| == |c.mon.pc| && |c'.handles| == |c.handles|
            && c'.cl[u] == c.cl[u] && c'.mon.pc[u] == c.mon.pc[u] && c'.handles[u] >= c.handles[u]
  {
    hide Apply, Inv, Turn, Open;
    var e := Underlying(c, op);
    if e.Some? {
      WfStep(c.mon, e.value);
      MonitorStays(c.mon, e.value, u);
    }
  }

  lemma MonitorStays<T>(s: State<T>, e: Step<T>, u: Tid)
    requires Wf(s) && Enabled(s, e) && u < |s.pc| && !IsBy(e, u)
    ensures |Apply(s, e).pc| == |s.pc| && Apply(s, e).pc[u] == s.pc[u]
  {
    hide Advance;
    if !e.Tick? {
      StepBounded(s, e);
    }
  }

  /** The queue changes by a push or a pop of the guard's owner, and the logs with it. */
  ghost predicate QueueFacts<M>(c: Chan<M>, c': Chan<M>, op: Op<M>)
    requires Sized(c) && Can(c, op)
  {
    && c'.log.pushed == c'.log.received + c'.mon.lock.value
    && c.log.pushed <= c'.log.pushed && c.log.received <= c'.log.received
    && (c'.mon.lock.value != c.mon.lock.value ==> op.Act? && c.mon.pc[op.t].In?)
    && (c'.log.pushed != c.log.pushed ==> op.Act? && c.cl[op.t].SendPush?)
  }

  lemma QueueMoves<M>(c: Chan<M>, op: Op<M>)
    requires ChanInv(c) && Can(c, op)
    ensures QueueFacts(c, Next(c, op), op)
  {
    hide Apply, Inv, Turn;
    if op.Act? {
      assert ClientInv(c, op.t);
      QueueTurn(c, op.t);
      MonitorValue(c.mon, Call(c, op.t, op.sync));
    } else {
      MonitorValue(c.mon, Underlying(c, op));
    }
  }

  lemma MonitorValue<T>(s: State<T>, e: Option<Step<T>>)
    requires Wf(s) && (e.Some? ==> Enabled(s, e.value))
    ensures e.Some? ==> Apply(s, e.value).lock.value == if e.value.Store? then e.value.v else s.lock.value
  {
    hide Advance;
    if e.Some? && !e.value.Store? {
      ValueKept(s, e.value);
    }
  }

  /** The queue a client's action leaves. */
  function QueueAfter<M>(c: Chan<M>, t: Tid): seq<M>
    requires Sized(c) && t < |c.cl| && CallDone(c.cl[t], c.mon.pc[t])
  {
    var e := Call(c, t, SyncBlock);
    if e.Some? && e.value.Store? then e.value.v else c.mon.lock.value
  }

  lemma QueueTurn<M>(c: Chan<M>, t: Tid)
    requires Sized(c) && Ledger(c) && t < |c.cl| && CallDone(c.cl[t], c.mon.pc[t]) && Fits(ModeOf(c.cl[t]), c.mon.pc[t])
    requires c.cl[t].RecvWait? || c.cl[t].RecvWaiting? ==> c.cl[t].k.By?
    ensures var d := Turn(c, t);
            && d.log.pushed == d.log.received + QueueAfter(c, t)
            && c.log.pushed <= d.log.pushed && c.log.received <= d.log.received
            && (QueueAfter(c, t) != c.mon.lock.value ==> c.mon.pc[t].In?)
            && (d.log.pushed != c.log.pushed ==> c.cl[t].SendPush?)
  {
  }

  /** Another thread's operation stays as it was. */
  lemma OthersKept<M>(c: Chan<M>, op: Op<M>, u: Tid)
    requires ChanInv(c) && Can(c, op) && u < |c.cl| && !Owner(op, u)
    requires Sized(Next(c, op)) && |Next(c, op).cl| == |c.cl|
    ensures ClientInv(Next(c, op), u)
  {
    hide Apply, Turn, Open, Next;
    OthersStay(c, op, u);
    QueueMoves(c, op);
    if c.receiver == Some(u) {
      ReceiverStays(c, op, u);
    }
    assert ClientInv(c, u);
  }

  lemma ReceiverStays<M>(c: Chan<M>, op: Op<M>, u: Tid)
    requires ChanInv(c) && Can(c, op) && u < |c.cl| && !Owner(op, u) && c.receiver == Some(u)
    ensures Next(c, op).receiver == c.receiver
  {
    hide Apply, Inv;
  }

  // ------------------------------------------------------------ the acting thread

  /** The monitor calls an operation makes put its thread where the operation expects it. */
  ghost predicate Calls<M>(c: Chan<M>, t: Tid, sync: Sync)
    requires Sized(c)
  {
    && t < |c.cl| && CallDone(c.cl[t], c.mon.pc[t]) && Fits(ModeOf(c.cl[t]), c.mon.pc[t])
    && (c.cl[t].RecvWait? || c.cl[t].RecvWaiting? ==> c.cl[t].k.By?)
    && (Call(c, t, sync).Some? ==> Enabled(c.mon, Call(c, t, sync).value))
  }

  lemma SendCallFits<M>(c: Chan<M>, t: Tid, sync: Sync)
    requires Sized(c) && Calls(c, t, sync) && !Receiving(c.cl[t])
    ensures var e := Call(c, t, sync);
            var m := if e.Some? then Apply(c.mon, e.value) else c.mon;
            |m.pc| == |c.mon.pc| && Fits(ModeOf(Turn(c, t).cl[t]), m.pc[t])
  {
    hide Advance, Register;
  }

  lemma RecvCallFits<M>(c: Chan<M>, t: Tid, sync: Sync)
    requires Sized(c) && Calls(c, t, sync) && Receiving(c.cl[t]) && !c.cl[t].RecvWait?
    ensures var e := Call(c, t, sync);
            var m := if e.Some? then Apply(c.mon, e.value) else c.mon;
            |m.pc| == |c.mon.pc| && Fits(ModeOf(Turn(c, t).cl[t]), m.pc[t])
  {
    hide Advance, Register;
  }

  lemma WaitCallFits<M>(c: Chan<M>, t: Tid, sync: Sync)
    requires Sized(c) && Calls(c, t, sync) && c.cl[t].RecvWait?
    ensures var e := Call(c, t, sync);
            var m := if e.Some? then Apply(c.mon, e.value) else c.mon;
            |m.pc| == |c.mon.pc| && Fits(ModeOf(Turn(c, t).cl[t]), m.pc[t])
  {
    hide Advance;
  }

  lemma TurnCounts<M>(c: Chan<M>, t: Tid)
    requires ChanInv(c) && t < |c.cl| && CallDone(c.cl[t], c.mon.pc[t])
    ensures var d := Turn(c, t);
            && d.receiver == c.receiver && d.senderCount == c.senderCount && d.active == c.active
            && d.log.lastDrops == c.log.lastDrops
            && Below(d.log.done, |d.log.pushed|)
            && (d.log.closed ==> d.senderCount == 0 && QueueAfter(c, t) == [])
  {
    hide Inv;
    assert ClientInv(c, t);
    if c.log.closed {
      NoSenders(c, t);
    }
  }

  lemma TurnClient<M>(c: Chan<M>, t: Tid)
    requires ChanInv(c) && t < |c.cl| && CallDone(c.cl[t], c.mon.pc[t])
    ensures var d := Turn(c, t);
            var x := d.cl[t];
            && (Sending(x) ==> d.handles[t] > 0)
            && (Receiving(x) ==> d.receiver == Some(t))
            && (x.RecvWait? || x.RecvWaiting? ==> x.k.By?)
  {
    hide Inv, Ledger;
    assert ClientInv(c, t);
  }

  lemma TurnPlaces<M>(c: Chan<M>, t: Tid)
    requires Sized(c) && t < |c.cl| && CallDone(c.cl[t], c.mon.pc[t]) && InPlace(c.cl[t], c.log.pushed)
    ensures var d := Turn(c, t); InPlace(d.cl[t], d.log.pushed)
  {
  }

  lemma TurnEmpty<M>(c: Chan<M>, t: Tid)
    requires ChanInv(c) && t < |c.cl| && CallDone(c.cl[t], c.mon.pc[t])
    ensures SawEmpty(Turn(c, t).cl[t]) ==> QueueAfter(c, t) == []
  {
    hide Inv, Ledger;
    assert ClientInv(c, t);
  }

  /** Without live senders no thread is in a send. */
  lemma NoSenders<M>(c: Chan<M>, t: Tid)
    requires Sized(c) && Ledger(c) && c.senderCount == 0 && t < |c.cl|
    ensures c.handles[t] == 0
  {
    SumZero(c.handles);
  }

  lemma ActKept<M>(c: Chan<M>, op: Op<M>)
    requires ChanInv(c) && Can(c, op) && op.Act?
    requires Sized(Next(c, op)) && |Next(c, op).cl| == |c.cl|
    ensures ClientInv(Next(c, op), op.t) && Ledger(Next(c, op))
  {
    hide Apply, Turn, Call, Inv;
    assert ClientInv(c, op.t);
    TurnCounts(c, op.t);
    TurnClient(c, op.t);
    TurnPlaces(c, op.t);
    TurnEmpty(c, op.t);
    ActFits(c, op.t, op.sync);
    MonitorValue(c.mon, Call(c, op.t, op.sync));
    QueueTurn(c, op.t);
    QueueSync(c, op.t, op.sync);
  }

  lemma ActFits<M>(c: Chan<M>, t: Tid, sync: Sync)
    requires Sized(c) && Calls(c, t, sync)
    ensures var e := Call(c, t, sync);
            var m := if e.Some? then Apply(c.mon, e.value) else c.mon;
            |m.pc| == |c.mon.pc| && Fits(ModeOf(Turn(c, t).cl[t]), m.pc[t])
  {
    hide Apply, Turn, Call;
    if c.cl[t].RecvWait? {
      WaitCallFits(c, t, sync);
    } else if Receiving(c.cl[t]) {
      RecvCallFits(c, t, sync);
    } else {
      SendCallFits(c, t, sync);
    }
  }

  lemma QueueSync<M>(c: Chan<M>, t: Tid, sync: Sync)
    requires Sized(c) && t < |c.cl| && CallDone(c.cl[t], c.mon.pc[t])
    requires Call(c, t, sync).Some? ==> Enabled(c.mon, Call(c, t, sync).value)
    ensures var e := Call(c, t, sync);
            QueueAfter(c, t) == if e.Some? && e.value.Store? then e.value.v else c.mon.lock.value
  {
  }

  lemma OpenFits<M>(c: Chan<M>, op: Op<M>)
    requires ChanInv(c) && Can(c, op) && !op.Act? && !op.Inner?
    requires Sized(Next(c, op)) && |Next(c, op).cl| == |c.cl|
    ensures ClientInv(Next(c, op), op.t)
  {
    hide Inv, Apply, Ledger;
    assert ClientInv(c, op.t);
    if op.Recv? {
      RecvBegins(c.mon, op.t, op.k);
    }
  }

  lemma RecvBegins<T>(m: State<T>, t: Tid, k: Kind)
    requires Wf(m) && t < |m.pc| && m.pc[t].Out?
    ensures var m' := Apply(m, if k.Trying? then Try(t) else Lock(t, k.how, k.dl));
            |m'.pc| == |m.pc| && Fits(Locking(k), m'.pc[t]) && m'.lock.value == m.lock.value
  {
    hide Advance;
  }

  /** Handles and the sender count move together, and the count never leaves zero. */
  lemma OpenCounts<M>(c: Chan<M>, op: Op<M>)
    requires Sized(c) && Ledger(c) && Can(c, op) && !op.Act? && !op.Inner?
    ensures var d := Open(c, op);
            && d.senderCount == Sum(d.handles)
            && (c.senderCount == 0 ==> d.senderCount == 0)
            && d.log.lastDrops == (if d.senderCount == 0 then 1 else 0)
            && d.active == d.receiver.Some?
            && d.log == c.log.(lastDrops := d.log.lastDrops, begun := d.log.begun)
  {
    hide Apply, Sum, Wf, Enabled, Underlying;
    var h := c.handles;
    match op
    case Clone(t) => SumAtLeast(h, t); SumUpdate(h, t, h[t] + 1);
    case DropSender(t) => SumAtLeast(h, t); SumUpdate(h, t, h[t] - 1);
    case GiveSender(t, to) =>
      var h1 := h[t := h[t] - 1];
      SumUpdate(h, t, h[t] - 1);
      SumUpdate(h1, to, h1[to] + 1);
    case _ =>
  }

  lemma OpenLedger<M>(c: Chan<M>, op: Op<M>)
    requires ChanInv(c) && Can(c, op) && !op.Act? && !op.Inner? && Sized(Next(c, op))
    ensures Ledger(Next(c, op))
  {
    hide Inv, Apply, ClientInv, Open;
    MonitorValue(c.mon, Underlying(c, op));
    OpenCounts(c, op);
  }

  lemma InnerKept<M>(c: Chan<M>, op: Op<M>, u: Tid)
    requires ChanInv(c) && Can(c, op) && op.Inner? && u < |c.cl| && Owner(op, u)
    requires Sized(Next(c, op)) && |Next(c, op).cl| == |c.cl|
    ensures ClientInv(Next(c, op), u)
  {
    hide Apply, Inv;
    assert ClientInv(c, u);
    FitsInternal(c.mon, op.e, u, ModeOf(c.cl[u]));
    ValueKept(c.mon, op.e);
  }

  /** Every step of every thread keeps the channel's invariant. */
  lemma ChanStep<M>(c: Chan<M>, op: Op<M>)
    requires ChanInv(c) && Can(c, op)
    ensures ChanInv(Next(c, op)) && |Next(c, op).cl| == |c.cl|
  {
    hide Apply, Turn, Open, Inv, Ledger, ClientInv, Call;
    Refines(c, op);
    assert Ledger(Next(c, op)) by { LedgerKept(c, op); }
    forall u | 0 <= u < |c.cl|
      ensures ClientInv(Next(c, op), u)
    {
      if !Owner(op, u) {
        OthersKept(c, op, u);
      } else if op.Act? {
        ActKept(c, op);
      } else if op.Inner? {
        InnerKept(c, op, u);
      } else {
        OpenFits(c, op);
      }
    }
  }

  lemma LedgerKept<M>(c: Chan<M>, op: Op<M>)
    requires ChanInv(c) && Can(c, op) && Sized(Next(c, op)) && |Next(c, op).cl| == |c.cl|
    ensures Ledger(Next(c, op))
  {
    hide Apply, Turn, Open, Inv, Call;
    if op.Act? {
      ActKept(c, op);
    } else if op.Inner? {
      ValueKept(c.mon, op.e);
    } else {
      OpenLedger(c, op);
    }
  }
}
