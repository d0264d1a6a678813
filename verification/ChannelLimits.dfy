/** Deadlines of the channel's timed receives. */
module ChannelLimits {
  import opened Basics
  import opened Monitor
  import opened MonitorSafety
  import opened MonitorLimits
  import opened Channel
  import opened ChannelSafety
  import opened ChannelRuns

  /** A thread in the acquisition or the wait of a timed receive keeps the receive's deadline. */
  predicate OnTime<M>(c: Chan<M>, t: Tid)
    requires Sized(c) && t < |c.cl|
  {
    match c.cl[t]
    case RecvLock(By(_, Some(limit))) => AcquiresBy(c.mon.pc[t], limit, c.mon.rt.clock)
    case RecvWaiting(By(_, Some(limit))) => WaitsBy(c.mon.pc[t], limit, c.mon.rt.clock)
    case _ => true
  }

  /** The thread begins no call. */
  lemma GoesOnInTime<M>(c: Chan<M>, op: Op<M>, t: Tid)
    requires ChanInv(c) && Can(c, op) && t < |c.cl| && OnTime(c, t) && (op.Inner? || !Owner(op, t))
    ensures Sized(Next(c, op)) && |Next(c, op).cl| == |c.cl| && OnTime(Next(c, op), t)
  {
    hide Inv, Ledger, ClientInv, Apply, AcquiresBy, WaitsBy, Turn, Open;
    SizedStep(c, op);
    var e := Underlying(c, op);
    assert op.Inner? || Next(c, op).cl[t] == c.cl[t] by {
      if !op.Inner? { OthersStay(c, op, t); }
    }
    if e.Some? {
      match c.cl[t]
      case RecvLock(By(_, Some(limit))) => StaysInTime(c.mon, e.value, t, limit);
      case RecvWaiting(By(_, Some(limit))) => StaysInTime(c.mon, e.value, t, limit);
      case _ =>
    }
  }

  /** The thread's operation begins, or takes an action of its own. */
  lemma TurnsInTime<M>(c: Chan<M>, op: Op<M>, t: Tid)
    requires ChanInv(c) && Can(c, op) && t < |c.cl| && !op.Inner? && Owner(op, t)
    requires Sized(Next(c, op)) && |Next(c, op).cl| == |c.cl|
    ensures OnTime(Next(c, op), t)
  {
    hide Inv, Ledger, Advance;
    assert ClientInv(c, t);
  }

  lemma OnTimeStep<M>(c: Chan<M>, op: Op<M>, t: Tid)
    requires ChanInv(c) && Can(c, op) && t < |c.cl| && OnTime(c, t)
    ensures Sized(Next(c, op)) && |Next(c, op).cl| == |c.cl| && OnTime(Next(c, op), t)
  {
    hide Inv, Ledger, ClientInv, Next, Can, OnTime;
    SizedStep(c, op);
    if op.Inner? || !Owner(op, t) {
      GoesOnInTime(c, op, t);
    } else {
      TurnsInTime(c, op, t);
    }
  }

  lemma {:induction false} OnTimeRun<M>(c: Chan<M>, ops: seq<Op<M>>, t: Tid)
    requires ChanInv(c) && Runs(c, ops) && t < |c.cl| && OnTime(c, t)
    ensures Sized(Outcome(c, ops)) && t < |Outcome(c, ops).cl| && OnTime(Outcome(c, ops), t)
    decreases |ops|
  {
    hide Inv, Ledger, ClientInv, Next, Can, OnTime;
    if ops != [] {
      ChanStep(c, ops[0]);
      OnTimeStep(c, ops[0], t);
      OnTimeRun(Next(c, ops[0]), ops[1..], t);
    }
  }

  /** A timed receive is never told too early that its time is up: neither by its acquisition, which is then outside,
      nor by its wait. */
  lemma TimeoutIsLate<M>(n: nat, first: Tid, ops: seq<Op<M>>, c: Chan<M>, t: Tid, how: How, limit: nat)
    requires first < n && Runs(Channel.Init<M>(n, first), ops) && c == Outcome(Channel.Init<M>(n, first), ops)
    requires Sized(c) && t < |c.cl| == n
    ensures c.cl[t] == RecvLock(By(how, Some(limit))) && c.mon.pc[t].Out? ==> c.mon.rt.clock >= limit
    ensures c.cl[t] == RecvWaiting(By(how, Some(limit))) && c.mon.pc[t] == In(Waited(true)) ==> c.mon.rt.clock >= limit
  {
    hide Next, Can, ChanInv;
    ChanInit<M>(n, first);
    OnTimeRun(Channel.Init<M>(n, first), ops, t);
  }
}
