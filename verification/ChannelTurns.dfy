/** What a receive answers follows from what it found at its own actions: the pops, the loads of the count, the ends of
    its acquisition and of its waits. */
module ChannelTurns {
  import opened Basics
  import opened Monitor
  import opened MonitorSafety
  import opened Channel
  import opened ChannelSafety
  import opened ChannelRuns
  import opened ChannelLimits

  // ------------------------------------------------------------ own actions

  /** The state, if the step is an action of thread `t`'s own operation, taken there. */
  function TurnIn<M>(c: Chan<M>, op: Op<M>, t: Tid): seq<Chan<M>> { if op.Act? && op.t == t then [c] else [] }

  /** The states in which thread `t` takes the actions of its own operations. */
  ghost function Turns<M>(c: Chan<M>, ops: seq<Op<M>>, t: Tid): seq<Chan<M>>
    requires Sized(c) && Runs(c, ops)
    decreases |ops|
  {
    if ops == [] then []
    else
      SizedStep(c, ops[0]);
      TurnIn(c, ops[0], t) + Turns(Next(c, ops[0]), ops[1..], t)
  }

  lemma {:induction false} TurnsConcat<M>(c: Chan<M>, ops: seq<Op<M>>, more: seq<Op<M>>, t: Tid)
    requires Sized(c) && Runs(c, ops) && Runs(Outcome(c, ops), more)
    ensures Runs(c, ops + more) && Turns(c, ops + more, t) == Turns(c, ops, t) + Turns(Outcome(c, ops), more, t)
    decreases |ops|
  {
    hide Next, Can;
    OutcomeConcat(c, ops, more);
    if ops == [] {
      assert [] + more == more;
    } else {
      SizedStep(c, ops[0]);
      TurnsConcat(Next(c, ops[0]), ops[1..], more, t);
      assert (ops + more)[0] == ops[0] && (ops + more)[1..] == ops[1..] + more;
    }
  }

  lemma TurnsOne<M>(c: Chan<M>, op: Op<M>, t: Tid)
    requires Sized(c) && Can(c, op)
    ensures Runs(c, [op]) && Turns(c, [op], t) == TurnIn(c, op, t)
  {
    hide Next, Can;
    SizedStep(c, op);
    assert [op][1..] == [];
  }

  // ------------------------------------------------------------ what a receive found

  /** The queue was empty at the pop, and the load of the count finds no sender. */
  predicate FindsClosed<M>(x: Chan<M>, t: Tid, k: Kind) {
    t < |x.cl| && x.cl[t] == RecvCount(k) && x.mon.lock.value == [] && x.senderCount == 0
  }

  /** The queue was empty at the pop, and a sender is left. */
  predicate FindsEmpty<M>(x: Chan<M>, t: Tid, k: Kind) {
    t < |x.cl| && x.cl[t] == RecvCount(k) && x.mon.lock.value == [] && x.senderCount > 0
  }

  /** The first message of the queue is `m`. */
  ghost predicate FindsMessage<M>(x: Chan<M>, t: Tid, k: Kind, m: M) {
    && t < |x.cl| && (x.cl[t] == RecvLock(k) || x.cl[t] == RecvWaiting(k))
    && x.mon.lock.value != [] && x.mon.lock.value[0] == m
  }

  /** `try_lock` has not got the queue. */
  predicate FindsLocked<M>(x: Chan<M>, t: Tid, k: Kind) {
    && t < |x.cl| == |x.mon.pc| && k.Trying? && x.cl[t] == RecvLock(k) && x.mon.pc[t].Out?
  }

  /** The acquisition or the wait has timed out, and the deadline is over. */
  predicate FindsLate<M>(x: Chan<M>, t: Tid, k: Kind) {
    && t < |x.cl| == |x.mon.pc| && k.By? && k.dl.Some? && x.mon.rt.clock >= k.dl.value
    && ((x.cl[t] == RecvLock(k) && x.mon.pc[t].Out?)
        || (x.cl[t] == RecvWaiting(k) && x.mon.pc[t] == In(Waited(true))))
  }

  /** Own actions, taken in the states `turns`, that show the answer `r`. It is disconnected if and only if one of them
      found that the channel was closed. */
  ghost predicate Proved<M>(turns: seq<Chan<M>>, t: Tid, k: Kind, r: Result<M>) {
    && (r.Disconnected? <==> exists i :: 0 <= i < |turns| && FindsClosed(turns[i], t, k))
    && (r.Empty? ==> k.Trying? && exists i :: 0 <= i < |turns| && FindsEmpty(turns[i], t, k))
    && (r.TimedOut? ==> exists i :: 0 <= i < |turns| && FindsLate(turns[i], t, k))
    && (r.Got? ==> exists i :: 0 <= i < |turns| && FindsMessage(turns[i], t, k, r.m))
  }

  /** Why a receive answers `r`: for that, or because its one attempt has not got the queue. */
  ghost predicate Answers<M>(turns: seq<Chan<M>>, t: Tid, k: Kind, r: Result<M>) {
    Proved(turns, t, k, r) || (r.Empty? && |turns| == 1 && FindsLocked(turns[0], t, k))
  }

  lemma AnswersFit<M>(turns: seq<Chan<M>>, t: Tid, k: Kind, r: Result<M>)
    requires Answers(turns, t, k, r)
    ensures (r.Empty? ==> k.Trying?) && (r.TimedOut? ==> k.By? && k.dl.Some?)
    ensures r.Empty? ==> (exists i :: 0 <= i < |turns| && FindsEmpty(turns[i], t, k))
                         || (turns != [] && FindsLocked(Last(turns), t, k))
  {
  }

  /** The answer that the last action of a receive gives. */
  function ReplyAt<M>(x: Chan<M>, t: Tid, k: Kind): Option<Result<M>> {
    if t >= |x.cl| then None
    else match x.cl[t]
    case RecvReturn(r) => Some(r)
    case RecvLock(k') => if k' == k then Some(if k.Trying? then Empty else TimedOut) else None
    case _ => None
  }

  /** A thread at `x`, that began a receive of kind `k` and has since acted in the states `turns`. */
  ghost predicate SoFar<M>(turns: seq<Chan<M>>, x: Client<M>, t: Tid, k: Kind) {
    match x
    case RecvLock(k') => k' == k && turns == []
    case RecvCount(k') => k' == k && NotClosed(turns, t, k)
    case RecvWait(k') => k' == k && k.By? && NotClosed(turns, t, k)
    case RecvWaiting(k') => k' == k && k.By? && NotClosed(turns, t, k)
    case RecvUnlock(r) => Proved(turns, t, k, r)
    case RecvReturn(r) => Proved(turns, t, k, r)
    case Idle =>
      turns != [] && ReplyAt(Last(turns), t, k).Some? && Answers(turns, t, k, ReplyAt(Last(turns), t, k).value)
    case _ => false
  }

  ghost predicate NotClosed<M>(turns: seq<Chan<M>>, t: Tid, k: Kind) {
    forall i :: 0 <= i < |turns| ==> !FindsClosed(turns[i], t, k)
  }

  /** One more action: what it adds. */
  lemma OneMore<M>(turns: seq<Chan<M>>, c: Chan<M>, t: Tid, k: Kind)
    ensures var more := turns + [c];
            && more != [] && Last(more) == c
            && (NotClosed(more, t, k) <==> NotClosed(turns, t, k) && !FindsClosed(c, t, k))
            && (NotClosed(more, t, k) <==> !exists i :: 0 <= i < |more| && FindsClosed(more[i], t, k))
            && (forall r: Result<M> :: Proved(turns, t, k, r) && !FindsClosed(c, t, k) ==> Proved(more, t, k, r))
  {
    hide FindsClosed, FindsEmpty, FindsLocked, FindsLate, FindsMessage;
    var more := turns + [c];
    assert more[|turns|] == c;
    assert forall i :: 0 <= i < |turns| ==> more[i] == turns[i];
  }

  /** The last action shows the answer. */
  ghost predicate Shows<M>(c: Chan<M>, t: Tid, k: Kind, r: Result<M>) {
    match r
    case Got(m) => FindsMessage(c, t, k, m)
    case Empty => k.Trying? && FindsEmpty(c, t, k)
    case Disconnected => FindsClosed(c, t, k)
    case TimedOut => FindsLate(c, t, k)
  }

  lemma Decides<M>(turns: seq<Chan<M>>, c: Chan<M>, t: Tid, k: Kind, r: Result<M>)
    requires NotClosed(turns, t, k) && Shows(c, t, k, r)
    ensures Proved(turns + [c], t, k, r)
  {
    var more := turns + [c];
    assert more[|turns|] == c;
    assert forall i :: 0 <= i < |turns| ==> more[i] == turns[i];
  }

  lemma LockFits<M>(c: Chan<M>, t: Tid, turns: seq<Chan<M>>, k: Kind)
    requires Sized(c) && t < |c.cl| && OnTime(c, t) && CallDone(c.cl[t], c.mon.pc[t]) && c.cl[t] == RecvLock(k)
    requires turns == [] && (c.mon.pc[t].Out? ==> k.Trying? || k.dl.Some?)
    ensures SoFar(turns + [c], Turn(c, t).cl[t], t, k)
  {
    assert turns + [c] == [c];
    if c.mon.pc[t].Out? && k.By? {
      Decides(turns, c, t, k, TimedOut);
    } else if c.mon.pc[t].In? && c.mon.lock.value != [] {
      Decides(turns, c, t, k, Got(c.mon.lock.value[0]));
    }
  }

  lemma CountFits<M>(c: Chan<M>, t: Tid, turns: seq<Chan<M>>, k: Kind)
    requires Sized(c) && t < |c.cl| && CallDone(c.cl[t], c.mon.pc[t]) && c.cl[t] == RecvCount(k)
    requires NotClosed(turns, t, k) && c.mon.lock.value == [] && c.senderCount >= 0
    ensures SoFar(turns + [c], Turn(c, t).cl[t], t, k)
  {
    OneMore(turns, c, t, k);
    if c.senderCount == 0 {
      Decides(turns, c, t, k, Disconnected);
    } else if k.Trying? {
      Decides(turns, c, t, k, Empty);
    }
  }

  lemma WaitingFits<M>(c: Chan<M>, t: Tid, turns: seq<Chan<M>>, k: Kind)
    requires Sized(c) && t < |c.cl| && OnTime(c, t) && CallDone(c.cl[t], c.mon.pc[t]) && c.cl[t] == RecvWaiting(k)
    requires k.By? && NotClosed(turns, t, k) && (c.mon.pc[t].reply == Waited(true) ==> k.dl.Some?)
    ensures SoFar(turns + [c], Turn(c, t).cl[t], t, k)
  {
    OneMore(turns, c, t, k);
    if c.mon.pc[t].reply == Waited(true) {
      Decides(turns, c, t, k, TimedOut);
    } else if c.mon.lock.value != [] {
      Decides(turns, c, t, k, Got(c.mon.lock.value[0]));
    }
  }

  /** The number of senders is one. */
  lemma CountIsNat<M>(c: Chan<M>)
    requires Sized(c) && Ledger(c)
    ensures c.senderCount >= 0
  {
  }

  lemma TurnFits<M>(c: Chan<M>, t: Tid, turns: seq<Chan<M>>, k: Kind)
    requires ChanInv(c) && t < |c.cl| && OnTime(c, t) && CallDone(c.cl[t], c.mon.pc[t]) && SoFar(turns, c.cl[t], t, k)
    ensures SoFar(turns + [c], Turn(c, t).cl[t], t, k)
  {
    hide Inv, Ledger, Proved, NotClosed, Turns, OnTime;
    assert ClientInv(c, t);
    CountIsNat(c);
    OneMore(turns, c, t, k);
    match c.cl[t]
    case RecvLock(_) => LockFits(c, t, turns, k);
    case RecvCount(_) => CountFits(c, t, turns, k);
    case RecvWaiting(_) => WaitingFits(c, t, turns, k);
    case _ =>
  }

  // ------------------------------------------------------------ runs

  /** The step begins an operation of thread `t`. */
  predicate Opens<M>(op: Op<M>, t: Tid) { !op.Act? && !op.Inner? && op.t == t }

  lemma SoFarStep<M>(c: Chan<M>, op: Op<M>, t: Tid, turns: seq<Chan<M>>, k: Kind)
    requires ChanInv(c) && Can(c, op) && t < |c.cl| && OnTime(c, t) && SoFar(turns, c.cl[t], t, k) && !Opens(op, t)
    ensures Sized(Next(c, op)) && |Next(c, op).cl| == |c.cl| && OnTime(Next(c, op), t)
    ensures SoFar(turns + TurnIn(c, op, t), Next(c, op).cl[t], t, k)
  {
    hide Inv, Ledger, ClientInv, OnTime, Turn, SoFar, Apply;
    OnTimeStep(c, op, t);
    assert turns + [] == turns;
    if op.Act? && op.t == t {
      TurnFits(c, t, turns, k);
    } else if !op.Inner? {
      OthersStay(c, op, t);
    }
  }

  /** In a run in which thread `t` begins no operation. */
  lemma {:induction false} SoFarRun<M>(c: Chan<M>, ops: seq<Op<M>>, t: Tid, turns: seq<Chan<M>>, k: Kind)
    requires ChanInv(c) && Runs(c, ops) && t < |c.cl| && OnTime(c, t) && SoFar(turns, c.cl[t], t, k)
    requires forall i :: 0 <= i < |ops| ==> !Opens(ops[i], t)
    ensures var d := Outcome(c, ops);
            Sized(d) && t < |d.cl| && SoFar(turns + Turns(c, ops, t), d.cl[t], t, k)
    decreases |ops|
  {
    hide Inv, Ledger, ClientInv, OnTime, Turn, SoFar, Next, Can;
    if ops == [] {
      assert turns + [] == turns;
    } else {
      ChanStep(c, ops[0]);
      SoFarStep(c, ops[0], t, turns, k);
      SoFarRun(Next(c, ops[0]), ops[1..], t, turns + TurnIn(c, ops[0], t), k);
      assert turns + (TurnIn(c, ops[0], t) + Turns(Next(c, ops[0]), ops[1..], t))
             == (turns + TurnIn(c, ops[0], t)) + Turns(Next(c, ops[0]), ops[1..], t);
    }
  }

  lemma OnTimeAtFirst<M>(n: nat, first: Tid, t: Tid)
    requires first < n && t < |Channel.Init<M>(n, first).cl|
    ensures OnTime(Channel.Init<M>(n, first), t)
  {
  }

  lemma ReceiveBegins<M>(c: Chan<M>, op: Op<M>)
    requires ChanInv(c) && op.Recv? && Can(c, op) && OnTime(c, op.t)
    ensures Runs(c, [op]) && Outcome(c, [op]) == Next(c, op) && ChanInv(Next(c, op)) && op.t < |Next(c, op).cl|
    ensures OnTime(Next(c, op), op.t) && SoFar([], Next(c, op).cl[op.t], op.t, op.k)
  {
    hide Inv, Ledger, ClientInv, OnTime;
    ChanStep(c, op);
    OnTimeStep(c, op, op.t);
    TurnsOne(c, op, op.t);
    assert [op][1..] == [];
  }

  /** In every run from a new channel: once a receive that thread `t` begins has returned, and the thread has begun
      nothing else, its answer is what its own actions showed. It is disconnected if and only if one of them found the
      queue empty and no sender; it is empty only if `try_lock` failed, or the queue was empty and a sender was left;
      and it is a timeout only once the deadline is over. */
  lemma ReceiveAnswers<M>(n: nat, first: Tid, before: seq<Op<M>>, t: Tid, k: Kind, ops: seq<Op<M>>)
    requires first < n && t < |Channel.Init<M>(n, first).cl|
    requires Runs(Channel.Init<M>(n, first), before + [Recv(t, k)] + ops)
    requires forall i :: 0 <= i < |ops| ==> !Opens(ops[i], t)
    ensures Runs(Channel.Init<M>(n, first), before + [Recv(t, k)])
    ensures var c := Outcome(Channel.Init<M>(n, first), before + [Recv(t, k)]);
            Sized(c) && Runs(c, ops) && var d, turns := Outcome(c, ops), Turns(c, ops, t);
            Sized(d) && t < |d.cl| && SoFar(turns, d.cl[t], t, k)
  {
    hide Inv, Ledger, ClientInv, OnTime, Turn, SoFar, Next, Can, Channel.Init, Turns;
    var c0 := Channel.Init<M>(n, first);
    var op: Op<M> := Recv(t, k);
    RunsSplit(c0, before + [op], ops);
    RunsSplit(c0, before, [op]);
    ChanInit<M>(n, first);
    ChanRun(c0, before);
    OnTimeAtFirst<M>(n, first, t);
    OnTimeRun(c0, before, t);
    var c1 := Outcome(c0, before);
    ReceiveBegins(c1, op);
    SoFarRun(Next(c1, op), ops, t, [], k);
    assert [] + Turns(Next(c1, op), ops, t) == Turns(Next(c1, op), ops, t);
  }
}
