/** Whole runs of the channel. */
module ChannelRuns {
  import opened Basics
  import opened Monitor
  import opened MonitorSteps
  import opened MonitorSafety
  import opened MonitorRuns
  import opened MonitorTasks
  import opened Channel
  import opened ChannelSafety
  import opened Sums

  lemma SizedStep<M>(c: Chan<M>, op: Op<M>)
    requires Sized(c) && Can(c, op)
    ensures Sized(Next(c, op)) && |Next(c, op).cl| == |c.cl|
  {
    hide Apply, Turn, Open;
    if Underlying(c, op).Some? {
      WfStep(c.mon, Underlying(c, op).value);
    }
  }

  ghost predicate Runs<M>(c: Chan<M>, ops: seq<Op<M>>)
    requires Sized(c)
    decreases |ops|
  {
    ops == [] || (Can(c, ops[0]) && (SizedStep(c, ops[0]); Runs(Next(c, ops[0]), ops[1..])))
  }

  ghost function Outcome<M>(c: Chan<M>, ops: seq<Op<M>>): (c': Chan<M>)
    requires Sized(c) && Runs(c, ops)
    ensures Sized(c') && |c'.cl| == |c.cl|
    decreases |ops|
  {
    if ops == [] then c else (SizedStep(c, ops[0]); Outcome(Next(c, ops[0]), ops[1..]))
  }

  lemma {:induction false} OutcomeSnoc<M>(c: Chan<M>, ops: seq<Op<M>>, op: Op<M>)
    requires Sized(c) && Runs(c, ops) && Can(Outcome(c, ops), op)
    ensures Runs(c, ops + [op]) && Outcome(c, ops + [op]) == Next(Outcome(c, ops), op)
    decreases |ops|
  {
    hide Next, Can;
    if ops == [] {
      SizedStep(c, op);
      assert [op][1..] == [] && [] + [op] == [op];
    } else {
      SizedStep(c, ops[0]);
      OutcomeSnoc(Next(c, ops[0]), ops[1..], op);
      assert (ops + [op])[0] == ops[0] && (ops + [op])[1..] == ops[1..] + [op];
    }
  }

  lemma {:induction false} OutcomeConcat<M>(c: Chan<M>, ops: seq<Op<M>>, more: seq<Op<M>>)
    requires Sized(c) && Runs(c, ops) && Runs(Outcome(c, ops), more)
    ensures Runs(c, ops + more) && Outcome(c, ops + more) == Outcome(Outcome(c, ops), more)
    decreases |ops|
  {
    hide Next, Can;
    if ops == [] {
      assert [] + more == more;
    } else {
      SizedStep(c, ops[0]);
      OutcomeConcat(Next(c, ops[0]), ops[1..], more);
      assert (ops + more)[0] == ops[0] && (ops + more)[1..] == ops[1..] + more;
    }
  }

  lemma {:induction false} RunsSplit<M>(c: Chan<M>, ops: seq<Op<M>>, more: seq<Op<M>>)
    requires Sized(c) && Runs(c, ops + more)
    ensures Runs(c, ops) && Runs(Outcome(c, ops), more) && Outcome(c, ops + more) == Outcome(Outcome(c, ops), more)
    decreases |ops|
  {
    hide Next, Can;
    if ops == [] {
      assert [] + more == more;
    } else {
      SizedStep(c, ops[0]);
      assert (ops + more)[0] == ops[0] && (ops + more)[1..] == ops[1..] + more;
      RunsSplit(Next(c, ops[0]), ops[1..], more);
    }
  }

  lemma ChanInit<M>(n: nat, first: Tid)
    requires first < n
    ensures ChanInv(Channel.Init<M>(n, first))
  {
    var c := Channel.Init<M>(n, first);
    InitInv<seq<M>>(n, []);
    var zeros := seq(n, i => 0);
    SumConstant(zeros, 0);
    SumUpdate(zeros, first, 1);
  }

  /** What never changes back along a run: the logs only grow, and "no senders" is final. */
  lemma {:induction false} ChanRun<M>(c: Chan<M>, ops: seq<Op<M>>)
    requires ChanInv(c) && Runs(c, ops)
    ensures var c' := Outcome(c, ops);
            && ChanInv(c')
            && c.log.pushed <= c'.log.pushed && c.log.received <= c'.log.received
            && (c.senderCount == 0 ==> c'.senderCount == 0)
            && (c.log.closed ==> c'.log.closed)
    decreases |ops|
  {
    hide Next, Inv;
    if ops != [] {
      ChanStep(c, ops[0]);
      Grows(c, ops[0]);
      ChanRun(Next(c, ops[0]), ops[1..]);
    }
  }

  lemma {:induction false} TasksRun<M>(c: Chan<M>, ops: seq<Op<M>>)
    requires ChanInv(c) && TaskInv(c.mon) && Runs(c, ops)
    ensures TaskInv(Outcome(c, ops).mon)
    decreases |ops|
  {
    hide Inv, TaskInv, Ledger, Apply, Turn, Open;
    if ops != [] {
      ChanStep(c, ops[0]);
      if Underlying(c, ops[0]).Some? {
        TaskStep(c.mon, Underlying(c, ops[0]).value);
      }
      TasksRun(Next(c, ops[0]), ops[1..]);
    }
  }

  lemma Grows<M>(c: Chan<M>, op: Op<M>)
    requires ChanInv(c) && Can(c, op)
    ensures var c' := Next(c, op);
            && c.log.pushed <= c'.log.pushed && c.log.received <= c'.log.received
            && (c.senderCount == 0 ==> c'.senderCount == 0)
            && (c.log.closed ==> c'.log.closed)
  {
    hide Apply, Turn, Open, Inv, Call;
    QueueMoves(c, op);
    if op.Act? {
      TurnCounts(c, op.t);
      ClosedStays(c, op.t);
    } else if !op.Inner? {
      OpenCounts(c, op);
    }
  }

  lemma ClosedStays<M>(c: Chan<M>, t: Tid)
    requires Sized(c) && t < |c.cl| && CallDone(c.cl[t], c.mon.pc[t])
    ensures c.log.closed ==> Turn(c, t).log.closed
  {
  }

  // ------------------------------------------------------------ conservation and order

  /** Nothing is lost, invented or reordered: in every reachable state the messages pushed so far are
      the messages received so far followed by the queue. */
  lemma Conservation<M>(n: nat, first: Tid, ops: seq<Op<M>>)
    requires first < n && Runs(Channel.Init<M>(n, first), ops)
    ensures var c := Outcome(Channel.Init<M>(n, first), ops);
            c.log.pushed == c.log.received + c.mon.lock.value
  {
    hide Next;
    ChanInit<M>(n, first);
    ChanRun(Channel.Init<M>(n, first), ops);
  }

  /** Sends ordered in real time are received in that order. Take a reachable state in which some send
      is complete, its message at index `a` of the push log, and let thread `t` start a send there.
      Whenever that send is known to have pushed, its message is at a later index; and receives follow
      the log. */
  lemma RealTimeOrder<M>(c: Chan<M>, t: Tid, m: M, how: How, ops: seq<Op<M>>, a: nat)
    requires ChanInv(c) && a in c.log.done && Can(c, Send(t, m, how))
    requires Sized(Next(c, Send(t, m, how))) && Runs(Next(c, Send(t, m, how)), ops)
    ensures var c' := Outcome(Next(c, Send(t, m, how)), ops);
            && Next(c, Send(t, m, how)).cl[t] == SendCheck(m, how, |c.log.pushed|)
            && (t < |c'.cl| && (c'.cl[t].SendNotify? || c'.cl[t].SendReturn?) && c'.cl[t].from == |c.log.pushed|
                ==> a < c'.cl[t].at < |c'.log.pushed| && c'.log.pushed[c'.cl[t].at] == c'.cl[t].m)
            && c'.log.received <= c'.log.pushed
  {
    hide Apply, Turn, Inv, Call;
    ChanStep(c, Send(t, m, how));
    ChanRun(Next(c, Send(t, m, how)), ops);
    var c' := Outcome(Next(c, Send(t, m, how)), ops);
    var i :| 0 <= i < |c.log.done| && c.log.done[i] == a;
    if t < |c'.cl| {
      assert ClientInv(c', t);
    }
  }

  // ------------------------------------------------------------ disconnection

  /** `Disconnected` is sound and final: once any receive variant has found the channel disconnected,
      then in every later state no `Sender` is alive, no thread is in a send, and everything ever
      pushed has been received. */
  lemma DisconnectedIsFinal<M>(c: Chan<M>, ops: seq<Op<M>>)
    requires ChanInv(c) && c.log.closed && Runs(c, ops)
    ensures var c' := Outcome(c, ops);
            && c'.log.pushed == c.log.pushed == c'.log.received
            && c'.senderCount == 0
            && forall t :: 0 <= t < |c'.cl| ==> c'.handles[t] == 0 && !Sending(c'.cl[t])
  {
    hide Next;
    ChanRun(c, ops);
    var c' := Outcome(c, ops);
    forall t | 0 <= t < |c'.cl|
      ensures c'.handles[t] == 0 && !Sending(c'.cl[t])
    {
      assert ClientInv(c', t);
      NoSenders(c', t);
    }
    ClosedRun(c, ops);
  }

  lemma {:induction false} ClosedRun<M>(c: Chan<M>, ops: seq<Op<M>>)
    requires ChanInv(c) && c.log.closed && Runs(c, ops)
    ensures Outcome(c, ops).log.pushed == c.log.pushed
    decreases |ops|
  {
    hide Next, Inv;
    if ops != [] {
      ChanStep(c, ops[0]);
      Grows(c, ops[0]);
      ClosedStep(c, ops[0]);
      ClosedRun(Next(c, ops[0]), ops[1..]);
    }
  }

  lemma ClosedStep<M>(c: Chan<M>, op: Op<M>)
    requires ChanInv(c) && c.log.closed && Can(c, op)
    ensures Next(c, op).log.pushed == c.log.pushed
  {
    hide Next, Inv, Call;
    QueueMoves(c, op);
    if op.Act? {
      assert ClientInv(c, op.t);
      NoSenders(c, op.t);
    }
  }

  /** A receive that returns `Disconnected` has set that record, so the theorem above applies to it. */
  lemma DisconnectedIsRecorded<M>(c: Chan<M>, t: Tid)
    requires ChanInv(c) && t < |c.cl| && CallDone(c.cl[t], c.mon.pc[t])
    requires c.cl[t] != RecvUnlock(Disconnected) && Turn(c, t).cl[t] == RecvUnlock(Disconnected)
    ensures Turn(c, t).log.closed && c.senderCount == 0 && c.log.received == c.log.pushed
  {
    hide Inv;
    assert ClientInv(c, t);
  }

  /** An iteration that starts in state `c` and ends in `None` yielded exactly the messages of the push
      log that were not yet received when it started, in order. */
  lemma IteratorYieldsRest<M>(c: Chan<M>, ops: seq<Op<M>>)
    requires ChanInv(c) && Runs(c, ops) && Outcome(c, ops).log.closed
    ensures var c' := Outcome(c, ops);
            && |c.log.received| <= |c'.log.received| == |c'.log.pushed|
            && c'.log.received[|c.log.received|..] == c'.log.pushed[|c.log.received|..]
  {
    hide Next;
    ChanRun(c, ops);
  }

  // ------------------------------------------------------------ counting senders

  /** `sender_count` is the number of live `Sender`s; exactly one drop finds itself the last, when the
      count reaches zero, and the count never rises again. */
  lemma SenderCount<M>(n: nat, first: Tid, ops: seq<Op<M>>, more: seq<Op<M>>)
    requires first < n && Runs(Channel.Init<M>(n, first), ops)
    requires Runs(Outcome(Channel.Init<M>(n, first), ops), more)
    ensures var c := Outcome(Channel.Init<M>(n, first), ops);
            var c' := Outcome(c, more);
            && c.senderCount == Sum(c.handles)
            && c.log.lastDrops == (if c.senderCount == 0 then 1 else 0)
            && (c.senderCount == 0 ==> c'.senderCount == 0 && c'.log.lastDrops == 1)
  {
    hide Next;
    ChanInit<M>(n, first);
    ChanRun(Channel.Init<M>(n, first), ops);
    ChanRun(Outcome(Channel.Init<M>(n, first), ops), more);
  }
}
