/** Deadlock freedom of the channel, with no assumption on what other threads are doing. */
module ChannelLive {
  import opened Basics
  import opened Monitor
  import opened MonitorSafety
  import opened MonitorRuns
  import opened MonitorTasks
  import opened Channel
  import opened ChannelSafety
  import opened ChannelDelivery
  import opened ChannelProgress

  /** Some thread can take the next action of the operation it is in. */
  ghost predicate SomeoneActs<M>(c: Chan<M>)
    requires Sized(c)
  {
    exists u :: 0 <= u < |c.cl| && !c.cl[u].Idle? && Can(c, OwnOp(c, u))
  }

  /** An operation whose monitor call has returned goes on. */
  lemma DoneActs<M>(c: Chan<M>, t: Tid)
    requires ChanInv(c) && t < |c.cl| && CallDone(c.cl[t], c.mon.pc[t])
    ensures Can(c, Act(t, SyncBlock)) && !c.cl[t].Idle?
  {
    hide Inv, Ledger;
    assert ClientInv(c, t);
  }

  /** So does one whose thread owns the lock, releases it or notifies. */
  lemma BusyActs<M>(c: Chan<M>, u: Tid)
    requires ChanInv(c) && u < |c.cl| && (Holds(c.mon.pc[u]) || Releases(c.mon.pc[u]) || Notifies(c.mon.pc[u]))
    ensures !c.cl[u].Idle? && Can(c, OwnOp(c, u))
  {
    hide Inv, Ledger, Call;
    assert ClientInv(c, u);
    if CallDone(c.cl[u], c.mon.pc[u]) {
      DoneActs(c, u);
    }
  }

  lemma HelperActs<M>(c: Chan<M>, rx: Tid)
    requires ChanInv(c) && rx < |c.cl| && IsWaiting(c.mon.pc[rx]) && HelpComes(c, rx)
    ensures SomeoneActs(c)
  {
    hide Inv, Ledger, Can;
    var w := Pending(c.mon.pc[rx]).value;
    var u :| 0 <= u < |c.cl| && u != rx && (Notifier(c.cl[u], c.mon.pc[u], w) || Signals(c.mon.pc[u], rx, w));
    assert ClientInv(c, u);
    if CallDone(c.cl[u], c.mon.pc[u]) {
      DoneActs(c, u);
    } else {
      BusyActs(c, u);
    }
  }

  /** A thread kept from acquiring the lock is kept by one that goes on. */
  lemma RescuerActs<M>(c: Chan<M>, t: Tid)
    requires ChanInv(c) && t < |c.cl| && Acquires(c.mon.pc[t]) && !CanGo(c.mon, t)
    ensures SomeoneActs(c)
  {
    hide Ledger, Can, ClientInv;
    var u := SomeRescuer(c.mon, t);
    BusyActs(c, u);
  }

  lemma SomeRescuer<T>(m: State<T>, t: Tid) returns (u: Tid)
    requires Inv(m) && t < |m.pc| && Acquires(m.pc[t]) && !CanGo(m, t)
    ensures u < |m.pc| && (Holds(m.pc[u]) || Releases(m.pc[u]) || Notifies(m.pc[u]))
  {
    if m.pc[t].BlockPark? {
      ParkedIsRescued(m, t);
      u :| 0 <= u < |m.pc| && u != t && Rescues(m.pc[u], t);
    } else if m.pc[t].TaskPoll? {
      var id := m.pc[t].id;
      AwaitedIsRescued(m, t, id);
      u :| 0 <= u < |m.pc| && u != t && (Holds(m.pc[u]) || OwesTasks(m.pc[u]) || id in Sends(m.pc[u]));
    } else {
      assert Exclusive(m);
      u :| 0 <= u < |m.pc| && Holds(m.pc[u]);
    }
  }

  /** Inside its monitor call and unable to go on, a thread is kept from the lock or waits unsignalled. */
  lemma Blocked<M>(c: Chan<M>, t: Tid)
    requires ChanInv(c) && t < |c.cl| && !c.cl[t].Idle? && !CallDone(c.cl[t], c.mon.pc[t]) && !CanGo(c.mon, t)
    ensures Acquires(c.mon.pc[t]) || Unsignalled(c.mon, t)
  {
    hide Inv, Ledger;
    assert ClientInv(c, t);
  }

  /** In every state reached by an orderly run: while any thread is in an operation, other than a receive that waits for
      an empty queue, some thread can take its next action, with no spurious wake-up and no new operation. */
  lemma NeverStuck<M>(n: nat, first: Tid, ops: seq<Op<M>>, c: Chan<M>, t: Tid)
    requires Reached(n, first, ops, c) && Sized(c) && t < |c.cl| && !c.cl[t].Idle?
    requires IsWaiting(c.mon.pc[t]) ==> c.mon.lock.value != []
    ensures SomeoneActs(c)
  {
    hide Reached, Inv, Ledger, Attended, ClientInv, Unsignalled, HelpComes, CanGo, Can;
    ReachedDelivers(n, first, ops, c);
    if CallDone(c.cl[t], c.mon.pc[t]) {
      DoneActs(c, t);
    } else if CanGo(c.mon, t) {
      GoCan(c, t);
    } else {
      Blocked(c, t);
      if Acquires(c.mon.pc[t]) {
        RescuerActs(c, t);
      } else {
        WaitsUnsignalled(c.mon, t);
        Helped(c, t);
        HelperActs(c, t);
      }
    }
  }

  lemma WaitsUnsignalled<T>(m: State<T>, t: Tid)
    requires Wf(m) && t < |m.pc| && Unsignalled(m, t)
    ensures IsWaiting(m.pc[t])
  {
  }

  lemma GoCan<M>(c: Chan<M>, t: Tid)
    requires Sized(c) && t < |c.cl| && CanGo(c.mon, t)
    ensures Can(c, Inner(Go(t)))
  {
  }

  /** So a run that cannot go on has delivered everything: if a thread is in a receive when nobody can act, all that was
      ever pushed has been received, the receive waits for more, and no other operation is in progress. */
  lemma RestIsDelivered<M>(n: nat, first: Tid, ops: seq<Op<M>>, c: Chan<M>, rx: Tid)
    requires Reached(n, first, ops, c) && Sized(c) && rx < |c.cl| && !c.cl[rx].Idle? && !SomeoneActs(c)
    ensures c.log.received == c.log.pushed && IsWaiting(c.mon.pc[rx]) && c.cl[rx].RecvWaiting?
    ensures forall t :: 0 <= t < |c.cl| && t != rx ==> c.cl[t].Idle?
  {
    hide Reached, Inv, ClientInv, TaskInv, Attended, SomeoneActs, Can;
    ReachedDelivers(n, first, ops, c);
    if !IsWaiting(c.mon.pc[rx]) || c.mon.lock.value != [] {
      NeverStuck(n, first, ops, c, rx);
    }
    IsSole(c, rx);
    OnlyReceives(c, rx);
    forall t | 0 <= t < |c.cl| && t != rx
      ensures c.cl[t].Idle?
    {
      if !c.cl[t].Idle? {
        NeverStuck(n, first, ops, c, t);
      }
    }
  }

  lemma OnlyReceives<M>(c: Chan<M>, rx: Tid)
    requires ChanInv(c) && rx < |c.cl| && IsWaiting(c.mon.pc[rx])
    ensures c.cl[rx].RecvWaiting?
  {
    hide Inv, Ledger;
    assert ClientInv(c, rx);
    WaiterIsReceiver(c, rx);
  }
}
