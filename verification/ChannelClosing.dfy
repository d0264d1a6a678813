/** The drop of the last `Sender`, seen by a receiver that waits.

    The drop decrements the count and notifies without the queue's lock. A receiver that loaded the count
    before the drop and registers its wait after `notify_all` took the lists is not woken. That window is
    the only one: outside it the receiver wakes. Inside it, from every state, an untimed receive sleeps on and a timed
    one reports a timeout. */
module ChannelClosing {
  import opened Basics
  import opened Monitor
  import opened MonitorSteps
  import opened MonitorSafety
  import opened MonitorRuns
  import opened MonitorTasks
  import opened Channel
  import opened MonitorAlone
  import opened MonitorOwn
  import opened ChannelSafety
  import opened ChannelDelivery
  import opened ChannelRuns
  import opened ChannelProgress
  import opened ChannelOwn

  // ------------------------------------------------------------ outside the window

  /** No sender is left; the receiver is not between its load of the count and its registration; and if it
      waits, its wake-up is on its way. */
  ghost predicate Told<M>(c: Chan<M>, rx: Tid)
    requires Sized(c)
  {
    && rx < |c.cl| && c.senderCount == 0 && !c.cl[rx].RecvWait?
    && (IsWaiting(c.mon.pc[rx]) ==> Pledged(c.mon, rx, Pending(c.mon.pc[rx]).value))
  }

  /** `notify_all` takes, with its next action, the list in which the wait `w` is registered. */
  predicate Takes(p: Pc, w: Waiting) {
    match p
    case NSpins(all, _) => all && w.OnFlag?
    case NThreads(all, _) => all && (w.OnThread? || w.OnThreadUntil?)
    case NTasks(all, _) => all && w.OnTask?
    case _ => false
  }

  /** The last sender's `notify_all` reaches the receiver's list outside the window. */
  lemma TakeTells<M>(c: Chan<M>, t: Tid, rx: Tid)
    requires ChanInv(c) && t < |c.cl| && rx < |c.cl| && t != rx && c.senderCount == 0 && !c.cl[rx].RecvWait?
    requires Notifies(c.mon.pc[t]) && c.mon.pc[t].all
    requires IsWaiting(c.mon.pc[rx]) ==> Takes(c.mon.pc[t], Pending(c.mon.pc[rx]).value)
    ensures Can(c, Inner(Go(t))) && Sized(Next(c, Inner(Go(t)))) && Told(Next(c, Inner(Go(t))), rx)
  {
    hide GoAcquire, GoRelease, GoAwait, Inv, Ledger, Turn, Open;
    SizedStep(c, Inner(Go(t)));
    StepBounded(c.mon, Go(t));
    if IsWaiting(c.mon.pc[rx]) {
      WaiterHas(c.mon, rx);
      TakePledges(c.mon, t, rx, Pending(c.mon.pc[rx]).value);
    }
  }

  lemma TakePledges<T>(m: State<T>, t: Tid, rx: Tid, w: Waiting)
    requires Wf(m) && t < |m.pc| && rx < |m.pc| && t != rx && Takes(m.pc[t], w)
    requires Pending(m.pc[rx]) == Some(w) && WaiterReachable(m, rx)
    ensures CanGo(m, t) && Wf(Advance(m, t)) && |Advance(m, t).pc| == |m.pc| && Pledged(Advance(m, t), rx, w)
  {
    hide GoAcquire, GoRelease, GoAwait;
    var m' := Advance(m, t);
    StepBounded(m, Go(t));
    WfStep(m, Go(t));
    if w.OnThread? && !m.rt.token[rx] {
      if rx in m.cond.threads {
        assert rx in Unparks(m'.pc[t]);
      } else {
        var u :| 0 <= u < |m.pc| && rx in Unparks(m.pc[u]);
        assert rx in Unparks(m'.pc[u]);
      }
    }
  }

  lemma ToldStep<M>(c: Chan<M>, op: Op<M>, rx: Tid)
    requires ChanInv(c) && TaskInv(c.mon) && Can(c, op) && Told(c, rx)
    ensures Sized(Next(c, op)) && |Next(c, op).cl| == |c.cl| && Told(Next(c, op), rx)
  {
    hide Inv, TaskInv, Ledger, Apply, Turn, Open, Pledged;
    SizedStep(c, op);
    Grows(c, op);
    StaysClear(c, op, rx);
    var c' := Next(c, op);
    if IsWaiting(c'.mon.pc[rx]) {
      if !IsWaiting(c.mon.pc[rx]) {
        BeginsByWait(c, op, rx);
      } else {
        PledgeGoesOn(c.mon, Underlying(c, op), rx);
      }
    }
  }

  lemma StaysClear<M>(c: Chan<M>, op: Op<M>, rx: Tid)
    requires ChanInv(c) && Can(c, op) && rx < |c.cl| && c.senderCount == 0 && !c.cl[rx].RecvWait?
    requires |Next(c, op).cl| == |c.cl|
    ensures !Next(c, op).cl[rx].RecvWait?
  {
    hide Inv, Apply, Ledger, Call;
  }

  lemma PledgeGoesOn<T>(m: State<T>, e: Option<Step<T>>, rx: Tid)
    requires Inv(m) && TaskInv(m) && rx < |m.pc| && (e.Some? ==> Enabled(m, e.value))
    requires IsWaiting(m.pc[rx]) && Pledged(m, rx, Pending(m.pc[rx]).value)
    requires e.Some? ==> Wf(Apply(m, e.value)) && |Apply(m, e.value).pc| == |m.pc|
    requires e.Some? ==> IsWaiting(Apply(m, e.value).pc[rx])
    ensures e.Some? ==> Pledged(Apply(m, e.value), rx, Pending(Apply(m, e.value).pc[rx]).value)
  {
    hide Apply, TaskInv;
    if e.Some? {
      WaitGoesOn(m, e.value, rx);
      PledgedStep(m, e.value, rx, Pending(m.pc[rx]).value);
    }
  }

  lemma {:induction false} ToldRun<M>(c: Chan<M>, ops: seq<Op<M>>, rx: Tid)
    requires ChanInv(c) && TaskInv(c.mon) && Told(c, rx) && Runs(c, ops)
    ensures var c' := Outcome(c, ops); ChanInv(c') && TaskInv(c'.mon) && Told(c', rx)
    decreases |ops|
  {
    hide Inv, TaskInv, Ledger, Apply, Turn, Open, Pledged, Told;
    if ops != [] {
      ChanStep(c, ops[0]);
      ToldStep(c, ops[0], rx);
      if Underlying(c, ops[0]).Some? {
        TaskStep(c.mon, Underlying(c, ops[0]).value);
      }
      ToldRun(Next(c, ops[0]), ops[1..], rx);
    }
  }

  /** A reachable state in which no sender is left, `notify_all` of thread `t` is about to take the list in
      which the receiver waits, if it waits, and the receiver is not about to register. */
  ghost predicate OutsideWindow<M>(n: nat, first: Tid, before: seq<Op<M>>, c: Chan<M>, t: Tid, rx: Tid) {
    && first < n && Runs(Channel.Init<M>(n, first), before) && c == Outcome(Channel.Init<M>(n, first), before)
    && t < |c.cl| && rx < |c.cl| && t != rx
    && c.senderCount == 0 && !c.cl[rx].RecvWait? && Notifies(c.mon.pc[t]) && c.mon.pc[t].all
    && (IsWaiting(c.mon.pc[rx]) ==> Takes(c.mon.pc[t], Pending(c.mon.pc[rx]).value))
  }

  /** The next action of thread `t`, and then `after`, lead to `c'`. */
  ghost predicate LeadsOn<M>(c: Chan<M>, t: Tid, after: seq<Op<M>>, c': Chan<M>) {
    Sized(c) && Runs(c, [Inner(Go(t))] + after) && c' == Outcome(c, [Inner(Go(t))] + after)
  }

  /** Outside the window the last drop wakes the receiver, by whatever receive it waits: from the moment
      its list is taken, in every later state in which it waits unsignalled, another thread has its
      wake-up in hand. */
  lemma LastDropWakes<M>(n: nat, first: Tid, before: seq<Op<M>>, c: Chan<M>, t: Tid, rx: Tid,
                         after: seq<Op<M>>, c': Chan<M>)
    requires OutsideWindow(n, first, before, c, t, rx) && LeadsOn(c, t, after, c')
    requires rx < |c'.mon.pc| && Wf(c'.mon) && Unsignalled(c'.mon, rx)
    ensures IsWaiting(c'.mon.pc[rx])
    ensures exists u :: 0 <= u < |c'.cl| && u != rx && Signals(c'.mon.pc[u], rx, Pending(c'.mon.pc[rx]).value)
  {
    hide Inv, TaskInv, Ledger, Apply, Turn, Open, Pledged;
    ChanInit<M>(n, first);
    ChanRun(Channel.Init<M>(n, first), before);
    NoTasks<seq<M>>(n, []);
    TasksRun(Channel.Init<M>(n, first), before);
    var op: Op<M> := Inner(Go(t));
    assert ([op] + after)[0] == op && ([op] + after)[1..] == after;
    SizedStep(c, op);
    OnceTold(c, t, rx, after);
  }

  lemma OnceTold<M>(c: Chan<M>, t: Tid, rx: Tid, after: seq<Op<M>>)
    requires ChanInv(c) && TaskInv(c.mon) && t < |c.cl| && rx < |c.cl| && t != rx
    requires c.senderCount == 0 && !c.cl[rx].RecvWait? && Notifies(c.mon.pc[t]) && c.mon.pc[t].all
    requires IsWaiting(c.mon.pc[rx]) ==> Takes(c.mon.pc[t], Pending(c.mon.pc[rx]).value)
    requires Can(c, Inner(Go(t))) && Sized(Next(c, Inner(Go(t)))) && Runs(Next(c, Inner(Go(t))), after)
    ensures var c' := Outcome(Next(c, Inner(Go(t))), after);
            rx < |c'.cl| && Unsignalled(c'.mon, rx)
            ==> IsWaiting(c'.mon.pc[rx])
                && exists u :: 0 <= u < |c'.cl| && u != rx && Signals(c'.mon.pc[u], rx, Pending(c'.mon.pc[rx]).value)
  {
    hide Inv, TaskInv, Ledger, Apply, Turn, Open, Pledged;
    var op: Op<M> := Inner(Go(t));
    TakeTells(c, t, rx);
    ChanStep(c, op);
    TaskStep(c.mon, Go(t));
    ToldRun(Next(c, op), after, rx);
    var c' := Outcome(Next(c, op), after);
    if Unsignalled(c'.mon, rx) {
      var u := PledgeInHand(c'.mon, rx);
    }
  }

  // ------------------------------------------------------------ inside the window

  /** A reachable state in which the receive of kind `k` is between its load of the count and its registration, no
      sender is left, and every other thread is between operations: the last drop is over. */
  ghost predicate InWindow<M>(n: nat, first: Tid, before: seq<Op<M>>, c: Chan<M>, rx: Tid, k: Kind) {
    && first < n && Runs(Channel.Init<M>(n, first), before) && c == Outcome(Channel.Init<M>(n, first), before)
    && rx < |c.cl| && c.cl[rx] == RecvWait(k) && c.senderCount == 0 && Quiet(c, rx)
  }

  lemma WindowFacts<M>(n: nat, first: Tid, before: seq<Op<M>>, c: Chan<M>, rx: Tid, k: Kind)
    requires InWindow(n, first, before, c, rx, k)
    ensures ChanInv(c) && TaskInv(c.mon) && k.By? && c.mon.pc[rx].In? && c.receiver == Some(rx)
    ensures c.mon.lock.value == [] && Alone(c.mon, rx)
    ensures forall t :: 0 <= t < |c.cl| ==> c.handles[t] == 0
  {
    hide Inv, TaskInv, Ledger, Next;
    ChanInit<M>(n, first);
    ChanRun(Channel.Init<M>(n, first), before);
    NoTasks<seq<M>>(n, []);
    TasksRun(Channel.Init<M>(n, first), before);
    assert ClientInv(c, rx);
    QuietIsAlone(c, rx);
    forall t | 0 <= t < |c.cl|
      ensures c.handles[t] == 0
    {
      NoSenders(c, t);
    }
  }

  /** The receiver sleeps, and no thread can act: only the platform can end its sleep, by a spurious return or an
      unpark from outside. */
  ghost predicate Stranded<M(!new)>(c: Chan<M>, rx: Tid)
    requires Sized(c) && rx < |c.cl|
  {
    && Unsignalled(c.mon, rx) && c.mon.lock.value == []
    && forall op :: Can(c, op) ==> op.Inner? && !op.e.Go?
  }

  /** By the receiver's own actions alone. */
  ghost predicate Strands<M(!new)>(c: Chan<M>, rx: Tid, k: Kind, ops: seq<Op<M>>)
    requires Sized(c) && rx < |c.cl|
  {
    && Runs(c, ops) && OwnActions(ops, rx)
    && Outcome(c, ops).cl == c.cl[rx := RecvWaiting(k)] && Stranded(Outcome(c, ops), rx)
  }

  lemma SleepsOn<M>(c: Chan<M>, d: Chan<M>, rx: Tid, k: Kind)
    requires ChanInv(c) && TaskInv(c.mon) && rx < |c.cl| && NoLimit(k) && Sized(d) && WaitsNow(c, d, rx, k)
    requires k.how.Blocking? ==> !c.mon.rt.token[rx] && rx !in c.mon.lock.threads
    ensures Unsignalled(d.mon, rx)
    ensures d.mon.pc[rx].CvPark? || (d.mon.pc[rx].CvSpin? && d.mon.pc[rx].dl.None?)
            || (d.mon.pc[rx].CvPoll? && d.mon.pc[rx].dl.None?)
  {
    hide Inv, TaskInv, Ledger, ClientInv;
    NewIsUnsignalled(c.mon);
  }

  lemma NobodyActs<M(!new)>(c: Chan<M>, rx: Tid)
    requires Sized(c) && rx < |c.cl| && Unsignalled(c.mon, rx) && Alone(c.mon, rx) && Quiet(c, rx)
    requires c.cl[rx].RecvWaiting? && c.receiver == Some(rx) && forall t :: 0 <= t < |c.cl| ==> c.handles[t] == 0
    requires c.mon.pc[rx].CvPark? || (c.mon.pc[rx].CvSpin? && c.mon.pc[rx].dl.None?)
             || (c.mon.pc[rx].CvPoll? && c.mon.pc[rx].dl.None?)
    ensures forall op :: Can(c, op) ==> op.Inner? && !op.e.Go?
  {
    hide Call;
  }

  /** Nothing is left over that would end the park of thread `rx`: no token from elsewhere, and no entry in the
      queue's lock, which its own release would answer. */
  predicate NothingLeft<T>(m: State<T>, rx: Tid)
    requires Wf(m) && rx < |m.pc|
  {
    !m.rt.token[rx] && rx !in m.lock.threads
  }

  /** From each reachable state in the window, with nothing left over if the receive is going to park, its own actions
      end with it asleep, and nobody is left to wake it. */
  lemma ComesToSleep<M(!new)>(n: nat, first: Tid, before: seq<Op<M>>, c: Chan<M>, rx: Tid, k: Kind)
    requires InWindow(n, first, before, c, rx, k) && NoLimit(k) && Sized(c)
    requires k.how.Blocking? ==> NothingLeft(c.mon, rx)
    ensures exists ops :: Strands(c, rx, k, ops)
  {
    hide ChanInv, TaskInv, Runs, Outcome, WaitsNow, Unsignalled, Can;
    WindowFacts(n, first, before, c, rx, k);
    var ops := ComesToWait(c, rx, k);
    var d := Outcome(c, ops);
    SleepsOn(c, d, rx, k);
    ElseUnchanged(c, d, rx, k);
    NobodyActs(d, rx);
    assert Strands(c, rx, k, ops);
  }

  lemma IsSized<M>(c: Chan<M>)
    requires ChanInv(c)
    ensures Sized(c)
  {
  }

  lemma ElseUnchanged<M>(c: Chan<M>, d: Chan<M>, rx: Tid, k: Kind)
    requires Sized(c) && Sized(d) && rx < |c.cl| && k.By? && WaitsNow(c, d, rx, k) && Alone(c.mon, rx) && Quiet(c, rx)
    ensures |d.cl| == |c.cl| && d.cl == c.cl[rx := RecvWaiting(k)] && Alone(d.mon, rx) && Quiet(d, rx)
    ensures d.receiver == c.receiver && d.handles == c.handles && d.mon.lock.value == c.mon.lock.value
  {
  }

  // ------------------------------------------------------------ what is left over

  /** Thread `rx` is in a wait of `recv_block`, and its park will return: it has its token, its own release has yet to
      take its entry, or has taken it and has yet to answer it. */
  predicate Woken<T>(m: State<T>, rx: Tid)
    requires Wf(m) && rx < |m.pc|
  {
    var p := m.pc[rx];
    && Pending(p).Some? && Pending(p).value.OnThread?
    && (m.rt.token[rx]
        || ((p.Release? || p.TakeThreads?) && rx in m.lock.threads)
        || (p.WakeThreads? && rx in p.ws))
  }

  /** The receive is in that wait or about to begin it, and nobody else can act; or it is not in a wait, nor about to
      begin one. */
  ghost predicate WakesUp<M>(c: Chan<M>, rx: Tid) {
    && Sized(c) && rx < |c.cl| && c.senderCount == 0
    && (InLastWait(c, rx) || (!IsWaiting(c.mon.pc[rx]) && !c.cl[rx].RecvWait?))
  }

  ghost predicate InLastWait<M>(c: Chan<M>, rx: Tid)
    requires Sized(c) && rx < |c.cl|
  {
    && Quiet(c, rx) && Alone(c.mon, rx) && c.receiver == Some(rx) && (forall t :: 0 <= t < |c.cl| ==> c.handles[t] == 0)
    && ((c.cl[rx] == RecvWait(By(Blocking, None)) && c.mon.pc[rx].In? && !NothingLeft(c.mon, rx))
        || (c.cl[rx].RecvWaiting? && Woken(c.mon, rx)))
  }

  /** The release answers the entry, and the park takes the token. */
  lemma WokenGo<T>(m: State<T>, rx: Tid)
    requires Wf(m) && rx < |m.pc| && CanGo(m, rx) && Woken(m, rx) && Wf(Advance(m, rx)) && |Advance(m, rx).pc| == |m.pc|
    ensures Woken(Advance(m, rx), rx) || !IsWaiting(Advance(m, rx).pc[rx])
  {
    hide GoAcquire, GoNotify;
  }

  lemma WokenStep<T>(m: State<T>, e: Step<T>, rx: Tid)
    requires Wf(m) && rx < |m.pc| && Enabled(m, e) && Internal(e) && Alone(m, rx) && Woken(m, rx)
    ensures Wf(Apply(m, e)) && |Apply(m, e).pc| == |m.pc| && Alone(Apply(m, e), rx)
    ensures Woken(Apply(m, e), rx) || !IsWaiting(Apply(m, e).pc[rx])
  {
    hide GoAcquire, GoRelease, GoAwait, GoNotify;
    WfStep(m, e);
    if e.Go? {
      StepBounded(m, e);
      WokenGo(m, rx);
    }
  }

  /** Nobody else can act, and the receiver goes on inside its wait. */
  lemma WaitStep<M>(c: Chan<M>, op: Op<M>, rx: Tid)
    requires ChanInv(c) && rx < |c.cl| && c.senderCount == 0 && InLastWait(c, rx) && c.cl[rx].RecvWaiting? && Can(c, op)
    requires Sized(Next(c, op)) && |Next(c, op).cl| == |c.cl|
    ensures WakesUp(Next(c, op), rx)
  {
    hide Inv, Ledger, Apply, ClientInv, Woken, IsWaiting;
    InWaitIsBusy(c, rx);
    assert op.Inner?;
    WokenStep(c.mon, op.e, rx);
  }

  lemma InWaitIsBusy<M>(c: Chan<M>, rx: Tid)
    requires Sized(c) && rx < |c.cl| && c.cl[rx].RecvWaiting? && Woken(c.mon, rx)
    ensures !CallDone(c.cl[rx], c.mon.pc[rx])
  {
  }

  /** The registration, or a step of the platform before it. */
  lemma BeginStep<M>(c: Chan<M>, op: Op<M>, rx: Tid)
    requires ChanInv(c) && rx < |c.cl| && c.senderCount == 0 && InLastWait(c, rx) && c.cl[rx].RecvWait? && Can(c, op)
    requires Sized(Next(c, op)) && |Next(c, op).cl| == |c.cl|
    ensures WakesUp(Next(c, op), rx)
  {
    hide Inv, Ledger, ClientInv, Advance, Woken;
    if op.Act? {
      Registration(c.mon, rx, op.sync);
    }
  }

  lemma Registration<T>(m: State<T>, rx: Tid, sync: Sync)
    requires Wf(m) && rx < |m.pc| && m.pc[rx].In? && !NothingLeft(m, rx)
    ensures Enabled(m, Wait(rx, Request.WaitBlock(sync))) && Wf(Apply(m, Wait(rx, Request.WaitBlock(sync))))
    ensures var m' := Apply(m, Wait(rx, Request.WaitBlock(sync)));
            |m'.pc| == |m.pc| && Woken(m', rx) && (Alone(m, rx) ==> Alone(m', rx))
  {
  }

  lemma WakesUpStep<M>(c: Chan<M>, op: Op<M>, rx: Tid)
    requires ChanInv(c) && WakesUp(c, rx) && Can(c, op)
    ensures WakesUp(Next(c, op), rx)
  {
    hide Inv, Ledger, Apply, Turn, Open, InLastWait, ClientInv;
    SizedStep(c, op);
    Grows(c, op);
    if InLastWait(c, rx) {
      LastWaitCases(c, rx);
      if c.cl[rx].RecvWait? {
        BeginStep(c, op, rx);
      } else {
        WaitStep(c, op, rx);
      }
    } else {
      StaysClear(c, op, rx);
      if IsWaiting(Next(c, op).mon.pc[rx]) {
        BeginsByWait(c, op, rx);
      }
    }
  }

  lemma LastWaitCases<M>(c: Chan<M>, rx: Tid)
    requires Sized(c) && rx < |c.cl| && InLastWait(c, rx)
    ensures c.cl[rx].RecvWait? || c.cl[rx].RecvWaiting?
  {
  }

  lemma {:induction false} WakesUpRun<M>(c: Chan<M>, ops: seq<Op<M>>, rx: Tid)
    requires ChanInv(c) && WakesUp(c, rx) && Runs(c, ops)
    ensures WakesUp(Outcome(c, ops), rx)
    decreases |ops|
  {
    hide Inv, Ledger, Next, Can, WakesUp, ClientInv;
    if ops != [] {
      ChanStep(c, ops[0]);
      WakesUpStep(c, ops[0], rx);
      WakesUpRun(Next(c, ops[0]), ops[1..], rx);
    }
  }

  /** With something left over, `recv_block` does not sleep in the window, whatever happens: in no state of any run from
      there is it at a park without its token, in this wait or in any later one. */
  lemma LeftoverWakes<M>(n: nat, first: Tid, before: seq<Op<M>>, c: Chan<M>, rx: Tid, ops: seq<Op<M>>, d: Chan<M>)
    requires InWindow(n, first, before, c, rx, By(Blocking, None)) && Sized(c) && !NothingLeft(c.mon, rx)
    requires Runs(c, ops) && d == Outcome(c, ops)
    ensures rx < |d.mon.pc| && Sized(d) && !Unsignalled(d.mon, rx)
  {
    hide ChanInv, TaskInv, Runs, Outcome, Can, NothingLeft;
    WindowFacts(n, first, before, c, rx, By(Blocking, None));
    WakesUpRun(c, ops, rx);
  }

  /** Inside the window, exactly: by its own actions alone a receive without a limit comes to sleep with nobody left to
      wake it, if and only if it does not park or nothing is left over. */
  lemma LastDropMayStrand<M(!new)>(n: nat, first: Tid, before: seq<Op<M>>, c: Chan<M>, rx: Tid, k: Kind)
    requires InWindow(n, first, before, c, rx, k) && NoLimit(k)
    ensures Sized(c) && rx < |c.cl|
    ensures (exists ops :: Strands(c, rx, k, ops)) <==> (k.how.Blocking? ==> NothingLeft(c.mon, rx))
  {
    hide ChanInv, TaskInv, Runs, Outcome, Can, NothingLeft, Unsignalled;
    WindowFacts(n, first, before, c, rx, k);
    IsSized(c);
    if k.how.Blocking? && !NothingLeft(c.mon, rx) {
      forall ops: seq<Op<M>> | Strands(c, rx, k, ops)
        ensures false
      {
        LeftoverWakes(n, first, before, c, rx, ops, Outcome(c, ops));
      }
    } else {
      ComesToSleep(n, first, before, c, rx, k);
    }
  }

  // ------------------------------------------------------------ a receive with a limit

  /** The receiver's own actions, and the clock, bring the receive to its timeout. */
  ghost predicate GivesUp<M>(c: Chan<M>, rx: Tid, ops: seq<Op<M>>)
    requires Sized(c) && rx < |c.cl|
  {
    Runs(c, ops) && OwnActions(ops, rx) && Outcome(c, ops).cl == c.cl[rx := RecvUnlock(TimedOut)]
  }

  lemma LimitExpires<M>(c: Chan<M>, d: Chan<M>, rx: Tid, k: Kind) returns (es: seq<Step<seq<M>>>)
    requires ChanInv(c) && TaskInv(c.mon) && rx < |c.cl| && k.By? && k.dl.Some? && Sized(d) && WaitsNow(c, d, rx, k)
    ensures TimesOut(d.mon, rx, es)
  {
    hide Inv, TaskInv, Ledger, ClientInv, Possible, Exec, TimesOut;
    NewIsUnsignalled(c.mon);
    match k.how {
      case Spinning => es := ExpiresSpinning(d.mon, rx, c.mon.rt.next, k.dl.value, SyncBlock);
      case Blocking => es := ExpiresListed(d.mon, rx, k.dl.value, SyncBlock);
      case Tasking => es := ExpiresTask(d.mon, rx, c.mon.rt.next, k.dl.value);
    }
  }

  /** Inside the window a receive with a limit can come to report a timeout, not the disconnection: when its deadline
      passes before anything else wakes it. */
  lemma LastDropMayTimeOut<M>(n: nat, first: Tid, before: seq<Op<M>>, c: Chan<M>, rx: Tid, k: Kind)
    requires InWindow(n, first, before, c, rx, k) && k.By? && k.dl.Some?
    ensures Sized(c) && rx < |c.cl| && exists ops :: GivesUp(c, rx, ops)
  {
    hide ChanInv, TaskInv, Runs, Outcome, Possible, Exec, Apply;
    WindowFacts(n, first, before, c, rx, k);
    IsSized(c);
    var ops := ComesToWait(c, rx, k);
    var d := Outcome(c, ops);
    var es := LimitExpires(c, d, rx, k);
    ops := Inside(c, ops, es);
    assert CallDone(Outcome(c, ops).cl[rx], Outcome(c, ops).mon.pc[rx]);
    ops := Then(c, ops, Act(rx, SyncBlock));
    assert GivesUp(c, rx, ops);
  }

  // ------------------------------------------------------------ how the window is reached

  /** `c` is reachable, the receive of kind `k` has loaded the count, thread `u` has the last sender, and every other
      thread is between operations. */
  ghost predicate BeforeDrop<M>(n: nat, first: Tid, before: seq<Op<M>>, c: Chan<M>, rx: Tid, k: Kind, u: Tid) {
    && first < n && Runs(Channel.Init<M>(n, first), before) && c == Outcome(Channel.Init<M>(n, first), before)
    && rx < |c.cl| && c.cl[rx] == RecvWait(k) && Quiet(c, rx)
    && u < |c.cl| && u != rx && c.handles[u] > 0 && c.senderCount == 1
  }

  /** The whole drop of the last sender leads into the window. It gives the receiver no token but for an entry left
      over in the list of threads. */
  ghost predicate Drops<M>(n: nat, first: Tid, before: seq<Op<M>>, c: Chan<M>, rx: Tid, k: Kind, u: Tid,
                           ops: seq<Op<M>>, d: Chan<M>)
  {
    && |ops| > 0 && ops[0] == DropSender(u) && OwnActions(ops[1..], u) && InWindow(n, first, before + ops, d, rx, k)
    && Sized(c) && Sized(d) && |d.mon.rt.token| == |c.mon.rt.token| && d.mon.lock == c.mon.lock
    && (rx < |c.mon.rt.token| && d.mon.rt.token[rx] ==> c.mon.rt.token[rx] || rx in c.mon.cond.threads)
  }

  lemma DropBegins<M>(c: Chan<M>, u: Tid)
    requires Sized(c) && u < |c.cl| && c.cl[u].Idle? && c.mon.pc[u].Out? && c.handles[u] > 0 && c.senderCount == 1
    ensures Can(c, DropSender(u)) && Can(Next(c, DropSender(u)), Act(u, SyncBlock))
    ensures var d := Next(Next(c, DropSender(u)), Act(u, SyncBlock));
            && Sized(d) && d.senderCount == 0 && d.cl == c.cl[u := LastReturn]
            && d.mon == At(c.mon, u, NSpins(true, false))
  {
  }

  lemma DropOpensWindow<M>(n: nat, first: Tid, before: seq<Op<M>>, c: Chan<M>, rx: Tid, k: Kind, u: Tid)
    requires BeforeDrop(n, first, before, c, rx, k, u)
    ensures exists ops, d :: Drops(n, first, before, c, rx, k, u, ops, d)
  {
    hide Runs, Outcome, Possible, Exec, Apply, Next, Channel.Init;
    assert Sized(c) && c.mon.pc[u].Out? by { IsOut(n, first, before, c, u); }
    DropBegins(c, u);
    Nothing(c);
    var ops := Then(c, [], DropSender(u));
    ops := Then(c, ops, Act(u, SyncBlock));
    var es := FinishTelling(Outcome(c, ops).mon, u);
    ops := Inside(c, ops, es);
    DropEnds(Outcome(c, ops), u);
    ops := Then(c, ops, Act(u, SyncBlock));
    OutcomeConcat(Channel.Init<M>(n, first), before, ops);
    assert Drops(n, first, before, c, rx, k, u, ops, Outcome(c, ops));
  }

  lemma IsOut<M>(n: nat, first: Tid, before: seq<Op<M>>, c: Chan<M>, u: Tid)
    requires first < n && Runs(Channel.Init<M>(n, first), before) && c == Outcome(Channel.Init<M>(n, first), before)
    requires u < |c.cl| && c.cl[u].Idle?
    ensures Sized(c) && c.mon.pc[u].Out?
  {
    hide Next, Inv, Ledger;
    ChanInit<M>(n, first);
    ChanRun(Channel.Init<M>(n, first), before);
    assert ClientInv(c, u);
  }

  lemma DropEnds<M>(c: Chan<M>, u: Tid)
    requires Sized(c) && u < |c.cl| && c.cl[u].LastReturn? && c.mon.pc[u].Out?
    ensures Can(c, Act(u, SyncBlock)) && Next(c, Act(u, SyncBlock)) == c.(cl := c.cl[u := Idle])
  {
  }
}
