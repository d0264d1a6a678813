/** The channel's own code: `Sender::send_*`, its clone and drop, `Receiver::try_recv` and `recv_*`, run by
    one thread while the others go on. The mutex and the condition variable are taken as the monitor, whose
    own code is `MutexCode` and `CondvarCode`; the channel's fields are the source's. */
module ChannelCode {
  import opened Basics
  import opened Monitor
  import opened MonitorSteps
  import opened MonitorSafety
  import opened MonitorRuns
  import opened MonitorTasks
  import opened MonitorAlone
  import opened Channel
  import opened ChannelSafety
  import opened ChannelRuns
  import opened ChannelLimits
  import opened ChannelTurns

  /** The operations thread `t` begins in a run. */
  function Begun<M>(ops: seq<Op<M>>, t: Tid): seq<Op<M>> {
    if ops == [] then [] else Begun(ops[..|ops| - 1], t) + Beginning(Last(ops), t)
  }

  function Beginning<M>(op: Op<M>, t: Tid): seq<Op<M>> {
    if op.Act? || op.Inner? || op.t != t then [] else [op]
  }

  lemma BegunSnoc<M>(ops: seq<Op<M>>, op: Op<M>, t: Tid)
    ensures Begun(ops + [op], t) == Begun(ops, t) + Beginning(op, t)
  {
    assert (ops + [op])[..|ops|] == ops;
  }

  /** What steps of the other threads leave alone, seen from thread `t`. */
  ghost predicate Undisturbed<M>(c: Chan<M>, c': Chan<M>, t: Tid) {
    && t < |c.cl| == |c'.cl| && Sized(c) && Sized(c')
    && c'.cl[t] == c.cl[t] && c'.mon.pc[t] == c.mon.pc[t]
    && c.log.pushed <= c'.log.pushed && c.log.received <= c'.log.received && (c.log.closed ==> c'.log.closed)
    && (c.mon.pc[t].In? ==> c'.mon.lock.value == c.mon.lock.value)
    && (c.receiver == Some(t) ==> c'.receiver == Some(t) && c'.log.received == c.log.received)
    && (!c.active ==> !c'.active)
  }

  lemma OtherOp<M>(c: Chan<M>, op: Op<M>, t: Tid)
    requires ChanInv(c) && Can(c, op) && t < |c.cl| && !Owner(op, t)
    ensures Undisturbed(c, Next(c, op), t)
  {
    hide Next, Inv;
    SizedStep(c, op);
    OthersStay(c, op, t);
    Grows(c, op);
    QueueMoves(c, op);
    if !c.active { StaysInactive(c, op); }
    if c.mon.pc[t].In? && Next(c, op).mon.lock.value != c.mon.lock.value {
      OneOwner(c.mon, t, op.t);
    }
    if c.receiver == Some(t) {
      OneReceiver(c, op, t);
    }
  }

  lemma OneReceiver<M>(c: Chan<M>, op: Op<M>, t: Tid)
    requires ChanInv(c) && Can(c, op) && !Owner(op, t) && c.receiver == Some(t)
    ensures Next(c, op).receiver == Some(t) && Next(c, op).log.received == c.log.received
  {
    hide Apply, Inv;
    if op.Act? {
      assert ClientInv(c, op.t);
    }
  }

  lemma StaysInactive<M>(c: Chan<M>, op: Op<M>)
    requires Sized(c) && Can(c, op) && !c.active
    ensures !Next(c, op).active
  {
    hide Apply, Call;
  }

  lemma NotOwner<M>(op: Op<M>, t: Tid)
    requires !Owner(op, t)
    ensures Beginning(op, t) == []
  {
  }

  lemma Unmoved<M>(c: Chan<M>, t: Tid)
    requires Sized(c) && t < |c.cl|
    ensures Undisturbed(c, c, t)
  {
  }

  lemma StillUndisturbed<M>(a: Chan<M>, b: Chan<M>, c: Chan<M>, t: Tid)
    requires Undisturbed(a, b, t) && Undisturbed(b, c, t)
    ensures Undisturbed(a, c, t) && t < |c.cl|
  {
  }

  lemma OneOwner<T>(s: State<T>, t: Tid, u: Tid)
    requires Inv(s) && t < |s.pc| && u < |s.pc| && s.pc[t].In? && s.pc[u].In?
    ensures t == u
  {
  }

  datatype Beat<M> = Beat(others: seq<Op<M>>, spurious: bool)

  /** The drop of the guard and the notifications: nothing holds them up. */
  predicate NeverHeldUp(p: Pc) { Ready(p) || Notifies(p) || (Releases(p) && p.after.Leave?) }

  lemma NotHeldUp<T>(m: State<T>, t: Tid)
    requires Wf(m) && t < |m.pc| && NeverHeldUp(m.pc[t])
    ensures !HeldUp(m, t)
  {
  }

  lemma NotParked(p: Pc)
    ensures NeverHeldUp(p) ==> !CanReturn(p)
  {
  }

  lemma StaysFree<T>(m: State<T>, t: Tid)
    requires Wf(m) && t < |m.pc| && NeverHeldUp(m.pc[t]) && CanGo(m, t) && |Advance(m, t).pc| == |m.pc|
    ensures NeverHeldUp(Advance(m, t).pc[t])
  {
  }

  lemma Begins<T>(m: State<T>, t: Tid, req: Request)
    requires Wf(m) && t < |m.pc| && m.pc[t].In?
    ensures t < |Register(m, t, req).pc| && !Ready(Register(m, t, req).pc[t])
  {
  }

  /** Where the drop of the guard leads. */
  function Dropped<M>(x: Client<M>): Client<M>
    requires x.SendUnlock? || x.RejectUnlock? || x.RecvUnlock?
  {
    match x
    case SendUnlock(m, from, at) => SendNotify(m, from, at)
    case RejectUnlock(m) => RejectReturn(m)
    case RecvUnlock(r) => RecvReturn(r)
  }

  datatype SendResult<M> = Sent | SendError(m: M) | SendPending

  datatype RecvResult<M> = Done(r: Result<M>) | RecvPending

  /** `Shared`, with the threads' places in the code and the history. */
  class Shared<M> {
    var queue: State<seq<M>>
    var senderCount: int
    var receiverActive: bool
    var cl: seq<Client<M>>
    var handles: seq<nat>
    var receiver: Option<Tid>
    var log: Log<M>
    var schedule: seq<Beat<M>>
    ghost var trace: seq<Op<M>>
    ghost const n: nat
    ghost const first: Tid

    /** `channel()`, among `threads` threads of which `owner` calls it. */
    constructor (threads: nat, owner: Tid, beats: seq<Beat<M>>)
      requires owner < threads
      ensures Valid() && View() == Channel.Init(threads, owner) && schedule == beats
    {
      var c := Channel.Init<M>(threads, owner);
      queue, senderCount, receiverActive, cl := c.mon, c.senderCount, c.active, c.cl;
      handles, receiver, log, schedule := c.handles, c.receiver, c.log, beats;
      trace, n, first := [], threads, owner;
    }

    function View(): Chan<M>
      reads this
    {
      Chan(queue, cl, handles, senderCount, receiver, receiverActive, log)
    }

    /** The fields are in a state that a run of the channel reaches. */
    ghost predicate Valid()
      reads this
      ensures Valid() ==> |cl| == |queue.pc| == |handles| && Wf(queue)
    {
      && first < n && Runs(Channel.Init<M>(n, first), trace)
      && View() == Outcome(Channel.Init<M>(n, first), trace)
      && Sized(View())
    }

    lemma Sound()
      requires Valid()
      ensures ChanInv(View())
    {
      hide Next;
      ChanInit<M>(n, first);
      ChanRun(Channel.Init<M>(n, first), trace);
    }

    /** The states in which thread `t` took the actions of its own operations. */
    ghost function Turned(t: Tid): seq<Chan<M>>
      requires Valid()
      reads this
    {
      Turns(Channel.Init<M>(n, first), trace, t)
    }

    lemma Tasks()
      requires Valid()
      ensures TaskInv(queue)
    {
      hide Next;
      ChanInit<M>(n, first);
      NoTasks<seq<M>>(n, []);
      TasksRun(Channel.Init<M>(n, first), trace);
    }

    /** Thread `t` took step `op`. */
    twostate predicate Did(t: Tid, new op: Op<M>)
      reads this
    {
      && old(Valid()) && Valid() && Can(old(View()), op) && View() == Next(old(View()), op)
      && trace == old(trace) + [op] && schedule == old(schedule) && t < |cl| == old(|cl|)
      && Begun(trace, t) == old(Begun(trace, t)) + Beginning(op, t)
      && Turned(t) == old(Turned(t)) + TurnIn(old(View()), op, t)
      && (op.Act? ==> Turned(t) != [] && t < |Last(Turned(t)).cl| && Last(Turned(t)).cl[t] == old(cl[t]))
      && (op.DropReceiver? || op.GiveReceiver? || receiver == old(receiver))
      && (log.received == old(log.received) || old(cl[t].RecvLock?) || old(cl[t].RecvWaiting?))
      && old(log.pushed) <= log.pushed && old(log.received) <= log.received && (old(log.closed) ==> log.closed)
      && (old(!receiverActive) ==> !receiverActive)
    }

    /** Other threads went on. */
    twostate predicate Paused(t: Tid)
      reads this
    {
      && old(Valid()) && Valid() && Undisturbed(old(View()), View(), t)
      && t < |cl| == old(|cl|) && cl[t] == old(cl[t]) && queue.pc[t] == old(queue.pc[t])
      && old(trace) <= trace && Begun(trace, t) == old(Begun(trace, t))
      && (queue.pc[t].In? ==> queue.lock.value == old(queue.lock.value))
      && (old(receiver) == Some(t) ==> receiver == Some(t) && log.received == old(log.received))
      && old(log.pushed) <= log.pushed && old(log.received) <= log.received && (old(log.closed) ==> log.closed)
      && (old(!receiverActive) ==> !receiverActive)
      && |schedule| <= old(|schedule|) && (old(schedule) != [] ==> |schedule| < old(|schedule|))
      && (old(schedule) == [] ==> schedule == [] && queue == old(queue) && cl == old(cl) && log == old(log))
    }

    /** Those of `ops` that other threads can take. */
    method RunOthers(t: Tid, ops: seq<Op<M>>)
      requires Valid() && t < |cl|
      modifies this
      ensures Valid() && Undisturbed(old(View()), View(), t) && schedule == old(schedule)
      ensures old(trace) <= trace && Begun(trace, t) == old(Begun(trace, t))
    {
      hide Next, Can, ChanInv, Channel.Init, Undisturbed, Owner, Begun;
      var i := 0;
      Unmoved(View(), t);
      while i < |ops|
        invariant i <= |ops| && Valid() && schedule == old(schedule)
        invariant t < |cl| && Undisturbed(old(View()), View(), t)
        invariant old(trace) <= trace && Begun(trace, t) == old(Begun(trace, t))
      {
        var op := ops[i];
        if Can(View(), op) && !Owner(op, t) {
          Sound();
          OtherOp(View(), op, t);
          Extend(op);
          StillUndisturbed(old(View()), View(), Next(View(), op), t);
          BegunSnoc(trace, op, t);
          NotOwner(op, t);
          trace := trace + [op];
          var c := Next(View(), op);
          queue, senderCount, receiverActive, cl := c.mon, c.senderCount, c.active, c.cl;
          handles, receiver, log := c.handles, c.receiver, c.log;
        }
        i := i + 1;
      }
    }

    method NextBeat(t: Tid) returns (spurious: bool)
      requires Valid() && t < |cl|
      modifies this
      ensures Paused(t)
    {
      hide Next, Can, ChanInv, Channel.Init;
      if schedule == [] { return false; }
      var b := schedule[0];
      schedule := schedule[1..];
      RunOthers(t, b.others);
      return b.spurious;
    }

    method Others(t: Tid)
      requires Valid() && t < |cl|
      modifies this
      ensures Paused(t)
    {
      var _ := NextBeat(t);
    }

    lemma Extend(op: Op<M>)
      requires Valid() && Can(View(), op)
      ensures Runs(Channel.Init<M>(n, first), trace + [op])
      ensures Outcome(Channel.Init<M>(n, first), trace + [op]) == Next(View(), op)
      ensures Sized(Next(View(), op)) && |Next(View(), op).cl| == |cl|
    {
      hide Next, Can, Channel.Init;
      OutcomeSnoc(Channel.Init<M>(n, first), trace, op);
      SizedStep(View(), op);
    }

    // ---------------------------------------------------------- actions

    /** The fields are now those of `Next(c, op)`. */
    ghost method Took(t: Tid, op: Op<M>, c: Chan<M>)
      requires first < n && Runs(Channel.Init<M>(n, first), trace) && Outcome(Channel.Init<M>(n, first), trace) == c
      requires Sized(c) && Can(c, op) && View() == Next(c, op)
      modifies `trace
      ensures Valid() && trace == old(trace) + [op]
      ensures Begun(trace, t) == old(Begun(trace, t)) + Beginning(op, t)
      ensures Turned(t) == Turns(Channel.Init<M>(n, first), old(trace), t) + TurnIn(c, op, t)
    {
      hide Next, Can, Channel.Init;
      BegunSnoc(trace, op, t);
      OutcomeSnoc(Channel.Init<M>(n, first), trace, op);
      SizedStep(c, op);
      TurnsOne(c, op, t);
      TurnsConcat(Channel.Init<M>(n, first), trace, [op], t);
      trace := trace + [op];
    }

    /** A send begins. */
    method BeginSend(t: Tid, m: M, how: How)
      requires Valid() && t < |cl| && cl[t].Idle? && handles[t] > 0
      modifies this
      ensures Did(t, Send(t, m, how)) && cl[t] == SendCheck(m, how, old(|log.pushed|))
    {
      hide Apply, Outcome, Runs, Turns, Channel.Init, Turn, Begun;
      ghost var c := View();
      cl, log := cl[t := SendCheck(m, how, |log.pushed|)], log.(begun := log.begun + [m]);
      Took(t, Send(t, m, how), c);
    }

    /** The first load of `receiver_active`; then the acquisition begins. */
    method CheckActive(t: Tid, sync: Sync) returns (active: bool)
      requires Valid() && t < |cl| && cl[t].SendCheck? && queue.pc[t].Out?
      modifies this
      ensures Did(t, Act(t, sync)) && active == old(receiverActive)
      ensures cl[t] == if active then SendLock(old(cl[t].m), old(cl[t].from)) else Idle
      ensures !active ==> log.rejected == old(log.rejected) + [old(cl[t].m)]
    {
      hide Apply, Outcome, Runs, Turns, Channel.Init, Open, Begun;
      ghost var c := View();
      var x := cl[t];
      active := receiverActive;
      if active {
        queue, cl := Apply(queue, Lock(t, x.how, None)), cl[t := SendLock(x.m, x.from)];
      } else {
        cl, log := cl[t := Idle], log.(rejected := log.rejected + [x.m]);
      }
      Took(t, Act(t, sync), c);
    }

    /** The second load, under the lock. */
    method CheckActiveAgain(t: Tid, sync: Sync) returns (active: bool)
      requires Valid() && t < |cl| && cl[t].SendLock? && queue.pc[t].In?
      modifies this
      ensures Did(t, Act(t, sync)) && active == receiverActive && queue == old(queue)
      ensures cl[t] == if active then SendPush(old(cl[t].m), old(cl[t].from)) else RejectUnlock(old(cl[t].m))
    {
      hide Apply, Outcome, Runs, Turns, Channel.Init, Open, Begun;
      ghost var c := View();
      var x := cl[t];
      active := receiverActive;
      cl := cl[t := if active then SendPush(x.m, x.from) else RejectUnlock(x.m)];
      Took(t, Act(t, sync), c);
    }

    /** `push_back`. */
    method PushBack(t: Tid, sync: Sync)
      requires Valid() && t < |cl| && cl[t].SendPush? && queue.pc[t].In?
      modifies this
      ensures Did(t, Act(t, sync)) && cl[t] == SendUnlock(old(cl[t].m), old(cl[t].from), old(|log.pushed|))
      ensures queue == Apply(old(queue), Store(t, old(queue.lock.value) + [old(cl[t].m)]))
    {
      hide Apply, Outcome, Runs, Turns, Channel.Init, Open, Begun;
      ghost var c := View();
      var x := cl[t];
      queue := Apply(queue, Store(t, queue.lock.value + [x.m]));
      cl, log := cl[t := SendUnlock(x.m, x.from, |log.pushed|)], log.(pushed := log.pushed + [x.m]);
      Took(t, Act(t, sync), c);
    }

    /** The guard goes out of scope. */
    method DropQueue(t: Tid, sync: Sync)
      requires Valid() && t < |cl| && (cl[t].SendUnlock? || cl[t].RejectUnlock? || cl[t].RecvUnlock?) && queue.pc[t].In?
      modifies this
      ensures Did(t, Act(t, sync)) && cl[t] == Dropped(old(cl[t])) && log == old(log)
      ensures NeverHeldUp(queue.pc[t])
    {
      hide Advance, Outcome, Runs, Turns, Channel.Init, Open, Begun, Register, Pop, Popped, Begin;
      ghost var c := View();
      queue, cl := Apply(queue, Unlock(t)), cl[t := Dropped(cl[t])];
      Took(t, Act(t, sync), c);
    }

    /** `notify_one`, or `notify_all` when the last sender or the receiver is dropped. */
    method Notify(t: Tid, sync: Sync)
      requires Valid() && t < |cl| && (cl[t].SendNotify? || cl[t].LastNotify?) && queue.pc[t].Out?
      modifies this
      ensures Did(t, Act(t, sync)) && NeverHeldUp(queue.pc[t])
      ensures cl[t] == if old(cl[t].LastNotify?) then LastReturn
                       else SendReturn(old(cl[t].m), old(cl[t].from), old(cl[t].at))
    {
      hide Advance, Outcome, Runs, Turns, Channel.Init, Open, Begun;
      ghost var c := View();
      var x := cl[t];
      queue := Apply(queue, Step.Notify(t, x.LastNotify?));
      cl := cl[t := if x.LastNotify? then LastReturn else SendReturn(x.m, x.from, x.at)];
      Took(t, Act(t, sync), c);
    }

    /** `Ok(())`. */
    method ReturnOk(t: Tid, sync: Sync)
      requires Valid() && t < |cl| && cl[t].SendReturn? && queue.pc[t].Out?
      modifies this
      ensures Did(t, Act(t, sync)) && cl[t] == Idle
      ensures log.done == old(log.done) + [old(cl[t].at)] && log.pushed == old(log.pushed)
    {
      hide Apply, Outcome, Runs, Turns, Channel.Init, Open, Begun;
      ghost var c := View();
      cl, log := cl[t := Idle], log.(done := log.done + [cl[t].at]);
      Took(t, Act(t, sync), c);
    }

    /** `Err(SendError(t))` after the second load. */
    method ReturnErr(t: Tid, sync: Sync)
      requires Valid() && t < |cl| && cl[t].RejectReturn? && queue.pc[t].Out?
      modifies this
      ensures Did(t, Act(t, sync)) && cl[t] == Idle && log.rejected == old(log.rejected) + [old(cl[t].m)]
    {
      hide Apply, Outcome, Runs, Turns, Channel.Init, Open, Begun;
      ghost var c := View();
      cl, log := cl[t := Idle], log.(rejected := log.rejected + [cl[t].m]);
      Took(t, Act(t, sync), c);
    }

    /** The actions inside the monitor call that thread `t` is in, until it returns. It does not return only if the
        schedule has ended and the call is held up. `wakes` bounds the wake-ups that the thread has without the
        others. */
    method Finish(t: Tid, ghost wakes: int) returns (returned: bool)
      requires Valid() && t < |cl|
      modifies this
      ensures Went(t, [], []) && cl[t] == old(cl[t])
      ensures if returned then Ready(queue.pc[t]) else schedule == [] && HeldUp(queue, t)
      ensures returned && !old(Ready(queue.pc[t])) && old(schedule) != [] ==> |schedule| < old(|schedule|)
      ensures old(NeverHeldUp(queue.pc[t])) ==> returned
      ensures old(schedule) == [] && old(Spent(queue, t, wakes)) ==> Spent(queue, t, wakes)
      ensures old(schedule) == [] ==> schedule == [] && log == old(log)
    {
      hide Next, Can, ChanInv, Channel.Init, Undisturbed, Begun, Shared.Valid, Shared.View, HeldUp, Stage, Rest;
      hide Spent, NeverHeldUp;
      while !Ready(queue.pc[t]) && (schedule != [] || !HeldUp(queue, t))
        invariant Went(t, [], []) && cl[t] == old(cl[t])
        invariant queue.pc[t] == old(queue.pc[t]) || old(schedule) == [] || |schedule| < old(|schedule|)
        invariant old(NeverHeldUp(queue.pc[t])) ==> NeverHeldUp(queue.pc[t])
        invariant old(schedule) == [] && old(Spent(queue, t, wakes)) ==> Spent(queue, t, wakes)
        invariant old(schedule) == [] ==> schedule == [] && log == old(log)
        decreases |schedule|, Stage(queue, t), Rest(queue.pc[t])
      {
        if schedule == [] {
          GoOn(t, wakes);
        } else {
          FinishBeat(t, wakes);
        }
      }
      if NeverHeldUp(queue.pc[t]) { NotHeldUp(queue, t); }
      return Ready(queue.pc[t]);
    }

    /** The next of them. */
    method GoOn(t: Tid, ghost wakes: int)
      requires Valid() && t < |cl| && !Ready(queue.pc[t]) && !HeldUp(queue, t)
      modifies this
      ensures Did(t, Inner(Go(t))) && cl == old(cl) && log == old(log)
      ensures Nearer(old(queue), queue, t)
      ensures old(NeverHeldUp(queue.pc[t])) ==> NeverHeldUp(queue.pc[t])
      ensures old(Spent(queue, t, wakes)) ==> Spent(queue, t, wakes)
    {
      hide Next, Can, ChanInv, Channel.Init, Undisturbed, Begun, Shared.Valid, Shared.View, HeldUp, Stage, Rest;
      hide Advance, Spent, TaskInv, Turns;
      Tasks();
      NextIsUnsent(queue);
      GoesNearer(queue, t);
      if NeverHeldUp(queue.pc[t]) { StaysFree(queue, t); }
      if Spent(queue, t, wakes) { SpentGo(queue, t, wakes); }
      Inside(t, Go(t));
    }

    /** The next of them, if it can be taken, and a beat of the others. */
    method FinishBeat(t: Tid, ghost wakes: int)
      requires Valid() && t < |cl| && schedule != [] && !Ready(queue.pc[t])
      modifies this
      ensures Went(t, [], []) && cl[t] == old(cl[t]) && |schedule| < old(|schedule|)
      ensures old(NeverHeldUp(queue.pc[t])) ==> NeverHeldUp(queue.pc[t])
    {
      hide Next, Can, ChanInv, Channel.Init, Undisturbed, Begun, Shared.Valid, Shared.View, HeldUp, Spent;
      hide Nearer, Turns, Apply, NeverHeldUp, CanReturn;
      if !HeldUp(queue, t) { GoOn(t, wakes); }
      var spurious := NextBeat(t);
      NotParked(queue.pc[t]);
      if spurious && CanReturn(queue.pc[t]) { Inside(t, Spurious(t)); }
    }

    /** Thread `t` made the operations `made`, and received `got` if it owns the receiver. */
    twostate predicate Went(t: Tid, new made: seq<Op<M>>, new got: seq<M>)
      reads this
    {
      && old(Valid()) && Valid() && t < |cl| == old(|cl|)
      && old(log.pushed) <= log.pushed && old(log.received) <= log.received && (old(log.closed) ==> log.closed)
      && (old(!receiverActive) ==> !receiverActive)
      && old(trace) <= trace && Begun(trace, t) == old(Begun(trace, t)) + made
      && (old(receiver) == Some(t) && Op.DropReceiver(t) !in made
          ==> receiver == Some(t) && log.received == old(log.received) + got)
      && |schedule| <= old(|schedule|)
    }

    /** One action inside a monitor call. */
    method Inside(t: Tid, e: Step<seq<M>>)
      requires Valid() && t < |cl| && Enabled(queue, e) && (e == Go(t) || e == Spurious(t))
      modifies this
      ensures Did(t, Inner(e)) && cl == old(cl) && log == old(log) && queue == Apply(old(queue), e)
    {
      hide Apply, Outcome, Runs, Turns, Channel.Init, Open, Turn, Begun;
      ghost var c := View();
      queue := Apply(queue, e);
      Took(t, Inner(e), c);
    }

    /** A receive begins with its acquisition. */
    method BeginRecv(t: Tid, k: Kind)
      requires Valid() && t < |cl| && cl[t].Idle? && receiver == Some(t) && queue.pc[t].Out?
      modifies this
      ensures Did(t, Recv(t, k)) && cl[t] == RecvLock(k) && !Ready(queue.pc[t]) && log == old(log)
      ensures k.Trying? ==> queue.pc[t] == TryLock
    {
      hide Advance, Outcome, Runs, Turns, Channel.Init, Turn, Begun, Register, Pop, Popped;
      ghost var c := View();
      queue := Apply(queue, if k.Trying? then Try(t) else Lock(t, k.how, k.dl));
      cl := cl[t := RecvLock(k)];
      Took(t, Recv(t, k), c);
    }

    /** The acquisition failed: it was tried once, or it timed out. */
    method GiveUp(t: Tid, sync: Sync)
      requires Valid() && t < |cl| && cl[t].RecvLock? && queue.pc[t].Out?
      modifies this
      ensures Did(t, Act(t, sync)) && cl[t] == Idle && log == old(log)
    {
      hide Apply, Outcome, Runs, Turns, Channel.Init, Open, Begun;
      ghost var c := View();
      cl := cl[t := Idle];
      Took(t, Act(t, sync), c);
    }

    /** `pop_front`. */
    method PopFront(t: Tid, sync: Sync) returns (m: Option<M>)
      requires Valid() && t < |cl| && queue.pc[t].In?
      requires cl[t].RecvLock? || (cl[t].RecvWaiting? && queue.pc[t].reply != Waited(true))
      modifies this
      ensures Did(t, Act(t, sync)) && (m.None? <==> old(queue.lock.value) == [])
      ensures m.Some? ==> cl[t] == RecvUnlock(Got(m.value)) && log.received == old(log.received) + [m.value]
      ensures m.None? ==> cl[t] == RecvCount(old(cl[t].k)) && log == old(log) && queue == old(queue)
      ensures log.pushed == old(log.pushed)
    {
      hide Next, Can, Channel.Init, Undisturbed, Begun, Shared.Valid, Shared.View;
      if queue.lock.value == [] {
        FindEmpty(t, sync);
        return None;
      }
      var first := TakeFirst(t, sync);
      return Some(first);
    }

    method FindEmpty(t: Tid, sync: Sync)
      requires Valid() && t < |cl| && queue.pc[t].In? && queue.lock.value == []
      requires cl[t].RecvLock? || (cl[t].RecvWaiting? && queue.pc[t].reply != Waited(true))
      modifies this
      ensures Did(t, Act(t, sync)) && cl[t] == RecvCount(old(cl[t].k)) && log == old(log) && queue == old(queue)
    {
      hide Apply, Outcome, Runs, Turns, Channel.Init, Open, Begun;
      ghost var c := View();
      cl := cl[t := RecvCount(cl[t].k)];
      Took(t, Act(t, sync), c);
    }

    method TakeFirst(t: Tid, sync: Sync) returns (m: M)
      requires Valid() && t < |cl| && queue.pc[t].In? && queue.lock.value != []
      requires cl[t].RecvLock? || (cl[t].RecvWaiting? && queue.pc[t].reply != Waited(true))
      modifies this
      ensures Did(t, Act(t, sync))
      ensures cl[t] == RecvUnlock(Got(m)) && log.received == old(log.received) + [m] && log.pushed == old(log.pushed)
    {
      hide Apply, Outcome, Runs, Turns, Channel.Init, Open, Begun;
      ghost var c := View();
      m := queue.lock.value[0];
      queue, cl := Apply(queue, Store(t, queue.lock.value[1..])), cl[t := RecvUnlock(Got(m))];
      log := log.(received := log.received + [m]);
      Took(t, Act(t, sync), c);
    }

    /** The load of `sender_count`. */
    method CountSenders(t: Tid, sync: Sync) returns (gone: bool)
      requires Valid() && t < |cl| && cl[t].RecvCount? && queue.pc[t].In?
      modifies this
      ensures Did(t, Act(t, sync)) && gone == (senderCount == 0) && (gone ==> log.closed) && queue == old(queue)
      ensures log.pushed == old(log.pushed)
      ensures cl[t] == if gone then RecvUnlock(Disconnected)
                       else if old(cl[t].k.Trying?) then RecvUnlock(Empty) else RecvWait(old(cl[t].k))
    {
      hide Apply, Outcome, Runs, Turns, Channel.Init, Open, Begun;
      ghost var c := View();
      var k := cl[t].k;
      gone := senderCount == 0;
      if gone {
        cl, log := cl[t := RecvUnlock(Disconnected)], log.(closed := true);
      } else {
        cl := cl[t := if k.Trying? then RecvUnlock(Empty) else RecvWait(k)];
      }
      Took(t, Act(t, sync), c);
    }

    /** `wait_spin`, `wait_block` or `wait_async`, or its timed form, begins. */
    method WaitOn(t: Tid, sync: Sync)
      requires Valid() && t < |cl| && cl[t].RecvWait? && cl[t].k.By? && queue.pc[t].In?
      modifies this
      ensures Did(t, Act(t, sync)) && cl[t] == RecvWaiting(old(cl[t].k)) && log == old(log)
      ensures Spent(queue, t, old(Wakes(queue, t))) && !Ready(queue.pc[t])
    {
      hide Advance, Outcome, Runs, Turns, Channel.Init, Open, Begun, Register, Spent, Wakes, Inv, TaskInv;
      ghost var c := View();
      var k := cl[t].k;
      Sound();
      Tasks();
      NewIsUnsignalled(queue);
      WfStep(queue, Wait(t, WaitRequest(k, sync)));
      Registers(queue, WaitRequest(k, sync), t);
      Begins(queue, t, WaitRequest(k, sync));
      queue, cl := Apply(queue, Wait(t, WaitRequest(k, sync))), cl[t := RecvWaiting(k)];
      Took(t, Act(t, sync), c);
    }

    /** The wait timed out. */
    method WaitTimedOut(t: Tid, sync: Sync)
      requires Valid() && t < |cl| && cl[t].RecvWaiting? && queue.pc[t].In? && queue.pc[t].reply == Waited(true)
      modifies this
      ensures Did(t, Act(t, sync)) && cl[t] == RecvUnlock(TimedOut) && log == old(log)
    {
      hide Apply, Outcome, Runs, Turns, Channel.Init, Open, Begun;
      ghost var c := View();
      cl := cl[t := RecvUnlock(TimedOut)];
      Took(t, Act(t, sync), c);
    }

    /** The receive returns. */
    method ReturnRecv(t: Tid, sync: Sync)
      requires Valid() && t < |cl| && cl[t].RecvReturn? && queue.pc[t].Out?
      modifies this
      ensures Did(t, Act(t, sync)) && cl[t] == Idle && log == old(log)
    {
      hide Apply, Outcome, Runs, Turns, Channel.Init, Open, Begun;
      ghost var c := View();
      cl := cl[t := Idle];
      Took(t, Act(t, sync), c);
    }

    /** `Clone`: `fetch_add`. */
    method CloneSender(t: Tid)
      requires Valid() && t < |cl| && cl[t].Idle? && handles[t] > 0
      modifies this
      ensures Did(t, Clone(t)) && senderCount == old(senderCount) + 1
    {
      hide Apply, Outcome, Runs, Turns, Channel.Init, Turn, Begun;
      ghost var c := View();
      senderCount, handles := senderCount + 1, handles[t := handles[t] + 1];
      Took(t, Clone(t), c);
    }

    /** `Drop` of a `Sender`: `fetch_sub`, which tells the last one that it is. */
    method SubtractSender(t: Tid) returns (oldCount: int)
      requires Valid() && t < |cl| && cl[t].Idle? && handles[t] > 0
      modifies this
      ensures Did(t, Op.DropSender(t)) && oldCount == old(senderCount) && senderCount == oldCount - 1
      ensures cl[t] == if oldCount == 1 then LastNotify else Idle
    {
      hide Apply, Outcome, Runs, Turns, Channel.Init, Turn, Begun;
      ghost var c := View();
      oldCount := senderCount;
      senderCount, handles := senderCount - 1, handles[t := handles[t] - 1];
      if oldCount == 1 {
        cl, log := cl[t := LastNotify], log.(lastDrops := log.lastDrops + 1);
      }
      Took(t, Op.DropSender(t), c);
    }

    /** `Drop` of the `Receiver`: the store. */
    method Deactivate(t: Tid)
      requires Valid() && t < |cl| && cl[t].Idle? && receiver == Some(t)
      modifies this
      ensures Did(t, Op.DropReceiver(t)) && !receiverActive && cl[t] == LastNotify
    {
      hide Apply, Outcome, Runs, Turns, Channel.Init, Turn, Begun;
      ghost var c := View();
      receiver, receiverActive, cl := None, false, cl[t := LastNotify];
      Took(t, Op.DropReceiver(t), c);
    }

    /** The drop returns. */
    method ReturnLast(t: Tid, sync: Sync)
      requires Valid() && t < |cl| && cl[t].LastReturn? && queue.pc[t].Out?
      modifies this
      ensures Did(t, Act(t, sync)) && cl[t] == Idle
    {
      hide Apply, Outcome, Runs, Turns, Channel.Init, Open, Begun;
      ghost var c := View();
      cl := cl[t := Idle];
      Took(t, Act(t, sync), c);
    }

    /** Where a receiving thread's guard is. */
    lemma Receives(t: Tid)
      requires Valid() && t < |cl|
      ensures cl[t].RecvLock? && Ready(queue.pc[t])
              ==> queue.pc[t].In? || (queue.pc[t].Out? && (cl[t].k.Trying? || cl[t].k.dl.Some?))
      ensures cl[t].RecvCount? || cl[t].RecvWait? || cl[t].RecvUnlock? ==> queue.pc[t].In?
      ensures cl[t].RecvWaiting? && Ready(queue.pc[t])
              ==> queue.pc[t].In? && (queue.pc[t].reply == Waited(true) ==> cl[t].k.By? && cl[t].k.dl.Some?)
      ensures cl[t].RecvWait? || cl[t].RecvWaiting? ==> cl[t].k.By?
      ensures cl[t].RecvReturn? && Ready(queue.pc[t]) ==> queue.pc[t].Out?
      ensures cl[t].Idle? ==> queue.pc[t].Out?
    {
      hide Inv;
      Sound();
      assert ClientInv(View(), t);
    }

    lemma Safe()
      requires Valid()
      ensures Inv(queue)
    {
      Sound();
    }

    /** Nothing is received that was not pushed. */
    lemma Accounted()
      requires Valid()
      ensures |log.received| <= |log.pushed|
    {
      hide Inv;
      Sound();
    }

    /** What `log.closed` records. */
    lemma Closed()
      requires Valid() && log.closed
      ensures senderCount == 0 && log.pushed == log.received
    {
      hide Inv;
      Sound();
    }

    /** Back from the acquisition: the thread owns the guard. */
    lemma Acquired(t: Tid)
      requires Valid() && t < |cl| && cl[t].SendLock? && Ready(queue.pc[t])
      ensures queue.pc[t].In?
    {
      Sound();
      assert ClientInv(View(), t);
    }

    /** The thread owns the guard before the queue is pushed to or dropped, and not after. */
    lemma Placed(t: Tid)
      requires Valid() && t < |cl|
      ensures cl[t].SendPush? || cl[t].SendUnlock? || cl[t].RejectUnlock? || cl[t].RecvUnlock? ==> queue.pc[t].In?
      ensures cl[t].SendCheck? || cl[t].LastNotify? ==> queue.pc[t].Out?
      ensures cl[t].SendNotify? || cl[t].RejectReturn? || cl[t].SendReturn? || cl[t].RecvReturn? || cl[t].LastReturn?
              ==> Ready(queue.pc[t]) ==> queue.pc[t].Out?
      ensures cl[t].SendUnlock? || cl[t].SendNotify? || cl[t].SendReturn?
              ==> cl[t].at < |log.pushed| && log.pushed[cl[t].at] == cl[t].m
    {
      hide Inv;
      Sound();
      assert ClientInv(View(), t);
    }
  }

  /** The operation is inside a monitor call that is held up, and the schedule has ended. */
  ghost predicate Suspended<M>(c: Shared<M>, t: Tid)
    reads c
  {
    c.schedule == [] && t < |c.queue.pc| && Wf(c.queue) && HeldUp(c.queue, t)
  }

  /** The place of thread `t` at its latest own action. */
  ghost function Latest<M>(c: Shared<M>, t: Tid): Client<M>
    requires c.Valid()
    reads c
  {
    var turns := c.Turned(t);
    if turns != [] && t < |Last(turns).cl| then Last(turns).cl[t] else Idle
  }

  /** The action that returns `Ok(())`, the message having gone to place `at`. */
  ghost predicate ReturnsOk<M>(x: Client<M>, m: M, at: nat) { x.SendReturn? && x.m == m && x.at == at }

  /** The action that returns `Err(SendError(m))`. */
  ghost predicate HandsBack<M>(x: Client<M>, m: M) { (x.RejectReturn? || x.SendCheck?) && x.m == m }

  /** `send_spin`, `send_block` and `send_async`, by the locking strategy. A send that returns `Ok` has
      pushed its value at a place of its own after everything pushed before it began. One that returns
      `SendError` hands back its value, and the receiver is gone. One that is pending cannot get the queue. */
  method SendBy<M>(c: Shared<M>, t: Tid, m: M, how: How, sync: Sync) returns (r: SendResult<M>, ghost at: nat)
    requires c.Valid() && t < |c.cl| && c.cl[t].Idle? && c.handles[t] > 0
    modifies c
    ensures c.Went(t, [Send(t, m, how)], [])
    ensures r.Sent? ==> c.cl[t].Idle? && at in c.log.done && old(|c.log.pushed|) <= at < |c.log.pushed|
                        && c.log.pushed[at] == m && ReturnsOk(Latest(c, t), m, at)
    ensures r.SendError? ==> c.cl[t].Idle? && r.m == m && c.log.rejected != [] && Last(c.log.rejected) == m
                             && !c.receiverActive && HandsBack(Latest(c, t), m)
    ensures r.SendPending? ==> t < |c.cl| && c.cl[t].SendLock? && c.cl[t].m == m && Suspended(c, t)
    ensures old(!c.receiverActive) ==> r.SendError?
  {
    hide Next, Can, ChanInv, Channel.Init, Undisturbed, Begun, Shared.Valid, Shared.View;
    hide Turns, NeverHeldUp, HeldUp, Wakes, Apply;
    at := 0;
    c.BeginSend(t, m, how);
    c.Others(t);
    c.Placed(t);
    var active := c.CheckActive(t, sync);
    if !active { return SendError(m), at; }
    r, at := LockAndSend(c, t, sync);
  }

  method LockAndSend<M>(c: Shared<M>, t: Tid, sync: Sync) returns (r: SendResult<M>, ghost at: nat)
    requires c.Valid() && t < |c.cl| && c.cl[t].SendLock?
    modifies c
    ensures c.Went(t, [], [])
    ensures r.Sent? ==> c.cl[t].Idle? && at in c.log.done && old(|c.log.pushed|) <= at < |c.log.pushed|
                        && c.log.pushed[at] == old(c.cl[t].m) && ReturnsOk(Latest(c, t), old(c.cl[t].m), at)
    ensures r.SendError? ==> c.cl[t].Idle? && r.m == old(c.cl[t].m) && c.log.rejected != []
                             && Last(c.log.rejected) == r.m && !c.receiverActive && HandsBack(Latest(c, t), r.m)
    ensures r.SendPending? ==> t < |c.cl| && c.cl[t] == old(c.cl[t]) && Suspended(c, t)
  {
    hide Next, Can, ChanInv, Channel.Init, Undisturbed, Begun, Shared.Valid, Shared.View;
    hide Turns, NeverHeldUp, HeldUp, Wakes, Apply;
    at := 0;
    var locked := c.Finish(t, 0);
    if !locked { return SendPending, at; }
    c.Acquired(t);
    var active := c.CheckActiveAgain(t, sync);
    if active {
      at := PushAndNotify(c, t, sync);
      r := Sent;
    } else {
      var m := Reject(c, t, sync);
      r := SendError(m);
    }
  }

  method Reject<M>(c: Shared<M>, t: Tid, sync: Sync) returns (m: M)
    requires c.Valid() && t < |c.cl| && c.cl[t].RejectUnlock? && !c.receiverActive
    modifies c
    ensures c.Went(t, [], [])
    ensures c.cl[t].Idle? && m == old(c.cl[t].m) && c.log.rejected != [] && Last(c.log.rejected) == m
    ensures !c.receiverActive && HandsBack(Latest(c, t), m)
  {
    hide Next, Can, ChanInv, Channel.Init, Undisturbed, Begun, Shared.Valid, Shared.View;
    hide Turns, NeverHeldUp, HeldUp, Wakes, Apply;
    m := c.cl[t].m;
    DropAndFinish(c, t, sync);
    c.ReturnErr(t, sync);
  }

  /** The guard goes out of scope, and its drop runs. */
  method DropAndFinish<M>(c: Shared<M>, t: Tid, sync: Sync)
    requires c.Valid() && t < |c.cl| && (c.cl[t].SendUnlock? || c.cl[t].RejectUnlock? || c.cl[t].RecvUnlock?)
    modifies c
    ensures c.Went(t, [], []) && c.cl[t] == Dropped(old(c.cl[t])) && c.queue.pc[t].Out?
    ensures old(c.schedule) == [] ==> c.schedule == [] && c.log.pushed == old(c.log.pushed)
  {
    hide Next, Can, ChanInv, Channel.Init, Undisturbed, Begun, Shared.Valid, Shared.View;
    hide Turns, NeverHeldUp, HeldUp, Wakes, Apply;
    c.Others(t);
    c.Placed(t);
    c.DropQueue(t, sync);
    var _ := c.Finish(t, 0);
    c.Placed(t);
  }

  method PushAndNotify<M>(c: Shared<M>, t: Tid, sync: Sync) returns (ghost at: nat)
    requires c.Valid() && t < |c.cl| && c.cl[t].SendPush?
    modifies c
    ensures c.Went(t, [], [])
    ensures c.cl[t].Idle? && at in c.log.done && old(|c.log.pushed|) <= at < |c.log.pushed|
    ensures c.log.pushed[at] == old(c.cl[t].m) && ReturnsOk(Latest(c, t), old(c.cl[t].m), at)
  {
    hide Next, Can, ChanInv, Channel.Init, Undisturbed, Begun, Shared.Valid, Shared.View;
    hide Turns, NeverHeldUp, HeldUp, Wakes, Apply;
    ghost var m := c.cl[t].m;
    c.Others(t);
    c.Placed(t);
    at := |c.log.pushed|;
    c.PushBack(t, sync);
    DropAndFinish(c, t, sync);
    Tell(c, t, sync, m, at);
  }

  /** `notify_one()` and `Ok(())`. */
  method Tell<M>(c: Shared<M>, t: Tid, sync: Sync, ghost m: M, ghost at: nat)
    requires c.Valid() && t < |c.cl| && c.cl[t].SendNotify? && c.cl[t].m == m && c.cl[t].at == at && c.queue.pc[t].Out?
    modifies c
    ensures c.Went(t, [], [])
    ensures c.cl[t].Idle? && at in c.log.done && at < |c.log.pushed| && c.log.pushed[at] == m
    ensures ReturnsOk(Latest(c, t), m, at)
  {
    hide Next, Can, ChanInv, Channel.Init, Undisturbed, Begun, Shared.Valid, Shared.View;
    hide Turns, NeverHeldUp, HeldUp, Wakes, Apply;
    c.Placed(t);
    c.Notify(t, sync);
    var _ := c.Finish(t, 0);
    c.Placed(t);
    c.ReturnOk(t, sync);
    assert Last(c.log.done) == at;
  }

  // ------------------------------------------------------------ receives

  /** The messages a result stands for. */
  function Taken<M>(r: Result<M>): seq<M> { if r.Got? then [r.m] else [] }

  /** What a receive has added to what was received. */
  function Gained<M>(r: RecvResult<M>): seq<M> { if r.Done? then Taken(r.r) else [] }

  /** How a receive of kind `k` leaves its thread. With its answer it has returned, by its latest own action, and if it
      is disconnected all ever pushed has been received. A pending one is held up in its acquisition or in its wait. */
  ghost predicate Settled<M>(c: Shared<M>, t: Tid, k: Kind, r: RecvResult<M>)
    requires c.Valid()
    reads c
  {
    && t < |c.cl|
    && match r
       case Done(result) =>
         && c.cl[t].Idle? && c.Turned(t) != [] && ReplyAt(Last(c.Turned(t)), t, k) == Some(result)
         && (result.Disconnected? ==> c.log.closed && c.senderCount == 0 && c.log.pushed == c.log.received)
       case RecvPending => k.By? && (c.cl[t] == RecvLock(k) || c.cl[t] == RecvWaiting(k)) && Suspended(c, t)
  }

  /** The run records, at index `at`, that `try_lock` of thread `t` met a lock that another thread held. */
  ghost predicate TryRefused<M>(c: Shared<M>, t: Tid, at: nat)
    reads c
  {
    && at < |c.trace| && c.trace[at] == Inner(Go(t))
    && c.first < c.n && Runs(Channel.Init<M>(c.n, c.first), c.trace[..at])
    && var x := Outcome(Channel.Init<M>(c.n, c.first), c.trace[..at]);
       t < |x.mon.pc| && x.mon.pc[t].TryLock? && HeldByAnother(x.mon, t)
  }

  /** `try_recv`, and `recv_spin`, `recv_block`, `recv_async` with their timed forms: a receive that returns
      a message has added just that message to what was received, and any other has added none. Its answer is what its
      own actions, taken in the states `turns`, have shown. */
  method ReceiveBy<M>(c: Shared<M>, t: Tid, k: Kind, sync: Sync) returns (r: RecvResult<M>, ghost turns: seq<Chan<M>>)
    requires c.Valid() && t < |c.cl| && c.cl[t].Idle? && c.receiver == Some(t)
    modifies c
    ensures c.Went(t, [Recv(t, k)], Gained(r)) && Settled(c, t, k, r)
    ensures c.Turned(t) == old(c.Turned(t)) + turns
    ensures r.Done? ==> Answers(turns, t, k, r.r)
    ensures r == Done(Empty) ==> (exists i :: 0 <= i < |turns| && FindsEmpty(turns[i], t, k))
                                 || exists at :: old(|c.trace|) <= at && TryRefused(c, t, at)
    ensures k.Trying? ==> r.Done?
    ensures r.Done? && old(c.schedule) != [] ==> |c.schedule| < old(|c.schedule|)
    ensures old(c.schedule) == [] ==> c.schedule == [] && c.log.pushed == old(c.log.pushed)
  {
    hide Next, Can, ChanInv, Channel.Init, Undisturbed, Begun, Shared.Valid, Shared.View, Turns, Answers, TryRefused;
    c.Receives(t);
    c.BeginRecv(t, k);
    label begun:
    r := Receive(c, t, k, sync);
    Finds@begun(c, t, k);
    turns := c.Turned(t)[|old@begun(c.Turned(t))|..];
    if r.Done? { AnswersFit(turns, t, k, r.r); }
  }

  /** What a thread found since it began its receive. */
  twostate lemma Finds<M>(c: Shared<M>, new t: Tid, new k: Kind)
    requires old(c.Valid()) && c.Valid() && old(t < |c.cl| && c.cl[t] == RecvLock(k))
    requires old(c.trace) <= c.trace && Begun(c.trace, t) == old(Begun(c.trace, t))
    ensures t < |c.cl| && old(c.Turned(t)) <= c.Turned(t)
    ensures SoFar(c.Turned(t)[|old(c.Turned(t))|..], c.cl[t], t, k)
  {
    hide Next, Can, ChanInv, Channel.Init, SoFar, OnTime, Turns;
    var before, more := old(c.trace), c.trace[|old(c.trace)|..];
    var start, x := Channel.Init<M>(c.n, c.first), old(c.View());
    assert c.trace == before + more;
    RunsSplit(start, before, more);
    TurnsConcat(start, before, more, t);
    ChanInit<M>(c.n, c.first);
    ChanRun(start, before);
    OnTimeAtFirst<M>(c.n, c.first, t);
    OnTimeRun(start, before, t);
    BegunSame(before, c.trace, t);
    SoFarStart<M>(t, k);
    SoFarRun(x, more, t, [], k);
    assert [] + Turns(x, more, t) == Turns(x, more, t);
    assert c.Turned(t)[|old(c.Turned(t))|..] == Turns(x, more, t);
  }

  lemma SoFarStart<M>(t: Tid, k: Kind)
    ensures SoFar<M>([], RecvLock(k), t, k)
  {
  }

  lemma {:induction false} BegunSame<M>(ops: seq<Op<M>>, more: seq<Op<M>>, t: Tid)
    requires ops <= more && Begun(more, t) == Begun(ops, t)
    ensures forall i :: |ops| <= i < |more| ==> !Opens(more[i], t)
    decreases |more|
  {
    BegunGrows(ops, more, t);
    if |more| > |ops| {
      BegunGrows(ops, more[..|more| - 1], t);
      BegunSame(ops, more[..|more| - 1], t);
    }
  }

  lemma {:induction false} BegunGrows<M>(ops: seq<Op<M>>, more: seq<Op<M>>, t: Tid)
    requires ops <= more
    ensures |Begun(ops, t)| <= |Begun(more, t)|
    ensures |Begun(ops, t)| == |Begun(more, t)| ==> Begun(ops, t) == Begun(more, t)
    decreases |more|
  {
    if |more| > |ops| {
      BegunGrows(ops, more[..|more| - 1], t);
    } else {
      assert more == ops;
    }
  }

  /** The receive, once it has begun: the acquisition, and then the loop. */
  method Receive<M>(c: Shared<M>, t: Tid, k: Kind, sync: Sync) returns (r: RecvResult<M>)
    requires c.Valid() && t < |c.cl| && c.cl[t] == RecvLock(k) && c.receiver == Some(t)
    requires !Ready(c.queue.pc[t]) && (k.Trying? ==> c.queue.pc[t] == TryLock)
    modifies c
    ensures c.Went(t, [], Gained(r)) && Settled(c, t, k, r)
    ensures r == Done(Empty) && Latest(c, t).RecvLock? ==> exists at :: old(|c.trace|) <= at && TryRefused(c, t, at)
    ensures r.Done? && old(c.schedule) != [] ==> |c.schedule| < old(|c.schedule|)
    ensures old(c.schedule) == [] ==> c.schedule == [] && c.log.pushed == old(c.log.pushed)
  {
    hide Next, Can, ChanInv, Channel.Init, Undisturbed, Begun, Shared.Valid, Shared.View, Turns, TryRefused;
    hide NeverHeldUp, HeldUp, Wakes, Apply, ReplyAt, Shared.Turned;
    var returned := true;
    if k.Trying? {
      TryQueue(c, t);
    } else {
      returned := c.Finish(t, 0);
    }
    if !returned { return RecvPending; }
    c.Receives(t);
    if c.queue.pc[t].Out? {
      label refused:
      GiveUp(c, t, k, sync);
      if k.Trying? {
        ghost var at :| old(|c.trace|) <= at && old@refused(TryRefused(c, t, at));
        StaysRefused@refused(c, t, at);
      }
      return Done(if k.Trying? then Empty else TimedOut);
    }
    r := ReceiveLocked(c, t, k, sync);
  }

  /** The acquisition failed. */
  method GiveUp<M>(c: Shared<M>, t: Tid, k: Kind, sync: Sync)
    requires c.Valid() && t < |c.cl| && c.cl[t] == RecvLock(k) && c.queue.pc[t].Out?
    modifies c
    ensures c.Went(t, [], []) && Settled(c, t, k, Done(if k.Trying? then Empty else TimedOut))
    ensures c.schedule == old(c.schedule) && c.log == old(c.log)
  {
    hide Next, Can, ChanInv, Channel.Init, Undisturbed, Begun, Shared.Valid, Shared.View, Turns, HeldUp, Apply;
    c.GiveUp(t, sync);
  }

  twostate lemma StaysRefused<M>(c: Shared<M>, new t: Tid, new at: nat)
    requires old(TryRefused(c, t, at)) && old(c.trace) <= c.trace
    ensures TryRefused(c, t, at)
  {
    hide Runs, Outcome, Channel.Init;
    assert c.trace[..at] == old(c.trace)[..at];
  }

  /** `try_lock`. */
  method TryQueue<M>(c: Shared<M>, t: Tid)
    requires c.Valid() && t < |c.cl| && c.queue.pc[t] == TryLock
    modifies c
    ensures c.Went(t, [], []) && c.cl[t] == old(c.cl[t]) && Ready(c.queue.pc[t])
    ensures c.queue.pc[t].Out? ==> exists at :: old(|c.trace|) <= at && TryRefused(c, t, at)
    ensures old(c.schedule) != [] ==> |c.schedule| < old(|c.schedule|)
    ensures old(c.schedule) == [] ==> c.schedule == [] && c.log.pushed == old(c.log.pushed)
  {
    hide Next, Can, ChanInv, Channel.Init, Undisturbed, Begun, Shared.Valid, Shared.View, Inv;
    c.Others(t);
    ghost var run := c.trace;
    c.Safe();
    Tries(c.queue, t);
    Recorded(c);
    ghost var m := c.queue;
    c.Inside(t, Go(t));
    if c.queue.pc[t].Out? {
      assert c.trace[..|run|] == run && HeldByAnother(m, t);
      assert TryRefused(c, t, |run|);
    }
  }

  lemma Tries<T>(m: State<T>, t: Tid)
    requires Inv(m) && t < |m.pc| && m.pc[t] == TryLock
    ensures CanGo(m, t) && |Apply(m, Go(t)).pc| == |m.pc| && Ready(Apply(m, Go(t)).pc[t])
    ensures Apply(m, Go(t)).pc[t].Out? ==> HeldByAnother(m, t)
  {
    assert Exclusive(m);
  }

  lemma Recorded<M>(c: Shared<M>)
    requires c.Valid()
    ensures c.first < c.n && Runs(Channel.Init<M>(c.n, c.first), c.trace)
    ensures Outcome(Channel.Init<M>(c.n, c.first), c.trace).mon == c.queue
  {
  }

  /** The loop, under the lock. */
  method ReceiveLocked<M>(c: Shared<M>, t: Tid, k: Kind, sync: Sync) returns (r: RecvResult<M>)
    requires c.Valid() && t < |c.cl| && c.cl[t] == RecvLock(k) && c.queue.pc[t].In?
    modifies c
    ensures c.Went(t, [], Gained(r)) && Settled(c, t, k, r)
    ensures r.Done? && c.cl[t].Idle? ==> !Latest(c, t).RecvLock?
    ensures r.Done? && old(c.schedule) != [] ==> |c.schedule| < old(|c.schedule|)
    ensures old(c.schedule) == [] ==> c.schedule == [] && c.log.pushed == old(c.log.pushed)
  {
    hide Next, Can, ChanInv, Channel.Init, Undisturbed, Begun, Shared.Valid, Shared.View;
    hide Turns, NeverHeldUp, HeldUp, Wakes, Apply, Settled, ReplyAt, Shared.Turned;
    while true
      invariant c.Went(t, [], []) && c.queue.pc[t].In?
      invariant c.cl[t] == RecvLock(k) || (c.cl[t] == RecvWaiting(k) && c.queue.pc[t].reply != Waited(true))
      invariant old(c.schedule) == [] ==> c.schedule == [] && c.log.pushed == old(c.log.pushed)
      decreases |c.schedule|, Wakes(c.queue, t)
    {
      var m := PopAndLeave(c, t, k, sync);
      if m.Some? { return Done(m.value); }
      var round := CountAndWait(c, t, k, sync);
      if round.Some? { return round.value; }
    }
  }

  /** The queue's first message, if there is one, is the answer. */
  method PopAndLeave<M>(c: Shared<M>, t: Tid, k: Kind, sync: Sync) returns (r: Option<Result<M>>)
    requires c.Valid() && t < |c.cl| && c.queue.pc[t].In?
    requires c.cl[t] == RecvLock(k) || (c.cl[t] == RecvWaiting(k) && c.queue.pc[t].reply != Waited(true))
    modifies c
    ensures match r
            case Some(m) => c.Went(t, [], Taken(m)) && Settled(c, t, k, Done(m)) && Latest(c, t).RecvReturn?
            case None => c.Went(t, [], []) && c.cl[t] == RecvCount(k) && c.queue.pc[t].In?
    ensures old(c.schedule) != [] ==> |c.schedule| < old(|c.schedule|)
    ensures old(c.schedule) == [] && r.None? ==> c.queue == old(c.queue)
    ensures old(c.schedule) == [] ==> c.schedule == [] && c.log.pushed == old(c.log.pushed)
  {
    hide Next, Can, ChanInv, Channel.Init, Undisturbed, Begun, Shared.Valid, Shared.View;
    hide Turns, NeverHeldUp, HeldUp, Wakes, Apply, Settled, ReplyAt, Shared.Turned;
    hide Latest, Sized, Wf, Ready;
    c.Others(t);
    var m := c.PopFront(t, sync);
    if m.None? {
      c.Receives(t);
      return None;
    }
    Leave(c, t, k, Got(m.value), sync);
    return Some(Got(m.value));
  }

  /** The queue was empty: either the channel is disconnected, or the receive waits. No result means that
      the wait was notified. */
  method CountAndWait<M>(c: Shared<M>, t: Tid, k: Kind, sync: Sync) returns (r: Option<RecvResult<M>>)
    requires c.Valid() && t < |c.cl| && c.cl[t] == RecvCount(k)
    modifies c
    ensures match r
            case Some(a) =>
              && c.Went(t, [], Gained(a)) && Settled(c, t, k, a) && (a.Done? ==> Latest(c, t).RecvReturn?)
            case None =>
              c.Went(t, [], []) && c.cl[t] == RecvWaiting(k) && c.queue.pc[t].In? && c.queue.pc[t].reply != Waited(true)
    ensures old(c.schedule) == [] && r.None?
            ==> t < |c.queue.pc| && Wf(c.queue) && Wakes(c.queue, t) < old(Wakes(c.queue, t))
    ensures old(c.schedule) == [] ==> c.schedule == [] && c.log.pushed == old(c.log.pushed)
  {
    hide Next, Can, ChanInv, Channel.Init, Undisturbed, Begun, Shared.Valid, Shared.View;
    hide Turns, NeverHeldUp, HeldUp, Wakes, Apply, Settled, ReplyAt, Shared.Turned;
    var gone := LoadCount(c, t, k, sync);
    if gone || k.Trying? {
      var result := if gone then Disconnected else Empty;
      Leave(c, t, k, result, sync);
      return Some(Done(result));
    }
    r := WaitForMore(c, t, k, sync);
  }

  /** The load of the count. */
  method LoadCount<M>(c: Shared<M>, t: Tid, k: Kind, sync: Sync) returns (gone: bool)
    requires c.Valid() && t < |c.cl| && c.cl[t] == RecvCount(k)
    modifies c
    ensures c.Went(t, [], []) && (gone ==> c.log.closed)
    ensures c.cl[t] == if gone then RecvUnlock(Disconnected) else if k.Trying? then RecvUnlock(Empty) else RecvWait(k)
    ensures old(c.schedule) == [] ==> c.schedule == [] && c.log.pushed == old(c.log.pushed) && c.queue == old(c.queue)
  {
    hide Next, Can, ChanInv, Channel.Init, Undisturbed, Begun, Shared.Valid, Shared.View;
    hide Turns, NeverHeldUp, HeldUp, Wakes, Apply;
    c.Others(t);
    c.Receives(t);
    gone := c.CountSenders(t, sync);
  }

  method WaitForMore<M>(c: Shared<M>, t: Tid, k: Kind, sync: Sync) returns (r: Option<RecvResult<M>>)
    requires c.Valid() && t < |c.cl| && c.cl[t] == RecvWait(k) && k.By?
    modifies c
    ensures match r
            case Some(a) =>
              && c.Went(t, [], Gained(a)) && Settled(c, t, k, a) && (a.Done? ==> Latest(c, t).RecvReturn?)
            case None =>
              c.Went(t, [], []) && c.cl[t] == RecvWaiting(k) && c.queue.pc[t].In? && c.queue.pc[t].reply != Waited(true)
    ensures old(c.schedule) == [] && r.None?
            ==> t < |c.queue.pc| && Wf(c.queue) && Wakes(c.queue, t) < old(Wakes(c.queue, t))
    ensures old(c.schedule) == [] ==> c.schedule == [] && c.log.pushed == old(c.log.pushed)
  {
    hide Next, Can, ChanInv, Channel.Init, Undisturbed, Begun, Shared.Valid, Shared.View, Spent, HeldUp, Wakes;
    hide Turns, NeverHeldUp, Apply, ReplyAt, Shared.Turned;
    c.Receives(t);
    ghost var wakes := Wakes(c.queue, t);
    c.WaitOn(t, sync);
    var returned := c.Finish(t, wakes);
    if !returned { return Some(RecvPending); }
    c.Receives(t);
    if c.queue.pc[t].reply != Waited(true) {
      if old(c.schedule) == [] { SpentIn(c.queue, t, wakes); }
      return None;
    }
    LeaveLate(c, t, k, sync);
    return Some(Done(TimedOut));
  }

  /** The wait timed out. */
  method LeaveLate<M>(c: Shared<M>, t: Tid, k: Kind, sync: Sync)
    requires c.Valid() && t < |c.cl| && c.cl[t] == RecvWaiting(k) && c.queue.pc[t] == In(Waited(true))
    modifies c
    ensures c.Went(t, [], []) && Settled(c, t, k, Done(TimedOut)) && Latest(c, t) == RecvReturn(TimedOut)
    ensures old(c.schedule) == [] ==> c.schedule == [] && c.log.pushed == old(c.log.pushed)
  {
    hide Next, Can, ChanInv, Channel.Init, Undisturbed, Begun, Shared.Valid, Shared.View;
    hide Turns, NeverHeldUp, HeldUp, Wakes, Apply, Settled, ReplyAt, Shared.Turned;
    c.WaitTimedOut(t, sync);
    Leave(c, t, k, TimedOut, sync);
  }

  /** `return`: the guard goes out of scope. */
  method Leave<M>(c: Shared<M>, t: Tid, k: Kind, result: Result<M>, sync: Sync)
    requires c.Valid() && t < |c.cl| && c.cl[t] == RecvUnlock(result) && (result.Disconnected? ==> c.log.closed)
    modifies c
    ensures c.Went(t, [], []) && Settled(c, t, k, Done(result)) && Latest(c, t) == RecvReturn(result)
    ensures old(c.schedule) == [] ==> c.schedule == [] && c.log.pushed == old(c.log.pushed)
  {
    hide Next, Can, ChanInv, Channel.Init, Undisturbed, Begun, Shared.Valid, Shared.View;
    hide Turns, NeverHeldUp, HeldUp, Wakes, Apply;
    DropAndFinish(c, t, sync);
    c.ReturnRecv(t, sync);
    if result.Disconnected? { c.Closed(); }
  }

  /** `for m in rx`: `IntoIter::next` is `recv_sync().ok()`. An iteration that ends has yielded, in order,
      exactly what had not been received before it, up to the last message ever pushed.
      One that is pending is held up in a receive. */
  method Iterate<M>(c: Shared<M>, t: Tid, sync: Sync) returns (items: seq<M>, ended: bool)
    requires c.Valid() && t < |c.cl| && c.cl[t].Idle? && c.receiver == Some(t)
    modifies c
    ensures t < |c.cl| && c.receiver == Some(t) && c.log.received == old(c.log.received) + items
    ensures Begun(c.trace, t) == old(Begun(c.trace, t)) + Receives(t, IterKind(sync), |items| + 1)
    ensures if ended then c.cl[t].Idle? && c.log.pushed == c.log.received && c.log.closed && c.senderCount == 0
            else Receiving(c.cl[t]) && Suspended(c, t)
  {
    hide Next, Can, ChanInv, Channel.Init, Undisturbed, Begun, Shared.Valid, Shared.View, Answers, TryRefused;
    hide HeldUp;
    items := [];
    while true
      invariant c.Valid() && t < |c.cl| && c.cl[t].Idle? && c.receiver == Some(t)
      invariant c.log.received == old(c.log.received) + items
      invariant Begun(c.trace, t) == old(Begun(c.trace, t)) + Receives(t, IterKind(sync), |items|)
      decreases |c.schedule|, |c.log.pushed| - |c.log.received|
    {
      c.Accounted();
      ghost var turns;
      var r;
      r, turns := ReceiveBy(c, t, IterKind(sync), sync);
      if r.Done? { AnswersFit(turns, t, IterKind(sync), r.r); }
      c.Accounted();
      match r
      case RecvPending => return items, false;
      case Done(Got(m)) => items := items + [m];
      case Done(_) => return items, true;
    }
  }

  function Receives<M>(t: Tid, k: Kind, n: nat): seq<Op<M>> {
    if n == 0 then [] else Receives(t, k, n - 1) + [Recv(t, k)]
  }

  /** `recv_sync`. */
  function IterKind(sync: Sync): Kind { By(if sync.SyncSpin? then Spinning else Blocking, None) }

  // ------------------------------------------------------------ drops

  /** The run records, at index `at`, that thread `t` called `notify_all`. */
  ghost predicate Told<M>(c: Shared<M>, t: Tid, sync: Sync, at: nat)
    reads c
  {
    && at < |c.trace| && c.trace[at] == Act(t, sync)
    && c.first < c.n && Runs(Channel.Init<M>(c.n, c.first), c.trace[..at])
    && var before := Outcome(Channel.Init<M>(c.n, c.first), c.trace[..at]);
       && t < |before.cl| && before.cl[t].LastNotify? && before.mon.pc[t].Out?
       && Call(before, t, sync) == Some(Step.Notify(t, true))
  }

  /** `Drop` of a `Sender`. Whoever finds itself the last tells the receivers. */
  method DropSender<M>(c: Shared<M>, t: Tid, sync: Sync) returns (ghost last: bool)
    requires c.Valid() && t < |c.cl| && c.cl[t].Idle? && c.handles[t] > 0
    modifies c
    ensures c.Went(t, [Op.DropSender(t)], []) && last == (old(c.senderCount) == 1)
    ensures t < |c.cl| && c.cl[t].Idle?
    ensures last ==> exists at :: old(|c.trace|) <= at && Told(c, t, sync, at)
    ensures !last ==> c.trace == old(c.trace) + [Op.DropSender(t)]
  {
    hide Next, Can, ChanInv, Channel.Init, Undisturbed, Begun, Shared.Valid, Shared.View;
    var oldCount := c.SubtractSender(t);
    last := oldCount == 1;
    if oldCount == 1 { TellAll(c, t, sync); }
  }

  /** `Drop` of the `Receiver`. From its store on, every send that begins hands its value back. */
  method DropReceiver<M>(c: Shared<M>, t: Tid, sync: Sync)
    requires c.Valid() && t < |c.cl| && c.cl[t].Idle? && c.receiver == Some(t)
    modifies c
    ensures c.Went(t, [Op.DropReceiver(t)], []) && !c.receiverActive
    ensures t < |c.cl| && c.cl[t].Idle?
    ensures exists at :: old(|c.trace|) <= at && Told(c, t, sync, at)
  {
    hide Next, Can, ChanInv, Channel.Init, Undisturbed, Begun, Shared.Valid, Shared.View;
    c.Deactivate(t);
    TellAll(c, t, sync);
  }

  /** `notify_all()`. */
  method TellAll<M>(c: Shared<M>, t: Tid, sync: Sync)
    requires c.Valid() && t < |c.cl| && c.cl[t].LastNotify?
    modifies c
    ensures c.Went(t, [], [])
    ensures t < |c.cl| && c.cl[t].Idle?
    ensures exists at :: old(|c.trace|) <= at && Told(c, t, sync, at)
  {
    hide Next, Can, ChanInv, Channel.Init, Undisturbed, Begun, Told, Shared.Valid, Shared.View;
    ghost var at := CallNotifyAll(c, t, sync);
    FinishTelling(c, t, sync, at);
  }

  method CallNotifyAll<M>(c: Shared<M>, t: Tid, sync: Sync) returns (ghost at: nat)
    requires c.Valid() && t < |c.cl| && c.cl[t].LastNotify?
    modifies c
    ensures c.Went(t, [], []) && c.cl[t].LastReturn? && old(|c.trace|) <= at && Told(c, t, sync, at)
    ensures NeverHeldUp(c.queue.pc[t])
  {
    hide Next, Can, ChanInv, Channel.Init, Undisturbed, Begun, Shared.Valid, Shared.View;
    c.Others(t);
    c.Placed(t);
    at := |c.trace|;
    ghost var run := c.trace;
    RecordsCall(c, t, sync);
    c.Notify(t, sync);
    assert c.trace[..at] == run;
  }

  method FinishTelling<M>(c: Shared<M>, t: Tid, sync: Sync, ghost at: nat)
    requires c.Valid() && t < |c.cl| && c.cl[t].LastReturn? && NeverHeldUp(c.queue.pc[t]) && Told(c, t, sync, at)
    modifies c
    ensures c.Went(t, [], []) && Told(c, t, sync, at)
    ensures t < |c.cl| && c.cl[t].Idle?
  {
    hide Next, Can, ChanInv, Channel.Init, Undisturbed, Begun, Told, Shared.Valid, Shared.View;
    var _ := c.Finish(t, 0);
    c.Placed(t);
    c.ReturnLast(t, sync);
    StaysTold(c, t, sync, at);
  }

  twostate lemma StaysTold<M>(c: Shared<M>, new t: Tid, new sync: Sync, new at: nat)
    requires old(Told(c, t, sync, at)) && old(c.trace) <= c.trace
    ensures Told(c, t, sync, at)
  {
    hide Runs, Outcome, Channel.Init;
    assert c.trace[..at] == old(c.trace)[..at];
  }

  lemma RecordsCall<M>(c: Shared<M>, t: Tid, sync: Sync)
    requires c.Valid() && t < |c.cl| && c.cl[t].LastNotify? && c.queue.pc[t].Out?
    ensures c.first < c.n && Runs(Channel.Init<M>(c.n, c.first), c.trace)
    ensures var before := Outcome(Channel.Init<M>(c.n, c.first), c.trace);
            && t < |before.cl| && before.cl[t].LastNotify? && before.mon.pc[t].Out?
            && Call(before, t, sync) == Some(Step.Notify(t, true))
  {
    hide Runs, Outcome, Channel.Init;
  }
}
