/** What one thread's own actions come to on the channel when no other thread moves: a receive that comes to wait, a
    whole send. Runs built of these are the witnesses of what can happen. */
module ChannelOwn {
  import opened Basics
  import opened Monitor
  import opened MonitorSteps
  import opened MonitorRuns
  import opened MonitorOwn
  import opened Channel
  import opened ChannelRuns

  /** Steps inside a monitor call, as steps of the channel. */
  function Lift<M>(es: seq<Step<seq<M>>>): seq<Op<M>> {
    seq(|es|, i requires 0 <= i < |es| => Inner(es[i]))
  }

  predicate AllInternal<T>(es: seq<Step<T>>) {
    forall i :: 0 <= i < |es| ==> Internal(es[i])
  }

  lemma {:induction false} LiftRun<M>(c: Chan<M>, es: seq<Step<seq<M>>>)
    requires Sized(c) && Possible(c.mon, es) && AllInternal(es)
    ensures Runs(c, Lift(es)) && Outcome(c, Lift(es)) == c.(mon := Exec(c.mon, es))
    decreases |es|
  {
    hide Apply, Enabled;
    if es != [] {
      var op: Op<M> := Inner(es[0]);
      WfStep(c.mon, es[0]);
      SizedStep(c, op);
      LiftRun(Next(c, op), es[1..]);
      assert Lift(es)[0] == op && Lift(es)[1..] == Lift(es[1..]);
    }
  }

  /** One more step. */
  lemma Then<M>(c: Chan<M>, ops: seq<Op<M>>, op: Op<M>) returns (more: seq<Op<M>>)
    requires Sized(c) && Runs(c, ops) && Can(Outcome(c, ops), op)
    ensures Runs(c, more) && Outcome(c, more) == Next(Outcome(c, ops), op) && more == ops + [op]
  {
    hide Next, Can;
    OutcomeSnoc(c, ops, op);
    more := ops + [op];
  }

  /** Steps inside a monitor call. */
  lemma Inside<M>(c: Chan<M>, ops: seq<Op<M>>, es: seq<Step<seq<M>>>) returns (more: seq<Op<M>>)
    requires Sized(c) && Runs(c, ops) && Possible(Outcome(c, ops).mon, es) && AllInternal(es)
    ensures Runs(c, more) && more == ops + Lift(es)
    ensures Outcome(c, more) == Outcome(c, ops).(mon := Exec(Outcome(c, ops).mon, es))
  {
    hide Next, Can, Runs, Outcome;
    LiftRun(Outcome(c, ops), es);
    OutcomeConcat(c, ops, Lift(es));
    more := ops + Lift(es);
  }

  /** Every one of `ops` is an action of thread `t`'s operation, or a step inside its monitor call or of the clock. */
  predicate OwnActions<M>(ops: seq<Op<M>>, t: Tid) {
    forall i :: 0 <= i < |ops|
                ==> (ops[i].Act? && ops[i].t == t) || (ops[i].Inner? && (ops[i].e == Go(t) || ops[i].e.Tick?))
  }

  // ------------------------------------------------------------ a receive that comes to wait

  /** The wait of kind `k` registered by thread `t` in state `m`. */
  function WaitOf<T>(m: State<T>, k: Kind): Waiting
    requires k.By?
  {
    match k.how
    case Spinning => OnFlag(m.rt.next, k.dl, SyncBlock)
    case Blocking => if k.dl.Some? then OnThreadUntil(k.dl.value, SyncBlock) else OnThread(SyncBlock)
    case Tasking => OnTask(m.rt.next, k.dl)
  }

  /** `m'` is `m` with that wait registered. */
  ghost predicate RegisteredAs<T>(m: State<T>, m': State<T>, t: Tid, k: Kind)
    requires k.By? && t < |m.pc|
  {
    && m'.lock == m.lock && m'.rt.token == m.rt.token && m'.rt.flags == m.rt.flags && m'.rt.fired == m.rt.fired
    && m'.rt.clock == m.rt.clock && m'.pc == m.pc[t := Release(Resume(WaitOf(m, k)))]
    && m'.cond.spins == m.cond.spins + (if k.how.Spinning? then [m.rt.next] else [])
    && m'.cond.threads == m.cond.threads + (if k.how.Blocking? then [t] else [])
    && m'.cond.tasks == m.cond.tasks + (if k.how.Tasking? then [m.rt.next] else [])
  }

  lemma Registers<T>(m: State<T>, t: Tid, k: Kind)
    requires Wf(m) && t < |m.pc| && m.pc[t].In? && k.By?
    ensures Enabled(m, Wait(t, WaitRequest(k, SyncBlock)))
    ensures RegisteredAs(m, Apply(m, Wait(t, WaitRequest(k, SyncBlock))), t, k)
  {
  }

  /** `d` is `c` after thread `t` has registered its wait and released the queue. */
  ghost predicate WaitsNow<M>(c: Chan<M>, d: Chan<M>, t: Tid, k: Kind)
    requires Sized(c) && t < |c.cl| && k.By?
  {
    && d == c.(mon := d.mon, cl := c.cl[t := RecvWaiting(k)]) && |d.mon.rt.token| == |c.mon.rt.token|
    && d.mon.pc == c.mon.pc[t := Proceed(Resume(WaitOf(c.mon, k)))]
    && d.mon.lock.value == c.mon.lock.value && !d.mon.lock.held && d.mon.rt.clock == c.mon.rt.clock
    && d.mon.rt.flags == c.mon.rt.flags
    && d.mon.cond.spins == c.mon.cond.spins + (if k.how.Spinning? then [c.mon.rt.next] else [])
    && d.mon.cond.threads == c.mon.cond.threads + (if k.how.Blocking? then [t] else [])
    && d.mon.cond.tasks == c.mon.cond.tasks + (if k.how.Tasking? then [c.mon.rt.next] else [])
    && (forall x :: 0 <= x < |c.mon.rt.token| && d.mon.rt.token[x] ==> c.mon.rt.token[x] || x in c.mon.lock.threads)
    && (forall x :: x in d.mon.rt.fired ==> x in c.mon.rt.fired || x in c.mon.lock.tasks)
  }

  /** The receive registers its wait and releases the queue. */
  lemma ComesToWait<M>(c: Chan<M>, t: Tid, k: Kind) returns (ops: seq<Op<M>>)
    requires Sized(c) && t < |c.cl| && c.cl[t] == RecvWait(k) && k.By? && c.mon.pc[t].In?
    ensures Runs(c, ops) && OwnActions(ops, t) && ops != [] && ops[0] == Act(t, SyncBlock)
    ensures forall i :: 1 <= i < |ops| ==> ops[i] == Inner(Go(t))
    ensures WaitsNow(c, Outcome(c, ops), t, k)
  {
    hide Advance, Runs, Outcome, Possible, Exec, Register, Proceed;
    Registers(c.mon, t, k);
    Nothing(c);
    ops := Then(c, [], Act(t, SyncBlock));
    var m1 := Outcome(c, ops).mon;
    var es := FinishRelease(m1, t);
    ops := Inside(c, ops, es);
  }

  lemma Nothing<M>(c: Chan<M>)
    requires Sized(c)
    ensures Runs(c, []) && Outcome(c, []) == c
  {
  }

  // ------------------------------------------------------------ a whole send

  /** The acquisition of a free lock. */
  lemma SendLocks<M>(c: Chan<M>, u: Tid, m: M) returns (ops: seq<Op<M>>)
    requires Sized(c) && u < |c.cl| && c.cl[u].Idle? && c.mon.pc[u].Out? && c.handles[u] > 0 && c.active
    requires !c.mon.lock.held
    ensures Runs(c, ops) && ops != [] && ops[0] == Send(u, m, Spinning) && OwnActions(ops[1..], u)
    ensures var d := Outcome(c, ops);
            && d == c.(mon := d.mon, cl := d.cl, log := d.log)
            && d.mon == At(c.mon, u, In(Fresh)).(lock := c.mon.lock.(held := true))
            && d.cl == c.cl[u := SendLock(m, |c.log.pushed|)]
  {
    hide GoRelease, GoAwait, GoNotify, Runs, Outcome;
    Nothing(c);
    ops := Then(c, [], Send(u, m, Spinning));
    ops := Then(c, ops, Act(u, SyncBlock));
    ops := Then(c, ops, Inner(Go(u)));
  }

  /** The push, and the release begins. */
  lemma SendPushes<M>(c: Chan<M>, u: Tid, m: M, from: nat) returns (ops: seq<Op<M>>)
    requires Sized(c) && u < |c.cl| && c.cl[u] == SendLock(m, from) && c.mon.pc[u].In? && c.active
    ensures Runs(c, ops) && OwnActions(ops, u)
    ensures var d := Outcome(c, ops);
            && d == c.(mon := d.mon, cl := d.cl, log := d.log)
            && d.mon == At(c.mon, u, Release(Leave)).(lock := c.mon.lock.(value := c.mon.lock.value + [m]))
            && d.cl == c.cl[u := SendNotify(m, from, |c.log.pushed|)]
  {
    hide Advance, Runs, Outcome;
    Nothing(c);
    ops := Then(c, [], Act(u, SyncBlock));
    ops := Then(c, ops, Act(u, SyncBlock));
    ops := Then(c, ops, Act(u, SyncBlock));
  }

  /** `d` is `c` after one whole send of `m` by thread `u`: its `notify_one` took the thread listed last. */
  ghost predicate Sends<M>(c: Chan<M>, d: Chan<M>, m: M)
    requires Sized(c) && Sized(d) && c.mon.cond.threads != []
  {
    && d == c.(mon := d.mon, log := d.log)
    && d.mon.pc == c.mon.pc && d.mon.lock.value == c.mon.lock.value + [m] && !d.mon.lock.held
    && d.mon.cond == c.mon.cond.(threads := c.mon.cond.threads[..|c.mon.cond.threads| - 1])
    && d.mon.rt.clock == c.mon.rt.clock && d.mon.rt.flags == c.mon.rt.flags
    && Last(c.mon.cond.threads) < |d.mon.rt.token| && d.mon.rt.token[Last(c.mon.cond.threads)]
    && (forall x :: x in d.mon.rt.fired ==> x in c.mon.rt.fired || x in c.mon.lock.tasks)
  }

  /** The release, the notification, and `Ok(())`. */
  lemma SendTells<M>(c: Chan<M>, u: Tid, m: M, from: nat, at: nat) returns (ops: seq<Op<M>>)
    requires Sized(c) && u < |c.cl| && c.cl[u] == SendNotify(m, from, at) && c.mon.pc[u] == Release(Leave)
    requires c.mon.cond.spins == [] && c.mon.cond.threads != []
    ensures Runs(c, ops) && OwnActions(ops, u)
    ensures var d := Outcome(c, ops);
            && d == c.(mon := d.mon, cl := d.cl, log := d.log)
            && d.mon.pc == c.mon.pc[u := Out] && d.mon.lock.value == c.mon.lock.value && !d.mon.lock.held
            && d.mon.cond == c.mon.cond.(threads := c.mon.cond.threads[..|c.mon.cond.threads| - 1])
            && d.mon.rt.clock == c.mon.rt.clock && d.mon.rt.flags == c.mon.rt.flags
            && Last(c.mon.cond.threads) < |d.mon.rt.token| && d.mon.rt.token[Last(c.mon.cond.threads)]
            && (forall x :: x in d.mon.rt.fired ==> x in c.mon.rt.fired || x in c.mon.lock.tasks)
            && d.cl == c.cl[u := Idle]
  {
    hide Advance, Runs, Outcome, Possible, Exec;
    Nothing(c);
    var es := FinishRelease(c.mon, u);
    ops := Inside(c, [], es);
    var c1 := Outcome(c, ops);
    var more := SendNotifies(c1, u, m, from, at);
    OutcomeConcat(c, ops, more);
    ops := ops + more;
  }

  lemma SendNotifies<M>(c: Chan<M>, u: Tid, m: M, from: nat, at: nat) returns (ops: seq<Op<M>>)
    requires Sized(c) && u < |c.cl| && c.cl[u] == SendNotify(m, from, at) && c.mon.pc[u].Out?
    requires c.mon.cond.spins == [] && c.mon.cond.threads != []
    ensures Runs(c, ops) && OwnActions(ops, u)
    ensures var d := Outcome(c, ops);
            && d == c.(mon := d.mon, cl := c.cl[u := Idle], log := d.log)
            && d.mon == AfterThread(At(c.mon, u, NSpins(false, false)), u)
  {
    hide Advance, Runs, Outcome, Possible, Exec, AfterThread;
    Nothing(c);
    ops := Then(c, [], Act(u, SyncBlock));
    var told := TakesThread(Outcome(c, ops).mon, u);
    ops := Inside(c, ops, told);
    assert Outcome(c, ops).mon.pc[u].Out? by { EndsOut(At(c.mon, u, NSpins(false, false)), u); }
    ops := Then(c, ops, Act(u, SyncBlock));
  }

  lemma EndsOut<T>(s: State<T>, u: Tid)
    requires Wf(s) && u < |s.pc| && s.cond.threads != []
    ensures AfterThread(s, u).pc == s.pc[u := Out]
  {
  }

  /** A whole send by a thread between operations, while the lock is free. */
  lemma SendsAlone<M>(c: Chan<M>, u: Tid, m: M) returns (ops: seq<Op<M>>)
    requires Sized(c) && u < |c.cl| && c.cl[u].Idle? && c.mon.pc[u].Out? && c.handles[u] > 0 && c.active
    requires !c.mon.lock.held && c.mon.cond.spins == [] && c.mon.cond.threads != []
    ensures Runs(c, ops) && ops != [] && ops[0] == Send(u, m, Spinning) && OwnActions(ops[1..], u)
    ensures Sends(c, Outcome(c, ops), m)
  {
    hide Runs, Outcome;
    var first := SendLocks(c, u, m);
    var c1 := Outcome(c, first);
    var second := SendPushes(c1, u, m, |c.log.pushed|);
    OutcomeConcat(c, first, second);
    var c2 := Outcome(c1, second);
    var third := SendTells(c2, u, m, |c.log.pushed|, |c1.log.pushed|);
    OutcomeConcat(c, first + second, third);
    ops := first + second + third;
    assert Outcome(c2, third).cl == c.cl && Outcome(c2, third).mon.pc == c.mon.pc;
  }
}
