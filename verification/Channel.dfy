/** The mpsc channel as a client of the monitor: a queue under the mutex, a condition variable, a
    count of live `Sender`s and a flag for the `Receiver`.

    Each thread runs one channel operation at a time. An operation is a client program counter on top
    of the thread's monitor program counter; while the thread is inside a monitor call (`lock_*`,
    `wait_*`, `notify_*`, the drop of the guard) its next actions are the monitor's.
 */
module Channel {
  import opened Basics
  import opened Monitor

  /** `try_recv`, or `recv_spin`, `recv_block`, `recv_async` and their timed forms. */
  datatype Kind = Trying | By(how: How, dl: Deadline)

  datatype Result<M> = Got(m: M) | Empty | Disconnected | TimedOut

  /** `from` is the length of the push log when the send began, `at` the index of its message there. */
  datatype Client<M> =
    | Idle
    | SendCheck(m: M, how: How, from: nat)  // first load of receiver_active
    | SendLock(m: M, from: nat)             // in lock_*; then the second load
    | SendPush(m: M, from: nat)             // push_back
    | SendUnlock(m: M, from: nat, at: nat)  // drop(queue)
    | SendNotify(m: M, from: nat, at: nat)  // in the drop; then notify_one
    | SendReturn(m: M, from: nat, at: nat)  // in notify_one; then Ok(())
    | RejectUnlock(m: M)                    // Err(SendError(m)) with the guard
    | RejectReturn(m: M)
    | RecvLock(k: Kind)                     // in the acquisition; then pop_front
    | RecvCount(k: Kind)                    // the queue was empty: load of sender_count
    | RecvWait(k: Kind)                     // about to wait
    | RecvWaiting(k: Kind)                  // in wait_*; then the loop again
    | RecvUnlock(r: Result<M>)              // returns: the guard goes out of scope
    | RecvReturn(r: Result<M>)
    | LastNotify                            // the last Sender, or the Receiver, is dropped: notify_all
    | LastReturn

  /** `handles`: live `Sender`s of each thread. `receiver`: the thread that owns the `Receiver`. */
  datatype Chan<M> = Chan(
    mon: State<seq<M>>,
    cl: seq<Client<M>>,
    handles: seq<nat>,
    senderCount: int,
    receiver: Option<Tid>,
    active: bool,
    log: Log<M>)

  /** History: the messages of all sends begun, those pushed and those received, the indices of completed
      sends, the values handed back in `SendError`, whether a receive found the channel disconnected, and
      how many drops of a `Sender` found themselves the last. */
  datatype Log<M> = Log(
    begun: seq<M>, pushed: seq<M>, received: seq<M>, done: seq<nat>, rejected: seq<M>, closed: bool, lastDrops: nat)

  datatype Op<M> =
    | Send(t: Tid, m: M, how: How)
    | Recv(t: Tid, k: Kind)
    | Clone(t: Tid)
    | DropSender(t: Tid)
    | GiveSender(t: Tid, to: Tid)
    | GiveReceiver(t: Tid, to: Tid)
    | DropReceiver(t: Tid)
    | Act(t: Tid, sync: Sync)         // the operation's own next action
    | Inner(e: Step<seq<M>>)          // an action inside a monitor call, or of the platform

  /** A new channel among `n` threads; thread `first` owns the `Sender` and the `Receiver`. */
  function Init<M>(n: nat, first: Tid): (c: Chan<M>)
    requires first < n
    ensures Sized(c)
  {
    Chan(Monitor.Init(n, []), seq(n, i => Idle), seq(n, i => 0)[first := 1], 1, Some(first), true,
         Log([], [], [], [], [], false, 0))
  }

  predicate Sized<M>(c: Chan<M>) {
    Wf(c.mon) && |c.cl| == |c.handles| == |c.mon.pc|
  }

  predicate Sending<M>(x: Client<M>) {
    x.SendCheck? || x.SendLock? || x.SendPush? || x.SendUnlock? || x.SendNotify? || x.SendReturn? ||
    x.RejectUnlock? || x.RejectReturn?
  }

  predicate Receiving<M>(x: Client<M>) {
    x.RecvLock? || x.RecvCount? || x.RecvWait? || x.RecvWaiting? || x.RecvUnlock? || x.RecvReturn?
  }

  /** Steps in which the client has no say. */
  predicate Internal<T>(e: Step<T>) { e.Go? || e.Spurious? || e.Stray? || e.Tick? }

  function WaitRequest(k: Kind, sync: Sync): Request
    requires k.By?
  {
    match k.how
    case Spinning => WaitSpin(k.dl, sync)
    case Blocking => if k.dl.Some? then WaitBlockTimeout(k.dl.value, sync) else WaitBlock(sync)
    case Tasking => WaitAsync(k.dl)
  }

  /** The operation goes on only once its monitor call has returned. */
  predicate CallDone(x: Client, p: Pc) {
    match x
    case Idle => false
    case SendLock(_, _) => p.In?
    case RecvLock(_) => p.In? || p.Out?
    case RecvWaiting(_) => p.In?
    case SendNotify(_, _, _) => p.Out?
    case SendReturn(_, _, _) => p.Out?
    case RejectReturn(_) => p.Out?
    case RecvReturn(_) => p.Out?
    case LastReturn => p.Out?
    case _ => true
  }

  /** The monitor action that an action of the operation consists of, if any. */
  function Call<M>(c: Chan<M>, t: Tid, sync: Sync): Option<Step<seq<M>>>
    requires Sized(c) && t < |c.cl| && CallDone(c.cl[t], c.mon.pc[t])
  {
    match c.cl[t]
    case SendCheck(_, how, _) => if c.active then Some(Lock(t, how, None)) else None
    case SendPush(m, _) => Some(Store(t, c.mon.lock.value + [m]))
    case SendUnlock(_, _, _) => Some(Unlock(t))
    case SendNotify(_, _, _) => Some(Notify(t, false))
    case RejectUnlock(_) => Some(Unlock(t))
    case RecvLock(_) => if c.mon.pc[t].In? then Pop(c, t) else None
    case RecvWait(k) => if k.By? then Some(Wait(t, WaitRequest(k, sync))) else None
    case RecvWaiting(_) => if c.mon.pc[t].reply == Waited(true) then None else Pop(c, t)
    case RecvUnlock(_) => Some(Unlock(t))
    case LastNotify => Some(Notify(t, true))
    case _ => None
  }

  /** `pop_front`. */
  function Pop<M>(c: Chan<M>, t: Tid): Option<Step<seq<M>>> {
    if c.mon.lock.value == [] then None else Some(Store(t, c.mon.lock.value[1..]))
  }

  /** Where `pop_front` leads. */
  function Popped<M>(c: Chan<M>, t: Tid, k: Kind): Chan<M>
    requires t < |c.cl|
  {
    var q := c.mon.lock.value;
    if q == [] then c.(cl := c.cl[t := RecvCount(k)])
    else c.(cl := c.cl[t := RecvUnlock(Got(q[0]))], log := c.log.(received := c.log.received + [q[0]]))
  }

  /** The client's side of an action: its program counter, the counters and the history. */
  function Turn<M>(c: Chan<M>, t: Tid): (d: Chan<M>)
    requires Sized(c) && t < |c.cl| && CallDone(c.cl[t], c.mon.pc[t])
    ensures d.mon == c.mon && d.handles == c.handles && |d.cl| == |c.cl|
    ensures forall u :: 0 <= u < |c.cl| && u != t ==> d.cl[u] == c.cl[u]
  {
    match c.cl[t]
    case SendCheck(m, how, from) =>
      if c.active then c.(cl := c.cl[t := SendLock(m, from)])
      else c.(cl := c.cl[t := Idle], log := c.log.(rejected := c.log.rejected + [m]))
    case SendLock(m, from) => c.(cl := c.cl[t := if c.active then SendPush(m, from) else RejectUnlock(m)])
    case SendPush(m, from) =>
      c.(cl := c.cl[t := SendUnlock(m, from, |c.log.pushed|)], log := c.log.(pushed := c.log.pushed + [m]))
    case SendUnlock(m, from, at) => c.(cl := c.cl[t := SendNotify(m, from, at)])
    case SendNotify(m, from, at) => c.(cl := c.cl[t := SendReturn(m, from, at)])
    case SendReturn(m, from, at) => c.(cl := c.cl[t := Idle], log := c.log.(done := c.log.done + [at]))
    case RejectUnlock(m) => c.(cl := c.cl[t := RejectReturn(m)])
    case RejectReturn(m) => c.(cl := c.cl[t := Idle], log := c.log.(rejected := c.log.rejected + [m]))
    case RecvLock(k) =>
      if c.mon.pc[t].In? then Popped(c, t, k) else c.(cl := c.cl[t := Idle])
    case RecvCount(k) =>
      if c.senderCount == 0 then c.(cl := c.cl[t := RecvUnlock(Disconnected)], log := c.log.(closed := true))
      else c.(cl := c.cl[t := if k.Trying? then RecvUnlock(Empty) else RecvWait(k)])
    case RecvWait(k) => c.(cl := c.cl[t := RecvWaiting(k)])
    case RecvWaiting(k) =>
      if c.mon.pc[t].reply == Waited(true) then c.(cl := c.cl[t := RecvUnlock(TimedOut)]) else Popped(c, t, k)
    case RecvUnlock(r) => c.(cl := c.cl[t := RecvReturn(r)])
    case RecvReturn(r) => c.(cl := c.cl[t := Idle])
    case LastNotify => c.(cl := c.cl[t := LastReturn])
    case LastReturn => c.(cl := c.cl[t := Idle])
  }

  /** The start of an operation, and moves of handles between threads. */
  function Open<M>(c: Chan<M>, op: Op<M>): (d: Chan<M>)
    requires Sized(c) && Can(c, op) && !op.Act? && !op.Inner?
    ensures d.mon == c.mon && |d.cl| == |c.cl| && |d.handles| == |c.handles|
    ensures forall u :: 0 <= u < |c.cl| && u != op.t ==> d.cl[u] == c.cl[u] && d.handles[u] >= c.handles[u]
  {
    match op
    case Send(t, m, how) =>
      c.(cl := c.cl[t := SendCheck(m, how, |c.log.pushed|)], log := c.log.(begun := c.log.begun + [m]))
    case Recv(t, k) => c.(cl := c.cl[t := RecvLock(k)])
    case Clone(t) => c.(handles := c.handles[t := c.handles[t] + 1], senderCount := c.senderCount + 1)
    case DropSender(t) =>
      var d := c.(handles := c.handles[t := c.handles[t] - 1], senderCount := c.senderCount - 1);
      if c.senderCount == 1
      then d.(cl := d.cl[t := LastNotify], log := d.log.(lastDrops := d.log.lastDrops + 1)) else d
    case GiveSender(t, to) =>
      var h := c.handles[t := c.handles[t] - 1];
      c.(handles := h[to := h[to] + 1])
    case GiveReceiver(t, to) => c.(receiver := Some(to))
    case DropReceiver(t) => c.(receiver := None, active := false, cl := c.cl[t := LastNotify])
  }

  /** The monitor step of a channel step, if it has one. */
  function Underlying<M>(c: Chan<M>, op: Op<M>): Option<Step<seq<M>>>
    requires Sized(c) && (op.Act? ==> op.t < |c.cl| && CallDone(c.cl[op.t], c.mon.pc[op.t]))
  {
    match op
    case Recv(t, k) => if k.Trying? then Some(Try(t)) else Some(Lock(t, k.how, k.dl))
    case Act(t, sync) => Call(c, t, sync)
    case Inner(e) => Some(e)
    case _ => None
  }

  predicate Can<M>(c: Chan<M>, op: Op<M>)
    requires Sized(c)
  {
    && (match op
        case Send(t, _, _) => t < |c.cl| && c.cl[t].Idle? && c.handles[t] > 0
        case Recv(t, _) => t < |c.cl| && c.cl[t].Idle? && c.receiver == Some(t)
        case Clone(t) => t < |c.cl| && c.cl[t].Idle? && c.handles[t] > 0
        case DropSender(t) => t < |c.cl| && c.cl[t].Idle? && c.handles[t] > 0
        case GiveSender(t, to) => t < |c.cl| && to < |c.cl| && c.cl[t].Idle? && c.handles[t] > 0
        case GiveReceiver(t, to) => t < |c.cl| && to < |c.cl| && c.cl[t].Idle? && c.receiver == Some(t)
        case DropReceiver(t) => t < |c.cl| && c.cl[t].Idle? && c.receiver == Some(t)
        case Act(t, _) => t < |c.cl| && CallDone(c.cl[t], c.mon.pc[t])
        case Inner(e) => Internal(e))
    && (Underlying(c, op).Some? ==> Enabled(c.mon, Underlying(c, op).value))
  }

  function Side<M>(c: Chan<M>, op: Op<M>): Chan<M>
    requires Sized(c) && Can(c, op)
  {
    match op
    case Act(t, _) => Turn(c, t)
    case Inner(_) => c
    case _ => Open(c, op)
  }

  function Next<M>(c: Chan<M>, op: Op<M>): Chan<M>
    requires Sized(c) && Can(c, op)
  {
    var u := Underlying(c, op);
    Side(c, op).(mon := if u.Some? then Apply(c.mon, u.value) else c.mon)
  }
}
