/** The lock and wake-up protocol of `Mutex` and `Condvar` as an interleaving machine.

    A state holds the shared variables of one mutex, one condition variable and the platform
    (park tokens, one-shot flags, clock), plus one program counter a thread. One step is one atomic
    action of one thread: an atomic load, store or swap, one critical section of a list's spinlock,
    one unpark or flag store, or one return from a park. Which operation an idle thread or a lock
    holder calls next is left open, so the theorems hold for every client.
 */
module Monitor {
  import opened Basics

  /** `lock_sync` blocks or spins, whichever the platform allows. */
  datatype Sync = SyncSpin | SyncBlock

  /** What the call that acquired the lock reports to its caller. */
  datatype Reply = Fresh | Waited(timedOut: bool)

  /** A condition-variable wait as the caller requests it. */
  datatype Request =
    | WaitBlock(sync: Sync)
    | WaitBlockTimeout(limit: nat, sync: Sync)
    | WaitSpin(dl: Deadline, sync: Sync)
    | WaitAsync(dl: Deadline)

  /** A condition-variable wait once its entry is registered. */
  datatype Waiting =
    | OnThread(sync: Sync)
    | OnThreadUntil(limit: nat, sync: Sync)
    | OnFlag(id: Sig, dl: Deadline, sync: Sync)
    | OnTask(id: Sig, dl: Deadline)

  /** What follows the release of the mutex: the guard's owner goes on, or it waits. */
  datatype After = Leave | Resume(w: Waiting)

  datatype Pc =
    // Not in a call: without and with the guard.
    | Out
    | In(reply: Reply)
    // try_lock
    | TryLock
    // lock_spin, lock_spin_timeout
    | SpinSwap(dl: Deadline, reply: Reply)
    | SpinClock(limit: nat, reply: Reply)
    // lock_block, lock_block_timeout
    | BlockClock(limit: nat, reply: Reply)
    | BlockEnter(dl: Deadline, reply: Reply)
    | BlockPark(dl: Deadline, reply: Reply)
    // lock_async, lock_async_timeout
    | TaskClock(limit: nat, reply: Reply)
    | TaskEnter(dl: Deadline, reply: Reply)
    | TaskPoll(id: Sig, dl: Deadline, reply: Reply)
    | TaskTimer(id: Sig, limit: nat, reply: Reply)
    // The last attempt of a timed acquisition
    | LastTry
    // Guard::drop and did_unlock
    | Release(after: After)
    | TakeThreads(after: After)
    | WakeThreads(ws: seq<Tid>, after: After)
    | TakeTasks(after: After)
    | WakeTasks(gs: seq<Sig>, after: After)
    // wait_block, wait_block_timeout
    | CvPark(sync: Sync)
    | CvClock(limit: nat, sync: Sync)
    | CvParkUntil(limit: nat, sync: Sync)
    | CvCheck(limit: nat, sync: Sync)
    | CvRemove(sync: Sync)
    // wait_spin, wait_spin_timeout
    | CvSpin(id: Sig, dl: Deadline, sync: Sync)
    | CvSpinClock(id: Sig, limit: nat, sync: Sync)
    | CvSpinRemove(id: Sig, sync: Sync)
    // wait_async, wait_async_timeout
    | CvPoll(id: Sig, dl: Deadline)
    | CvTimer(id: Sig, limit: nat)
    | CvTaskRemove(id: Sig)
    // notify_one, notify_all; `inside` when the caller holds the guard
    | NSpins(all: bool, inside: bool)
    | NStore(ids: seq<Sig>, all: bool, inside: bool)
    | NThreads(all: bool, inside: bool)
    | NUnpark(ws: seq<Tid>, all: bool, inside: bool)
    | NTasks(all: bool, inside: bool)
    | NSend(gs: seq<Sig>, all: bool, inside: bool)

  /** `Mutex`: the protected value, `data_lock` and the two waiter lists. */
  datatype LockState<T> = LockState(value: T, held: bool, threads: seq<Tid>, tasks: seq<Sig>)

  /** `Condvar`: the three waiter lists. */
  datatype CondState = CondState(spins: seq<Sig>, threads: seq<Tid>, tasks: seq<Sig>)

  /** The platform: a park token a thread, stored spin flags, sent continuations, next name, clock. */
  datatype Runtime = Runtime(token: seq<bool>, flags: set<Sig>, fired: set<Sig>, next: Sig, clock: nat)

  /** History that no step reads. For blocking waits: whether a notifier took a thread's latest
      registration, how often each thread registered, how many registrations notifiers took, how many
      timed waits returned as notified.
      For spinning waits: the flags that notifiers took, that waits returned on, and that waits
      withdrew at a timeout. */
  datatype History = History(
    popped: seq<bool>, regs: seq<nat>, pops: nat, notified: nat,
    taken: set<Sig>, seen: set<Sig>, expired: set<Sig>)

  datatype State<T> = State(lock: LockState<T>, cond: CondState, rt: Runtime, pc: seq<Pc>, hist: History)

  datatype Step<T> =
    | Lock(t: Tid, how: How, dl: Deadline)
    | Try(t: Tid)
    | Store(t: Tid, v: T)
    | Unlock(t: Tid)    // the guard goes out of scope
    | Wait(t: Tid, req: Request)
    | Notify(t: Tid, all: bool)
    | Go(t: Tid)        // the next action of the call thread `t` is in
    | Spurious(t: Tid)  // a park returns without a token and before its time is up
    | Stray(t: Tid)     // an unpark from outside: another primitive, or user code
    | Tick(n: nat)

  /** The step is an action of thread `t` itself. */
  predicate IsBy<T>(e: Step<T>, t: Tid) { !e.Tick? && !e.Stray? && e.t == t }

  // ------------------------------------------------------------ reading a program counter

  /** The thread owns the guard: from acquisition to the store that clears `data_lock`. */
  predicate Holds(p: Pc) {
    match p
    case In(_) => true
    case Release(_) => true
    case NSpins(_, inside) => inside
    case NStore(_, _, inside) => inside
    case NThreads(_, inside) => inside
    case NUnpark(_, _, inside) => inside
    case NTasks(_, inside) => inside
    case NSend(_, _, inside) => inside
    case _ => false
  }

  predicate Ready(p: Pc) { p.Out? || p.In? }

  /** Threads this one has taken off a list and has yet to unpark. */
  function Unparks(p: Pc): seq<Tid> {
    match p
    case WakeThreads(ws, _) => ws
    case NUnpark(ws, _, _) => ws
    case _ => []
  }

  /** Continuations this thread has taken off a list and has yet to send to. */
  function Sends(p: Pc): seq<Sig> {
    match p
    case WakeTasks(gs, _) => gs
    case NSend(gs, _, _) => gs
    case _ => []
  }

  /** Spin flags this thread has taken off the list and has yet to store. */
  function Stores(p: Pc): seq<Sig> {
    if p.NStore? then p.ids else []
  }

  /** A releaser that has cleared `data_lock` and not yet taken the list of blocked threads. */
  predicate OwesThreads(p: Pc) { p.TakeThreads? }

  /** A releaser that has cleared `data_lock` and not yet taken the list of waiting tasks. */
  predicate OwesTasks(p: Pc) { p.TakeThreads? || p.WakeThreads? || p.TakeTasks? }

  /** The wait whose entry the thread has registered and whose outcome is still open. */
  function Pending(p: Pc): Option<Waiting> {
    match p
    case Release(Resume(w)) => Some(w)
    case TakeThreads(Resume(w)) => Some(w)
    case WakeThreads(_, Resume(w)) => Some(w)
    case TakeTasks(Resume(w)) => Some(w)
    case WakeTasks(_, Resume(w)) => Some(w)
    case CvPark(sync) => Some(OnThread(sync))
    case CvClock(limit, sync) => Some(OnThreadUntil(limit, sync))
    case CvParkUntil(limit, sync) => Some(OnThreadUntil(limit, sync))
    case CvCheck(limit, sync) => Some(OnThreadUntil(limit, sync))
    case CvRemove(sync) => Some(OnThreadUntil(0, sync))
    case CvSpin(id, dl, sync) => Some(OnFlag(id, dl, sync))
    case CvSpinClock(id, limit, sync) => Some(OnFlag(id, Some(limit), sync))
    case CvSpinRemove(id, sync) => Some(OnFlag(id, None, sync))
    case CvPoll(id, dl) => Some(OnTask(id, dl))
    case CvTimer(id, limit) => Some(OnTask(id, Some(limit)))
    case CvTaskRemove(id) => Some(OnTask(id, None))
    case _ => None
  }

  /** The thread waits for the one-shot flag `id` as a spin waiter. */
  predicate SpinWaits(p: Pc, id: Sig) { Pending(p).Some? && Pending(p).value.OnFlag? && Pending(p).value.id == id }

  /** The thread is in a timed blocking wait. */
  predicate TimedWaits(p: Pc) { Pending(p).Some? && Pending(p).value.OnThreadUntil? }

  /** In a blocking wait that will park, or park again, unless it has its token. */
  predicate Armed(p: Pc) {
    Pending(p).Some? && (Pending(p).value.OnThread? || Pending(p).value.OnThreadUntil?) && !p.CvCheck? && !p.CvRemove?
  }

  /** The thread waits for continuation `id` in `wait_async` or `wait_async_timeout`. */
  predicate TaskWaits(p: Pc, id: Sig) { Pending(p).Some? && Pending(p).value.OnTask? && Pending(p).value.id == id }

  /** The thread waits for continuation `id` in `lock_async`. */
  predicate LockAwaits(p: Pc, id: Sig) { (p.TaskPoll? || p.TaskTimer?) && p.id == id }

  // ------------------------------------------------------------ well-formed states

  predicate Wf<T>(s: State<T>) {
    && |s.rt.token| == |s.pc| == |s.hist.popped| == |s.hist.regs|
    && Below(s.lock.threads, |s.pc|)
    && Below(s.cond.threads, |s.pc|)
    && (forall t :: 0 <= t < |s.pc| ==> Below(Unparks(s.pc[t]), |s.pc|))
  }

  /** A new mutex and condition variable among `n` threads, all outside. */
  function Init<T>(n: nat, value: T): (s: State<T>)
    ensures Wf(s)
  {
    State(LockState(value, false, [], []), CondState([], [], []), Runtime(seq(n, i => false), {}, {}, 0, 0),
          seq(n, i => Out), History(seq(n, i => false), seq(n, i => 0), 0, 0, {}, {}, {}))
  }

  // ------------------------------------------------------------ steps

  function At<T>(s: State<T>, t: Tid, p: Pc): State<T>
    requires t < |s.pc|
  {
    s.(pc := s.pc[t := p])
  }

  /** Where an acquisition starts: timed ones look at the clock first, except the spinning one. */
  function Begin(how: How, dl: Deadline): Pc {
    match how
    case Spinning => SpinSwap(dl, Fresh)
    case Blocking => EnterBlock(dl, Fresh)
    case Tasking => EnterTask(dl, Fresh)
  }

  /** The top of `lock_block`'s loop, or of `lock_block_timeout`'s. */
  function EnterBlock(dl: Deadline, r: Reply): Pc {
    if dl.Some? then BlockClock(dl.value, r) else BlockEnter(None, r)
  }

  function EnterTask(dl: Deadline, r: Reply): Pc {
    if dl.Some? then TaskClock(dl.value, r) else TaskEnter(None, r)
  }

  /** Re-acquisition after a wait. */
  function Relock(sync: Sync, timedOut: bool): Pc {
    if sync.SyncSpin? then SpinSwap(None, Waited(timedOut)) else BlockEnter(None, Waited(timedOut))
  }

  /** Where a thread goes once the mutex is released and every waiter it took is woken. */
  function Proceed(a: After): Pc {
    match a
    case Leave => Out
    case Resume(OnThread(sync)) => CvPark(sync)
    case Resume(OnThreadUntil(limit, sync)) => CvClock(limit, sync)
    case Resume(OnFlag(id, dl, sync)) => CvSpin(id, dl, sync)
    case Resume(OnTask(id, dl)) => CvPoll(id, dl)
  }

  /** A timed blocking wait found its entry gone: a notifier took it. */
  function Notified<T>(s: State<T>, t: Tid, sync: Sync): State<T>
    requires t < |s.pc|
  {
    At(s, t, Relock(sync, false)).(hist := s.hist.(notified := s.hist.notified + 1))
  }

  /** The marks `m`, with those of every thread in `q` set. */
  function MarkAll(m: seq<bool>, q: seq<Tid>): seq<bool> {
    seq(|m|, i requires 0 <= i < |m| => m[i] || i in q)
  }

  function Return(inside: bool): Pc { if inside then In(Fresh) else Out }

  function Registered(h: History, t: Tid): History
    requires t < |h.popped| && t < |h.regs|
  {
    h.(popped := h.popped[t := false], regs := h.regs[t := h.regs[t] + 1])
  }

  /** Registers the caller's entry; the guard is dropped next. */
  function Register<T>(s: State<T>, t: Tid, req: Request): State<T>
    requires Wf(s) && t < |s.pc|
  {
    match req
    case WaitBlock(sync) =>
      At(s, t, Release(Resume(OnThread(sync))))
        .(cond := s.cond.(threads := s.cond.threads + [t]), hist := Registered(s.hist, t))
    case WaitBlockTimeout(limit, sync) =>
      At(s, t, Release(Resume(OnThreadUntil(limit, sync))))
        .(cond := s.cond.(threads := s.cond.threads + [t]), hist := Registered(s.hist, t))
    case WaitSpin(dl, sync) =>
      At(s, t, Release(Resume(OnFlag(s.rt.next, dl, sync))))
        .(cond := s.cond.(spins := s.cond.spins + [s.rt.next]), rt := s.rt.(next := s.rt.next + 1))
    case WaitAsync(dl) =>
      At(s, t, Release(Resume(OnTask(s.rt.next, dl))))
        .(cond := s.cond.(tasks := s.cond.tasks + [s.rt.next]), rt := s.rt.(next := s.rt.next + 1))
  }

  /** Can the call that thread `t` is in take its next action? */
  predicate CanGo<T>(s: State<T>, t: Tid)
    requires Wf(s) && t < |s.pc|
  {
    match s.pc[t]
    case Out => false
    case In(_) => false
    case SpinSwap(dl, _) => dl.Some? || !s.lock.held
    case BlockPark(dl, _) => s.rt.token[t] || (dl.Some? && s.rt.clock >= dl.value)
    case CvPark(_) => s.rt.token[t]
    case CvParkUntil(limit, _) => s.rt.token[t] || s.rt.clock >= limit
    case TaskPoll(id, dl, _) => dl.Some? || id in s.rt.fired
    case CvSpin(id, dl, _) => dl.Some? || id in s.rt.flags
    case CvPoll(id, dl) => dl.Some? || id in s.rt.fired
    case _ => true
  }

  /** A parked thread returns whether or not its token is there. */
  predicate CanReturn(p: Pc) { p.BlockPark? || p.CvPark? || p.CvParkUntil? }

  /** What a thread does when its park returns. */
  function Unparked(p: Pc): Pc
    requires CanReturn(p)
  {
    match p
    case BlockPark(dl, r) => EnterBlock(dl, r)
    case CvPark(sync) => Relock(sync, false)
    case CvParkUntil(limit, sync) => CvCheck(limit, sync)
  }

  predicate Acquires(p: Pc) {
    p.TryLock? || p.SpinSwap? || p.SpinClock? || p.BlockClock? || p.BlockEnter? || p.BlockPark? ||
    p.TaskClock? || p.TaskEnter? || p.TaskPoll? || p.TaskTimer? || p.LastTry?
  }

  predicate Releases(p: Pc) {
    p.Release? || p.TakeThreads? || p.WakeThreads? || p.TakeTasks? || p.WakeTasks?
  }

  predicate Awaits(p: Pc) {
    p.CvPark? || p.CvClock? || p.CvParkUntil? || p.CvCheck? || p.CvRemove? || p.CvSpin? || p.CvSpinClock? ||
    p.CvSpinRemove? || p.CvPoll? || p.CvTimer? || p.CvTaskRemove?
  }

  predicate Notifies(p: Pc) {
    p.NSpins? || p.NStore? || p.NThreads? || p.NUnpark? || p.NTasks? || p.NSend?
  }

  /** Actions of `try_lock`, `lock_spin`, `lock_block`, `lock_async` and their timed forms. */
  function GoAcquire<T>(s: State<T>, t: Tid): State<T>
    requires Wf(s) && t < |s.pc| && CanGo(s, t) && Acquires(s.pc[t])
  {
    match s.pc[t]
    case TryLock => if s.lock.held then At(s, t, Out) else At(s, t, In(Fresh)).(lock := s.lock.(held := true))
    case LastTry => if s.lock.held then At(s, t, Out) else At(s, t, In(Fresh)).(lock := s.lock.(held := true))
    case SpinSwap(dl, r) =>
      if s.lock.held then At(s, t, SpinClock(dl.value, r)) else At(s, t, In(r)).(lock := s.lock.(held := true))
    case SpinClock(limit, r) => if s.rt.clock >= limit then At(s, t, Out) else At(s, t, SpinSwap(Some(limit), r))
    case BlockClock(limit, r) => if s.rt.clock >= limit then At(s, t, LastTry) else At(s, t, BlockEnter(Some(limit), r))
    case BlockEnter(dl, r) =>
      if s.lock.held then At(s, t, BlockPark(dl, r)).(lock := s.lock.(threads := s.lock.threads + [t]))
      else At(s, t, In(r)).(lock := s.lock.(held := true))
    case BlockPark(dl, r) => At(s, t, Unparked(s.pc[t])).(rt := s.rt.(token := s.rt.token[t := false]))
    case TaskClock(limit, r) => if s.rt.clock >= limit then At(s, t, LastTry) else At(s, t, TaskEnter(Some(limit), r))
    case TaskEnter(dl, r) =>
      if s.lock.held then At(s, t, TaskPoll(s.rt.next, dl, r))
        .(lock := s.lock.(tasks := s.lock.tasks + [s.rt.next]), rt := s.rt.(next := s.rt.next + 1))
      else At(s, t, In(r)).(lock := s.lock.(held := true))
    case TaskPoll(id, dl, r) =>
      if id in s.rt.fired then At(s, t, EnterTask(dl, r)) else At(s, t, TaskTimer(id, dl.value, r))
    case TaskTimer(id, limit, r) =>
      if s.rt.clock >= limit then At(s, t, Out) else At(s, t, TaskPoll(id, Some(limit), r))
  }

  /** Actions of `Guard::drop`: clear `data_lock`, then take and wake one list after the other. */
  function GoRelease<T>(s: State<T>, t: Tid): State<T>
    requires Wf(s) && t < |s.pc| && Releases(s.pc[t])
  {
    match s.pc[t]
    case Release(a) => At(s, t, TakeThreads(a)).(lock := s.lock.(held := false))
    case TakeThreads(a) => At(s, t, WakeThreads(s.lock.threads, a)).(lock := s.lock.(threads := []))
    case WakeThreads(ws, a) =>
      if ws == [] then At(s, t, TakeTasks(a)) else At(s, t, WakeThreads(ws[1..], a))
        .(rt := s.rt.(token := s.rt.token[ws[0] := true]))
    case TakeTasks(a) => At(s, t, WakeTasks(s.lock.tasks, a)).(lock := s.lock.(tasks := []))
    case WakeTasks(gs, a) =>
      if gs == [] then At(s, t, Proceed(a)) else At(s, t, WakeTasks(gs[1..], a))
        .(rt := s.rt.(fired := s.rt.fired + {gs[0]}))
  }

  /** Actions of the waits after the guard is dropped. */
  function GoAwait<T>(s: State<T>, t: Tid): State<T>
    requires Wf(s) && t < |s.pc| && CanGo(s, t) && Awaits(s.pc[t])
  {
    match s.pc[t]
    case CvPark(sync) => At(s, t, Unparked(s.pc[t])).(rt := s.rt.(token := s.rt.token[t := false]))
    case CvClock(limit, sync) =>
      if s.rt.clock >= limit then At(s, t, CvRemove(sync)) else At(s, t, CvParkUntil(limit, sync))
    case CvParkUntil(limit, sync) => At(s, t, Unparked(s.pc[t])).(rt := s.rt.(token := s.rt.token[t := false]))
    case CvCheck(limit, sync) =>
      if t in s.cond.threads then At(s, t, CvClock(limit, sync)) else Notified(s, t, sync)
    case CvRemove(sync) =>
      if t in s.cond.threads then At(s, t, Relock(sync, true))
        .(cond := s.cond.(threads := Without(s.cond.threads, t)))
      else Notified(s, t, sync)
    case CvSpin(id, dl, sync) =>
      if id in s.rt.flags then At(s, t, Relock(sync, false)).(hist := s.hist.(seen := s.hist.seen + {id}))
      else At(s, t, CvSpinClock(id, dl.value, sync))
    case CvSpinClock(id, limit, sync) =>
      if s.rt.clock >= limit then At(s, t, CvSpinRemove(id, sync)) else At(s, t, CvSpin(id, Some(limit), sync))
    case CvSpinRemove(id, sync) =>
      if id in s.cond.spins then At(s, t, Relock(sync, true))
        .(cond := s.cond.(spins := Without(s.cond.spins, id)), hist := s.hist.(expired := s.hist.expired + {id}))
      else At(s, t, CvSpin(id, None, sync))
    case CvPoll(id, dl) =>
      if id in s.rt.fired then At(s, t, TaskEnter(None, Waited(false))) else At(s, t, CvTimer(id, dl.value))
    case CvTimer(id, limit) =>
      if s.rt.clock >= limit then At(s, t, CvTaskRemove(id)) else At(s, t, CvPoll(id, Some(limit)))
    case CvTaskRemove(id) =>
      if id in s.cond.tasks
      then At(s, t, TaskEnter(None, Waited(true)))
        .(cond := s.cond.(tasks := Without(s.cond.tasks, id)), rt := s.rt.(fired := s.rt.fired + {id}))
      else At(s, t, TaskEnter(None, Waited(true)))
  }

  /** Actions of `notify_one` and `notify_all`: spin flags first, then threads, then tasks. */
  function GoNotify<T>(s: State<T>, t: Tid): State<T>
    requires Wf(s) && t < |s.pc| && Notifies(s.pc[t])
  {
    match s.pc[t]
    case NSpins(all, h) =>
      if all then At(s, t, NStore(s.cond.spins, all, h))
        .(cond := s.cond.(spins := []), hist := s.hist.(taken := s.hist.taken + SetOf(s.cond.spins)))
      else if s.cond.spins == [] then At(s, t, NThreads(all, h))
      else At(s, t, NStore([Last(s.cond.spins)], all, h))
        .(cond := s.cond.(spins := s.cond.spins[..|s.cond.spins| - 1]),
          hist := s.hist.(taken := s.hist.taken + {Last(s.cond.spins)}))
    case NStore(ids, all, h) =>
      if ids != [] then At(s, t, NStore(ids[1..], all, h)).(rt := s.rt.(flags := s.rt.flags + {ids[0]}))
      else if all then At(s, t, NThreads(all, h)) else At(s, t, Return(h))
    case NThreads(all, h) =>
      if all then At(s, t, NUnpark(s.cond.threads, all, h))
        .(cond := s.cond.(threads := []),
          hist := s.hist.(popped := MarkAll(s.hist.popped, s.cond.threads), pops := s.hist.pops + |s.cond.threads|))
      else if s.cond.threads == [] then At(s, t, NTasks(all, h))
      else At(s, t, NUnpark([Last(s.cond.threads)], all, h))
        .(cond := s.cond.(threads := s.cond.threads[..|s.cond.threads| - 1]),
          hist := s.hist.(popped := s.hist.popped[Last(s.cond.threads) := true], pops := s.hist.pops + 1))
    case NUnpark(ws, all, h) =>
      if ws != [] then At(s, t, NUnpark(ws[1..], all, h)).(rt := s.rt.(token := s.rt.token[ws[0] := true]))
      else if all then At(s, t, NTasks(all, h)) else At(s, t, Return(h))
    case NTasks(all, h) =>
      if all then At(s, t, NSend(s.cond.tasks, all, h)).(cond := s.cond.(tasks := []))
      else if s.cond.tasks == [] then At(s, t, Return(h))
      else At(s, t, NSend([Last(s.cond.tasks)], all, h))
        .(cond := s.cond.(tasks := s.cond.tasks[..|s.cond.tasks| - 1]))
    case NSend(gs, all, h) =>
      if gs != [] then At(s, t, NSend(gs[1..], all, h)).(rt := s.rt.(fired := s.rt.fired + {gs[0]}))
      else At(s, t, Return(h))
  }

  predicate Enabled<T>(s: State<T>, e: Step<T>)
    requires Wf(s)
  {
    match e
    case Lock(t, _, _) => t < |s.pc| && s.pc[t].Out?
    case Try(t) => t < |s.pc| && s.pc[t].Out?
    case Store(t, _) => t < |s.pc| && s.pc[t].In?
    case Unlock(t) => t < |s.pc| && s.pc[t].In?
    case Wait(t, _) => t < |s.pc| && s.pc[t].In?
    case Notify(t, _) => t < |s.pc| && Ready(s.pc[t])
    case Go(t) => t < |s.pc| && CanGo(s, t)
    case Spurious(t) => t < |s.pc| && CanReturn(s.pc[t])
    case Stray(t) => t < |s.pc|
    case Tick(_) => true
  }

  function Advance<T>(s: State<T>, t: Tid): State<T>
    requires Wf(s) && t < |s.pc| && CanGo(s, t)
  {
    if Acquires(s.pc[t]) then GoAcquire(s, t)
    else if Releases(s.pc[t]) then GoRelease(s, t)
    else if Awaits(s.pc[t]) then GoAwait(s, t)
    else GoNotify(s, t)
  }

  function Apply<T>(s: State<T>, e: Step<T>): State<T>
    requires Wf(s) && Enabled(s, e)
  {
    match e
    case Lock(t, how, dl) => At(s, t, Begin(how, dl))
    case Try(t) => At(s, t, TryLock)
    case Store(t, v) => s.(lock := s.lock.(value := v))
    case Unlock(t) => At(s, t, Release(Leave))
    case Wait(t, req) => Register(s, t, req)
    case Notify(t, all) => At(s, t, NSpins(all, s.pc[t].In?))
    case Go(t) => Advance(s, t)
    case Spurious(t) => At(s, t, Unparked(s.pc[t]))
    case Stray(t) => s.(rt := s.rt.(token := s.rt.token[t := true]))
    case Tick(n) => s.(rt := s.rt.(clock := s.rt.clock + n))
  }
}
