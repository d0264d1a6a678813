/** The objects of the library as the source declares them, and a thread that runs the library's code
    on them while the other threads go on.

    `Mutex` and `Condvar` have the source's fields; every method on them is one atomic action: an
    atomic operation on `data_lock`, or one closure run by `with_mut` on a list. `Platform` has what the
    standard library and the `continue` crate provide.

    A `Thread` executes code between whose actions any steps of the other threads may happen. Which
    ones do is the platform's schedule, an arbitrary input. `Thread.View` is the machine state that the
    objects stand for, and `Thread.Valid` says that it is reached by a run of the machine: so every
    theorem about runs holds of the objects.
 */
module Threads {
  import opened Basics
  import opened Monitor
  import opened MonitorSteps
  import opened MonitorSafety
  import opened MonitorRuns

  class Mutex<T> {
    var inner: T
    var dataLock: bool
    var waitingSyncThreads: seq<Tid>
    var waitingAsyncThreads: seq<Sig>

    constructor (value: T)
      ensures inner == value && !dataLock && waitingSyncThreads == [] && waitingAsyncThreads == []
    {
      inner, dataLock, waitingSyncThreads, waitingAsyncThreads := value, false, [], [];
    }

    /** `try_lock`: compare-exchange from false to true. */
    method CompareExchange() returns (ok: bool)
      modifies `dataLock
      ensures ok == !old(dataLock) && dataLock
    {
      ok := !dataLock;
      if ok { dataLock := true; }
    }

    method Swap() returns (was: bool)
      modifies `dataLock
      ensures was == old(dataLock) && dataLock
    {
      was, dataLock := dataLock, true;
    }

    /** `lock_block`'s closure on the list of threads. */
    method TryLockOrPush(current: Tid) returns (ok: bool)
      modifies `dataLock, `waitingSyncThreads
      ensures ok == !old(dataLock) && dataLock
      ensures waitingSyncThreads == if ok then old(waitingSyncThreads) else old(waitingSyncThreads) + [current]
    {
      ok := CompareExchange();
      if !ok { waitingSyncThreads := waitingSyncThreads + [current]; }
    }

    /** `lock_async`'s closure on the list of continuations. */
    method TryLockOrPushTask(sender: Sig) returns (ok: bool)
      modifies `dataLock, `waitingAsyncThreads
      ensures ok == !old(dataLock) && dataLock
      ensures waitingAsyncThreads == if ok then old(waitingAsyncThreads) else old(waitingAsyncThreads) + [sender]
    {
      ok := CompareExchange();
      if !ok { waitingAsyncThreads := waitingAsyncThreads + [sender]; }
    }

    method Clear()
      modifies `dataLock
      ensures !dataLock
    {
      dataLock := false;
    }

    method TakeThreads() returns (threads: seq<Tid>)
      modifies `waitingSyncThreads
      ensures threads == old(waitingSyncThreads) && waitingSyncThreads == []
    {
      threads, waitingSyncThreads := waitingSyncThreads, [];
    }

    method TakeTasks() returns (senders: seq<Sig>)
      modifies `waitingAsyncThreads
      ensures senders == old(waitingAsyncThreads) && waitingAsyncThreads == []
    {
      senders, waitingAsyncThreads := waitingAsyncThreads, [];
    }
  }

  /** `iter().position(..)`. */
  method Position(q: seq<nat>, x: nat) returns (pos: Option<nat>)
    ensures pos.Some? <==> x in q
    ensures pos.Some? ==> pos.value == IndexOf(q, x)
  {
    var i := 0;
    while i < |q|
      invariant i <= |q| && x !in q[..i]
      invariant x in q[i..] ==> x in q && IndexOf(q, x) == i + IndexOf(q[i..], x)
      invariant x in q ==> x in q[i..]
    {
      if q[i] == x { return Some(i); }
      assert q[i..][1..] == q[i + 1..];
      i := i + 1;
    }
    return None;
  }

  class Condvar {
    var waitingSpinThreads: seq<Sig>
    var waitingSyncThreads: seq<Tid>
    var waitingAsyncThreads: seq<Sig>

    constructor ()
      ensures waitingSpinThreads == [] && waitingSyncThreads == [] && waitingAsyncThreads == []
    {
      waitingSpinThreads, waitingSyncThreads, waitingAsyncThreads := [], [], [];
    }

    method PushThread(current: Tid)
      modifies `waitingSyncThreads
      ensures waitingSyncThreads == old(waitingSyncThreads) + [current]
    {
      waitingSyncThreads := waitingSyncThreads + [current];
    }

    method PushSpin(wake: Sig)
      modifies `waitingSpinThreads
      ensures waitingSpinThreads == old(waitingSpinThreads) + [wake]
    {
      waitingSpinThreads := waitingSpinThreads + [wake];
    }

    /** `wait_block_timeout`'s closure at the deadline: not notified means that it removed itself. */
    method RemoveThread(current: Tid) returns (notified: bool)
      modifies `waitingSyncThreads
      ensures notified <==> current !in old(waitingSyncThreads)
      ensures waitingSyncThreads
              == if notified then old(waitingSyncThreads) else Without(old(waitingSyncThreads), current)
    {
      var pos := Position(waitingSyncThreads, current);
      if pos.Some? {
        waitingSyncThreads := waitingSyncThreads[..pos.value] + waitingSyncThreads[pos.value + 1..];
      }
      notified := pos.None?;
    }

    /** The same of `wait_spin_timeout`. */
    method RemoveSpin(wake: Sig) returns (notified: bool)
      modifies `waitingSpinThreads
      ensures notified <==> wake !in old(waitingSpinThreads)
      ensures waitingSpinThreads == if notified then old(waitingSpinThreads) else Without(old(waitingSpinThreads), wake)
    {
      var pos := Position(waitingSpinThreads, wake);
      if pos.Some? {
        waitingSpinThreads := waitingSpinThreads[..pos.value] + waitingSpinThreads[pos.value + 1..];
      }
      notified := pos.None?;
    }

    method PopSpin() returns (wake: Option<Sig>)
      modifies `waitingSpinThreads
      ensures old(waitingSpinThreads) == [] ==> wake.None? && waitingSpinThreads == []
      ensures old(waitingSpinThreads) != []
              ==> wake == Some(Last(old(waitingSpinThreads)))
                  && waitingSpinThreads == old(waitingSpinThreads)[..|old(waitingSpinThreads)| - 1]
    {
      wake := if waitingSpinThreads == [] then None else Some(Last(waitingSpinThreads));
      if wake.Some? { waitingSpinThreads := waitingSpinThreads[..|waitingSpinThreads| - 1]; }
    }

    method PopThread() returns (thread: Option<Tid>)
      modifies `waitingSyncThreads
      ensures old(waitingSyncThreads) == [] ==> thread.None? && waitingSyncThreads == []
      ensures old(waitingSyncThreads) != []
              ==> thread == Some(Last(old(waitingSyncThreads)))
                  && waitingSyncThreads == old(waitingSyncThreads)[..|old(waitingSyncThreads)| - 1]
    {
      thread := if waitingSyncThreads == [] then None else Some(Last(waitingSyncThreads));
      if thread.Some? { waitingSyncThreads := waitingSyncThreads[..|waitingSyncThreads| - 1]; }
    }

    method PopTask() returns (waiter: Option<Sig>)
      modifies `waitingAsyncThreads
      ensures old(waitingAsyncThreads) == [] ==> waiter.None? && waitingAsyncThreads == []
      ensures old(waitingAsyncThreads) != []
              ==> waiter == Some(Last(old(waitingAsyncThreads)))
                  && waitingAsyncThreads == old(waitingAsyncThreads)[..|old(waitingAsyncThreads)| - 1]
    {
      waiter := if waitingAsyncThreads == [] then None else Some(Last(waitingAsyncThreads));
      if waiter.Some? { waitingAsyncThreads := waitingAsyncThreads[..|waitingAsyncThreads| - 1]; }
    }

    method TakeSpins() returns (threads: seq<Sig>)
      modifies `waitingSpinThreads
      ensures threads == old(waitingSpinThreads) && waitingSpinThreads == []
    {
      threads, waitingSpinThreads := waitingSpinThreads, [];
    }

    method TakeThreads() returns (threads: seq<Tid>)
      modifies `waitingSyncThreads
      ensures threads == old(waitingSyncThreads) && waitingSyncThreads == []
    {
      threads, waitingSyncThreads := waitingSyncThreads, [];
    }

    method TakeTasks() returns (waiters: seq<Sig>)
      modifies `waitingAsyncThreads
      ensures waiters == old(waitingAsyncThreads) && waitingAsyncThreads == []
    {
      waiters, waitingAsyncThreads := waitingAsyncThreads, [];
    }
  }

  /** What may happen between two actions of a thread: steps of the others, and, if the thread is
      parked, a spurious return. */
  datatype Beat<T> = Beat(others: seq<Step<T>>, spurious: bool)

  /** The spurious returns that a schedule has for the thread. */
  function SpuriousIn<T>(beats: seq<Beat<T>>): nat {
    if beats == [] then 0 else Bit(beats[0].spurious) + SpuriousIn(beats[1..])
  }

  /** Park tokens, one-shot flags and the clock. `pc` says where in the library's code each thread is,
      `hist` and `trace` are history. */
  class Platform<T> {
    var token: seq<bool>
    var flags: set<Sig>
    var fired: set<Sig>
    var next: Sig
    var clock: nat
    var pc: seq<Pc>
    var hist: History
    var schedule: seq<Beat<T>>
    ghost var trace: seq<Step<T>>
    ghost const origin: State<T>

    constructor (n: nat, value: T, beats: seq<Beat<T>>)
      ensures origin == Init(n, value) && trace == [] && schedule == beats
      ensures token == origin.rt.token && pc == origin.pc && hist == origin.hist
      ensures flags == {} && fired == {} && next == 0 && clock == 0
    {
      var s := Init(n, value);
      token, flags, fired, next, clock := s.rt.token, {}, {}, 0, 0;
      pc, hist, schedule, trace, origin := s.pc, s.hist, beats, [], s;
    }
  }

  // ------------------------------------------------------------ the other threads

  /** What steps of the other threads leave alone, seen from thread `t`. */
  ghost predicate Undisturbed<T>(s: State<T>, s': State<T>, t: Tid) {
    && Wf(s) && Wf(s') && t < |s.pc| && |s'.pc| == |s.pc|
    && s'.pc[t] == s.pc[t]
    && (s.rt.token[t] ==> s'.rt.token[t])
    && s.rt.clock <= s'.rt.clock
    && (Holds(s.pc[t]) ==> s'.lock.value == s.lock.value)
  }

  lemma ClockGrows<T>(s: State<T>, e: Step<T>)
    requires Wf(s) && Enabled(s, e)
    ensures s.rt.clock <= Apply(s, e).rt.clock
  {
  }

  lemma OtherStep<T>(s: State<T>, e: Step<T>, t: Tid)
    requires Inv(s) && Enabled(s, e) && t < |s.pc| && !IsBy(e, t)
    ensures Undisturbed(s, Apply(s, e), t)
  {
    hide Apply, Enabled;
    WfStep(s, e);
    ClockGrows(s, e);
    OtherMoves(s, e, t);
    if Holds(s.pc[t]) {
      GuardedValue(s, e, t);
    }
  }

  lemma OtherMoves<T>(s: State<T>, e: Step<T>, t: Tid)
    requires Inv(s) && Enabled(s, e) && t < |s.pc| && !IsBy(e, t)
    ensures var s' := Apply(s, e);
            Wf(s') && |s'.pc| == |s.pc| && s'.pc[t] == s.pc[t] && (s.rt.token[t] ==> s'.rt.token[t])
  {
    hide Advance;
    WfStep(s, e);
    if !e.Tick? {
      StepBounded(s, e);
      if !e.Stray? {
        SpinsBelow(s);
        StepFacts(s, e, t);
      }
    }
  }

  /** Thread `t`, at `p`, may begin call `e`. */
  predicate Starts<T>(e: Step<T>, t: Tid, p: Pc) {
    match e
    case Lock(u, _, _) => u == t && p.Out?
    case Try(u) => u == t && p.Out?
    case Unlock(u) => u == t && p.In?
    case Notify(u, _) => u == t && Ready(p)
    case _ => false
  }

  /** Where the call begins. */
  function Start<T>(e: Step<T>, p: Pc): Pc
    requires e.Lock? || e.Try? || e.Unlock? || e.Notify?
  {
    match e
    case Lock(_, how, dl) => Begin(how, dl)
    case Try(_) => TryLock
    case Unlock(_) => Release(Leave)
    case Notify(_, all) => NSpins(all, p.In?)
  }

  /** Where a look at the clock leads. */
  function AfterClock(p: Pc, expired: bool): Pc
    requires p.SpinClock? || p.BlockClock? || p.TaskClock? || p.TaskTimer? || p.CvClock? || p.CvSpinClock?
  {
    match p
    case SpinClock(limit, r) => if expired then Out else SpinSwap(Some(limit), r)
    case BlockClock(limit, r) => if expired then LastTry else BlockEnter(Some(limit), r)
    case TaskClock(limit, r) => if expired then LastTry else TaskEnter(Some(limit), r)
    case TaskTimer(id, limit, r) => if expired then Out else TaskPoll(id, Some(limit), r)
    case CvClock(limit, sync) => if expired then CvRemove(sync) else CvParkUntil(limit, sync)
    case CvSpinClock(id, limit, sync) => if expired then CvSpinRemove(id, sync) else CvSpin(id, Some(limit), sync)
  }

  lemma AcquireGo<T>(s: State<T>, t: Tid)
    requires Wf(s) && t < |s.pc| && CanGo(s, t) && Acquires(s.pc[t])
    ensures Enabled(s, Go(t)) && Apply(s, Go(t)) == GoAcquire(s, t)
  {
  }

  lemma ReleaseGo<T>(s: State<T>, t: Tid)
    requires Wf(s) && t < |s.pc| && Releases(s.pc[t])
    ensures Enabled(s, Go(t)) && Apply(s, Go(t)) == GoRelease(s, t)
  {
  }

  lemma NotifyGo<T>(s: State<T>, t: Tid)
    requires Wf(s) && t < |s.pc| && Notifies(s.pc[t])
    ensures Enabled(s, Go(t)) && Apply(s, Go(t)) == GoNotify(s, t)
  {
  }

  /** The last thread, if there is one. */
  lemma OneThreadGo<T>(s: State<T>, t: Tid)
    requires Wf(s) && t < |s.pc| && s.pc[t].NThreads? && !s.pc[t].all
    ensures s.cond.threads != [] ==> Last(s.cond.threads) < |s.hist.popped|
    ensures Enabled(s, Go(t)) && Apply(s, Go(t))
            == if s.cond.threads == [] then At(s, t, NTasks(false, s.pc[t].inside))
               else At(s, t, NUnpark([Last(s.cond.threads)], false, s.pc[t].inside))
                 .(cond := s.cond.(threads := s.cond.threads[..|s.cond.threads| - 1]),
                   hist := s.hist.(popped := s.hist.popped[Last(s.cond.threads) := true], pops := s.hist.pops + 1))
  {
  }

  lemma AwaitGo<T>(s: State<T>, t: Tid)
    requires Wf(s) && t < |s.pc| && CanGo(s, t) && Awaits(s.pc[t])
    ensures Enabled(s, Go(t)) && Apply(s, Go(t)) == GoAwait(s, t)
  {
  }

  /** The limit of the park that the thread is in. */
  function ParkLimit(p: Pc): Deadline
    requires CanReturn(p)
  {
    match p
    case BlockPark(dl, _) => dl
    case CvPark(_) => None
    case CvParkUntil(limit, _) => Some(limit)
  }

  /** A loop over a list that the thread took. */
  predicate Looping(p: Pc) { p.WakeThreads? || p.WakeTasks? || p.NStore? || p.NUnpark? || p.NSend? }

  /** The same loop with `q` left to do. */
  function OnList(p: Pc, q: seq<nat>): Pc
    requires Looping(p)
  {
    match p
    case WakeThreads(_, a) => WakeThreads(q, a)
    case WakeTasks(_, a) => WakeTasks(q, a)
    case NStore(_, all, h) => NStore(q, all, h)
    case NUnpark(_, all, h) => NUnpark(q, all, h)
    case NSend(_, all, h) => NSend(q, all, h)
  }

  /** What is left to do. */
  function Left(p: Pc): seq<nat>
    requires Looping(p)
  {
    if p.NStore? then Stores(p) else if p.WakeThreads? || p.NUnpark? then Unparks(p) else Sends(p)
  }

  /** The same loop past its first element. */
  function Rest(p: Pc): Pc
    requires Looping(p) && Left(p) != []
  {
    OnList(p, Left(p)[1..])
  }

  /** At the end of such a loop. */
  predicate Drained(p: Pc) {
    Looping(p) && Left(p) == []
  }

  function Then(p: Pc): Pc
    requires Drained(p)
  {
    match p
    case WakeThreads(_, a) => TakeTasks(a)
    case WakeTasks(_, a) => Proceed(a)
    case NStore(_, all, h) => if all then NThreads(all, h) else Return(h)
    case NUnpark(_, all, h) => if all then NTasks(all, h) else Return(h)
    case NSend(_, _, h) => Return(h)
  }

  // ------------------------------------------------------------ a thread

  class Thread<T> {
    const id: Tid
    const m: Mutex<T>
    const c: Condvar
    const p: Platform<T>

    /** The machine state the objects stand for. */
    function View(): State<T>
      reads m, c, p
    {
      State(LockState(m.inner, m.dataLock, m.waitingSyncThreads, m.waitingAsyncThreads),
            CondState(c.waitingSpinThreads, c.waitingSyncThreads, c.waitingAsyncThreads),
            Runtime(p.token, p.flags, p.fired, p.next, p.clock), p.pc, p.hist)
    }

    /** The objects are in a state that a run of the machine reaches: the run recorded in `trace`. */
    ghost predicate Valid()
      reads m, c, p
      ensures Valid() ==> id < |p.pc| == |p.token|
    {
      && p.origin == Init(|p.origin.pc|, p.origin.lock.value)
      && Possible(p.origin, p.trace) && View() == Exec(p.origin, p.trace)
      && Wf(View()) && id < |p.pc|
    }

    constructor (current: Tid, mutex: Mutex<T>, condvar: Condvar, platform: Platform<T>)
      ensures id == current && m == mutex && c == condvar && p == platform
    {
      id, m, c, p := current, mutex, condvar, platform;
    }

    lemma Sound()
      requires Valid()
      ensures Inv(View())
    {
      InvReachable(|p.origin.pc|, p.origin.lock.value, p.trace);
    }

    /** The thread took exactly step `e`. */
    twostate predicate Did(new e: Step<T>)
      reads m, c, p
    {
      && old(Valid()) && Enabled(old(View()), e) && View() == Apply(old(View()), e)
      && p.trace == old(p.trace) + [e] && p.schedule == old(p.schedule)
      && p.clock == old(p.clock) && |p.pc| == old(|p.pc|)
      && Calls(p.trace, id) == old(Calls(p.trace, id)) + OwnCall(e, id)
      && Foreign(p.trace, id) == old(Foreign(p.trace, id))
      && Spurts(p.trace, id) == old(Spurts(p.trace, id)) + Bit(e == Spurious(id))
      && Valid()
    }

    /** Only other threads took steps. */
    twostate predicate Paused()
      reads m, c, p
    {
      && old(Valid()) && Undisturbed(old(View()), View(), id)
      && |p.pc| == old(|p.pc|) && p.pc[id] == old(p.pc[id]) && old(p.clock) <= p.clock
      && old(p.trace) <= p.trace && Calls(p.trace, id) == old(Calls(p.trace, id))
      && Spurts(p.trace, id) == old(Spurts(p.trace, id)) && SpuriousIn(p.schedule) <= old(SpuriousIn(p.schedule))
      && (if old(p.schedule) == []
          then p.schedule == [] && p.trace == old(p.trace) && p.token == old(p.token) && p.fired == old(p.fired)
               && p.clock == old(p.clock)
          else |p.schedule| < old(|p.schedule|))
      && Valid()
    }

    /** The thread made the calls `calls`, and otherwise took only the steps of the library inside them. Its park has
        returned spuriously at most as often as the schedule had it; and once the schedule is over nobody else moves. */
    twostate predicate Ran(new calls: seq<Step<T>>)
      reads m, c, p
    {
      && old(Valid()) && Valid()
      && old(p.trace) <= p.trace && Calls(p.trace, id) == old(Calls(p.trace, id)) + calls
      && |p.schedule| <= old(|p.schedule|) && old(p.clock) <= p.clock && |p.pc| == old(|p.pc|)
      && SpuriousIn(p.schedule) <= old(SpuriousIn(p.schedule))
      && Spurts(p.trace, id) + SpuriousIn(p.schedule) <= old(Spurts(p.trace, id) + SpuriousIn(p.schedule))
      && (old(p.schedule) == [] ==> Foreign(p.trace, id) == old(Foreign(p.trace, id)))
    }

    /** What happened since, if the thread made no call: a run of the machine. */
    twostate lemma Since()
      requires old(Valid()) && Ran([])
      ensures exists es :: Meanwhile(old(View()), View(), id, es)
    {
      hide Apply, Enabled, Init, Calls;
      hide Foreign, Spurts, SpuriousIn;
      var before, more := old(p.trace), p.trace[|old(p.trace)|..];
      assert p.trace == before + more;
      ExecSplit(p.origin, before, more);
      SameCalls(before, p.trace, id);
      assert Meanwhile(old(View()), View(), id, more);
    }

    /** Stores a machine state in the objects. */
    method Put(s: State<T>)
      modifies m, c, p`token, p`flags, p`fired, p`next, p`clock, p`pc, p`hist
      ensures View() == s
    {
      m.inner, m.dataLock, m.waitingSyncThreads, m.waitingAsyncThreads
        := s.lock.value, s.lock.held, s.lock.threads, s.lock.tasks;
      c.waitingSpinThreads, c.waitingSyncThreads, c.waitingAsyncThreads := s.cond.spins, s.cond.threads, s.cond.tasks;
      p.token, p.flags, p.fired, p.next, p.clock := s.rt.token, s.rt.flags, s.rt.fired, s.rt.next, s.rt.clock;
      p.pc, p.hist := s.pc, s.hist;
    }

    /** The next beat of the schedule: those of its steps that other threads can take. */
    method NextBeat() returns (spurious: bool)
      requires Valid()
      modifies m, c, p
      ensures Paused() && (spurious ==> SpuriousIn(p.schedule) < old(SpuriousIn(p.schedule)))
    {
      hide Apply, Enabled, Inv, Init;
      Sound();
      if p.schedule == [] { return false; }
      var b := p.schedule[0];
      p.schedule := p.schedule[1..];
      var i := 0;
      while i < |b.others|
        invariant i <= |b.others| && Valid() && p.schedule == old(p.schedule)[1..]
        invariant Undisturbed(old(View()), View(), id)
        invariant old(p.trace) <= p.trace && Calls(p.trace, id) == old(Calls(p.trace, id))
        invariant Spurts(p.trace, id) == old(Spurts(p.trace, id))
      {
        var e := b.others[i];
        if Enabled(View(), e) && !IsBy(e, id) {
          Sound();
          OtherStep(View(), e, id);
          ExecSnoc(p.origin, p.trace, e);
          CallsSnoc(p.trace, e, id);
          CountsSnoc(p.trace, e, id);
          p.trace := p.trace + [e];
          Put(Apply(View(), e));
        }
        i := i + 1;
      }
      return b.spurious;
    }

    method Others()
      requires Valid()
      modifies m, c, p
      ensures Paused()
    {
      var _ := NextBeat();
    }

    // ---------------------------------------------------------- actions

    /** The thread goes to `q` by step `e`, its last action on the objects, taken in state `s`. */
    method Goto(q: Pc, ghost e: Step<T>, ghost s: State<T>)
      requires p.origin == Init(|p.origin.pc|, p.origin.lock.value)
      requires Possible(p.origin, p.trace) && s == Exec(p.origin, p.trace) && id < |s.pc|
      requires Enabled(s, e) && IsBy(e, id) && p.pc == s.pc && At(View(), id, q) == Apply(s, e)
      modifies p`pc, p`trace
      ensures View() == Apply(s, e) && p.trace == old(p.trace) + [e]
      ensures Valid() && p.pc[id] == q
      ensures Calls(p.trace, id) == old(Calls(p.trace, id)) + OwnCall(e, id)
      ensures Foreign(p.trace, id) == old(Foreign(p.trace, id))
      ensures Spurts(p.trace, id) == old(Spurts(p.trace, id)) + Bit(e == Spurious(id))
    {
      hide Apply, Enabled, Init;
      WfStep(s, e);
      ExecSnoc(p.origin, p.trace, e);
      CallsSnoc(p.trace, e, id);
      CountsSnoc(p.trace, e, id);
      p.pc := p.pc[id := q];
      p.trace := p.trace + [e];
    }

    /** Begins a call of the library. */
    method Begin(e: Step<T>)
      requires Valid() && Starts(e, id, p.pc[id])
      modifies p`pc, p`trace
      ensures Did(e) && p.pc[id] == Start(e, old(p.pc[id]))
    {
      Goto(Start(e, p.pc[id]), e, View());
    }

    /** A write through the guard. */
    method Store(v: T)
      requires Valid() && p.pc[id].In?
      modifies m`inner, p`pc, p`trace
      ensures Did(Step.Store(id, v)) && p.pc == old(p.pc) && m.inner == v
    {
      ghost var s := View();
      m.inner := v;
      assert p.pc[id := p.pc[id]] == p.pc;
      Goto(p.pc[id], Step.Store(id, v), s);
    }

    /** `try_lock`, as a call of its own or as the last attempt of a timed acquisition. */
    method Attempt() returns (ok: bool)
      requires Valid() && (p.pc[id].TryLock? || p.pc[id].LastTry?)
      modifies m`dataLock, p`pc, p`trace
      ensures Did(Go(id))
      ensures p.pc[id] == (if ok then In(Fresh) else Out) && ok == !old(m.dataLock)
    {
      hide Possible, Exec, Calls, Init, Apply, Enabled;
      hide Foreign, Spurts, SpuriousIn;
      ghost var s := View();
      AcquireGo(s, id);
      ok := m.CompareExchange();
      Goto(if ok then In(Fresh) else Out, Go(id), s);
    }

    /** The swap of `lock_spin` and `lock_spin_timeout`. One that finds the lock held is no step of the
        untimed loop: it changes nothing. */
    method Swap() returns (was: bool)
      requires Valid() && p.pc[id].SpinSwap?
      modifies m`dataLock, p`pc, p`trace
      ensures was == old(m.dataLock) && m.dataLock
      ensures !was ==> Did(Go(id)) && p.pc[id] == In(old(p.pc[id].reply))
      ensures was && old(p.pc[id]).dl.Some?
              ==> Did(Go(id)) && p.pc[id] == SpinClock(old(p.pc[id]).dl.value, old(p.pc[id].reply))
      ensures was && old(p.pc[id]).dl.None? ==> p.pc == old(p.pc) && p.trace == old(p.trace) && Valid()
    {
      hide Possible, Exec, Calls, Init, Apply, Enabled;
      hide Foreign, Spurts, SpuriousIn;
      ghost var s := View();
      if CanGo(s, id) { AcquireGo(s, id); }
      var at := p.pc[id];
      was := m.Swap();
      if !was {
        Goto(In(at.reply), Go(id), s);
      } else if at.dl.Some? {
        Goto(SpinClock(at.dl.value, at.reply), Go(id), s);
      }
    }

    /** `lock_block`'s critical section on the list. */
    method TryLockOrPush() returns (ok: bool)
      requires Valid() && p.pc[id].BlockEnter?
      modifies m`dataLock, m`waitingSyncThreads, p`pc, p`trace
      ensures Did(Go(id)) && ok == !old(m.dataLock)
      ensures p.pc[id] == if ok then In(old(p.pc[id].reply)) else BlockPark(old(p.pc[id].dl), old(p.pc[id].reply))
    {
      hide Possible, Exec, Calls, Init, Apply, Enabled;
      hide Foreign, Spurts, SpuriousIn;
      ghost var s := View();
      AcquireGo(s, id);
      var at := p.pc[id];
      ok := m.TryLockOrPush(id);
      Goto(if ok then In(at.reply) else BlockPark(at.dl, at.reply), Go(id), s);
    }

    /** `lock_async`'s. */
    method TryLockOrPushTask() returns (ok: bool)
      requires Valid() && p.pc[id].TaskEnter?
      modifies m`dataLock, m`waitingAsyncThreads, p`next, p`pc, p`trace
      ensures Did(Go(id)) && ok == !old(m.dataLock)
      ensures p.pc[id] == if ok then In(old(p.pc[id].reply))
                          else TaskPoll(old(p.next), old(p.pc[id].dl), old(p.pc[id].reply))
    {
      hide Possible, Exec, Calls, Init, Apply, Enabled, CanGo;
      hide Foreign, Spurts, SpuriousIn;
      ghost var s := View();
      AcquireGo(s, id);
      var at, sender := p.pc[id], p.next;
      ok := m.TryLockOrPushTask(sender);
      if !ok { p.next := p.next + 1; }
      Goto(if ok then In(at.reply) else TaskPoll(sender, at.dl, at.reply), Go(id), s);
    }

    /** A poll of the continuation that finds it sent. */
    method Polled()
      requires Valid() && p.pc[id].TaskPoll? && p.pc[id].id in p.fired
      modifies p`pc, p`trace
      ensures Did(Go(id)) && p.pc[id] == EnterTask(old(p.pc[id].dl), old(p.pc[id].reply))
    {
      hide Possible, Exec, Calls, Init, Apply, Enabled;
      hide Foreign, Spurts, SpuriousIn;
      AcquireGo(View(), id);
      Goto(EnterTask(p.pc[id].dl, p.pc[id].reply), Go(id), View());
    }

    /** A poll that does not; the timer's is next. */
    method NotYet()
      requires Valid() && p.pc[id].TaskPoll? && p.pc[id].id !in p.fired && p.pc[id].dl.Some?
      modifies p`pc, p`trace
      ensures Did(Go(id))
      ensures p.pc[id] == TaskTimer(old(p.pc[id].id), old(p.pc[id].dl).value, old(p.pc[id].reply))
    {
      hide Possible, Exec, Calls, Init, Apply, Enabled;
      hide Foreign, Spurts, SpuriousIn;
      AcquireGo(View(), id);
      Goto(TaskTimer(p.pc[id].id, p.pc[id].dl.value, p.pc[id].reply), Go(id), View());
    }

    /** `Instant::now() >= deadline` in an acquisition. */
    method LockExpired() returns (expired: bool)
      requires Valid() && (p.pc[id].SpinClock? || p.pc[id].BlockClock? || p.pc[id].TaskClock? || p.pc[id].TaskTimer?)
      modifies p`pc, p`trace
      ensures Did(Go(id)) && expired == (p.clock >= old(p.pc[id]).limit)
      ensures p.pc[id] == AfterClock(old(p.pc[id]), expired)
    {
      hide Possible, Exec, Calls, Init, GoRelease, GoNotify;
      hide Foreign, Spurts, SpuriousIn;
      expired := p.clock >= p.pc[id].limit;
      Goto(AfterClock(p.pc[id], expired), Go(id), View());
    }

    /** The same in a wait. */
    method WaitExpired() returns (expired: bool)
      requires Valid() && (p.pc[id].CvClock? || p.pc[id].CvSpinClock?)
      modifies p`pc, p`trace
      ensures Did(Go(id)) && expired == (p.clock >= old(p.pc[id]).limit)
      ensures p.pc[id] == AfterClock(old(p.pc[id]), expired)
    {
      hide Possible, Exec, Calls, Init, GoRelease, GoNotify, GoAcquire;
      hide Foreign, Spurts, SpuriousIn;
      expired := p.clock >= p.pc[id].limit;
      Goto(AfterClock(p.pc[id], expired), Go(id), View());
    }

    /** `park` and `park_timeout`. The thread stays parked only without a token, with time left, and
        until the schedule ends. */
    method Park(dl: Deadline) returns (woke: bool)
      requires Valid() && CanReturn(p.pc[id]) && dl == ParkLimit(p.pc[id])
      modifies m, c, p
      ensures Ran([])
      ensures woke ==> p.pc[id] == Unparked(old(p.pc[id]))
      ensures woke ==> |p.schedule| < old(|p.schedule|)
                       || (p.schedule == old(p.schedule) && old(p.token[id]) && !p.token[id])
                       || (p.schedule == old(p.schedule) && dl.Some? && old(p.clock) >= dl.value)
      ensures woke && dl.None? && SpuriousIn(p.schedule) == old(SpuriousIn(p.schedule))
              ==> TookToken(|p.trace| - 1, old(p.pc[id])) && old(|p.trace|) < |p.trace|
      ensures !woke ==> p.pc[id] == old(p.pc[id]) && p.schedule == [] && !p.token[id]
                        && (dl.Some? ==> p.clock < dl.value)
    {
      hide Apply, Enabled, Init, Possible, Exec, Unparked, Calls, Foreign, Spurts, SpuriousIn;
      while true
        invariant Ran([]) && p.pc[id] == old(p.pc[id]) && SpuriousIn(p.schedule) <= old(SpuriousIn(p.schedule))
        invariant Spurts(p.trace, id) == old(Spurts(p.trace, id))
        invariant (p.schedule == old(p.schedule) && p.token == old(p.token) && p.clock == old(p.clock))
                  || |p.schedule| < old(|p.schedule|)
        decreases |p.schedule|
      {
        if p.token[id] { TakeToken(); return true; }
        if dl.Some? && p.clock >= dl.value { TimeIsUp(); return true; }
        if p.schedule == [] { return false; }
        var spurious := NextBeat();
        if spurious { ReturnWithout(); return true; }
      }
    }

    /** The run records, at index `at`, that the thread's park at `park` returned with its token. */
    ghost predicate TookToken(at: nat, park: Pc)
      reads p
    {
      && at < |p.trace| && p.trace[at] == Go(id) && Wf(p.origin) && Possible(p.origin, p.trace[..at])
      && var s := Exec(p.origin, p.trace[..at]);
         id < |s.pc| && s.pc[id] == park && s.rt.token[id]
    }

    twostate lemma StillTook(new at: nat, new park: Pc)
      requires old(TookToken(at, park)) && old(p.trace) <= p.trace
      ensures TookToken(at, park)
    {
      hide Possible, Exec;
      assert p.trace[..at] == old(p.trace)[..at];
    }

    /** `park_timeout` returns at its limit, without a token. */
    method TimeIsUp()
      requires Valid() && CanReturn(p.pc[id]) && !p.token[id]
      requires ParkLimit(p.pc[id]).Some? && p.clock >= ParkLimit(p.pc[id]).value
      modifies p`pc, p`trace
      ensures Did(Go(id)) && p.pc[id] == Unparked(old(p.pc[id]))
    {
      hide Possible, Exec, Calls, Init, GoRelease, GoNotify;
      hide Foreign, Spurts, SpuriousIn;
      assert p.token[id := false] == p.token;
      Goto(Unparked(p.pc[id]), Go(id), View());
    }

    method TakeToken()
      requires Valid() && CanReturn(p.pc[id]) && p.token[id]
      modifies p`token, p`pc, p`trace
      ensures Did(Go(id)) && p.pc[id] == Unparked(old(p.pc[id])) && !p.token[id]
      ensures TookToken(|p.trace| - 1, old(p.pc[id]))
    {
      hide Possible, Exec, Calls, Init, GoRelease, GoNotify;
      hide Foreign, Spurts, SpuriousIn;
      ghost var s := View();
      p.token := p.token[id := false];
      Goto(Unparked(p.pc[id]), Go(id), s);
      assert p.trace[..|p.trace| - 1] == old(p.trace);
    }

    method ReturnWithout()
      requires Valid() && CanReturn(p.pc[id])
      modifies p`pc, p`trace
      ensures Did(Spurious(id)) && p.pc[id] == Unparked(old(p.pc[id]))
    {
      hide Possible, Exec, Calls, Init, Advance, Foreign, Spurts, SpuriousIn;
      Goto(Unparked(p.pc[id]), Spurious(id), View());
    }

    /** The store in `Guard::drop`. */
    method ClearLock()
      requires Valid() && p.pc[id].Release?
      modifies m`dataLock, p`pc, p`trace
      ensures Did(Go(id)) && p.pc[id] == TakeThreads(old(p.pc[id].after)) && !m.dataLock
    {
      hide Possible, Exec, Calls, Init, Apply, Enabled;
      hide Foreign, Spurts, SpuriousIn;
      ghost var s := View();
      ReleaseGo(s, id);
      m.Clear();
      Goto(TakeThreads(p.pc[id].after), Go(id), s);
    }

    method TakeLockThreads() returns (threads: seq<Tid>)
      requires Valid() && p.pc[id].TakeThreads?
      modifies m`waitingSyncThreads, p`pc, p`trace
      ensures Did(Go(id)) && p.pc[id] == WakeThreads(threads, old(p.pc[id].after))
      ensures threads == old(m.waitingSyncThreads) && m.waitingSyncThreads == []
    {
      hide Possible, Exec, Calls, Init, Apply, Enabled;
      hide Foreign, Spurts, SpuriousIn;
      ghost var s := View();
      ReleaseGo(s, id);
      threads := m.TakeThreads();
      Goto(WakeThreads(threads, p.pc[id].after), Go(id), s);
    }

    method TakeLockTasks() returns (senders: seq<Sig>)
      requires Valid() && p.pc[id].TakeTasks?
      modifies m`waitingAsyncThreads, p`pc, p`trace
      ensures Did(Go(id)) && p.pc[id] == WakeTasks(senders, old(p.pc[id].after))
      ensures senders == old(m.waitingAsyncThreads) && m.waitingAsyncThreads == []
    {
      hide Possible, Exec, Calls, Init, Apply, Enabled;
      hide Foreign, Spurts, SpuriousIn;
      ghost var s := View();
      ReleaseGo(s, id);
      senders := m.TakeTasks();
      Goto(WakeTasks(senders, p.pc[id].after), Go(id), s);
    }

    /** `thread.unpark()` for the next thread of the list this thread took. */
    method UnparkNext()
      requires Valid() && Unparks(p.pc[id]) != []
      modifies p`token, p`pc, p`trace
      ensures Did(Go(id)) && p.pc[id] == Rest(old(p.pc[id]))
      ensures old(Unparks(p.pc[id])[0]) < |p.token| && p.token == old(p.token)[old(Unparks(p.pc[id])[0]) := true]
    {
      hide Possible, Exec, Calls, Init, Apply, Enabled, CanGo;
      hide Foreign, Spurts, SpuriousIn;
      ghost var s := View();
      if Releases(s.pc[id]) { ReleaseGo(s, id); } else { NotifyGo(s, id); }
      assert Below(Unparks(p.pc[id]), |p.pc|);
      p.token := p.token[Unparks(p.pc[id])[0] := true];
      Goto(Rest(p.pc[id]), Go(id), s);
    }

    /** `sender.send(())` for the next continuation. */
    method SendNext()
      requires Valid() && Sends(p.pc[id]) != []
      modifies p`fired, p`pc, p`trace
      ensures Did(Go(id)) && p.pc[id] == Rest(old(p.pc[id]))
      ensures p.fired == old(p.fired) + {old(Sends(p.pc[id])[0])}
    {
      hide Possible, Exec, Calls, Init, Apply, Enabled, CanGo;
      hide Foreign, Spurts, SpuriousIn;
      ghost var s := View();
      if Releases(s.pc[id]) { ReleaseGo(s, id); } else { NotifyGo(s, id); }
      p.fired := p.fired + {Sends(p.pc[id])[0]};
      Goto(Rest(p.pc[id]), Go(id), s);
    }

    /** The store of the next spin flag. */
    method StoreNext()
      requires Valid() && Stores(p.pc[id]) != []
      modifies p`flags, p`pc, p`trace
      ensures Did(Go(id)) && p.pc[id] == Rest(old(p.pc[id]))
      ensures p.flags == old(p.flags) + {old(Stores(p.pc[id])[0])}
    {
      hide Possible, Exec, Calls, Init, Apply, Enabled, CanGo;
      hide Foreign, Spurts, SpuriousIn;
      ghost var s := View();
      NotifyGo(s, id);
      p.flags := p.flags + {Stores(p.pc[id])[0]};
      Goto(Rest(p.pc[id]), Go(id), s);
    }

    /** `for waiter in waiters`: unpark, send to or set each, others going on in between. */
    method SignalEach(waiters: seq<nat>)
      requires Valid() && Looping(p.pc[id]) && Left(p.pc[id]) == waiters
      modifies m, c, p
      ensures Ran([]) && p.pc[id] == Then(OnList(old(p.pc[id]), []))
    {
      hide Apply, Enabled, Init, Possible, Exec, Calls, Undisturbed, Valid, View, Then;
      hide Foreign, Spurts, SpuriousIn;
      ghost var at := p.pc[id];
      var i := 0;
      while i < |waiters|
        invariant i <= |waiters| && Ran([]) && p.pc[id] == OnList(at, waiters[i..])
      {
        SignalNext();
        assert waiters[i..][1..] == waiters[i + 1..];
        i := i + 1;
      }
      EndLoop();
    }

    method SignalNext()
      requires Valid() && Looping(p.pc[id]) && Left(p.pc[id]) != []
      modifies m, c, p
      ensures Ran([]) && p.pc[id] == Rest(old(p.pc[id]))
    {
      hide Apply, Enabled, Init, Possible, Exec, Calls, Undisturbed, Valid, View, Rest;
      hide Foreign, Spurts, SpuriousIn;
      Others();
      if p.pc[id].NStore? {
        StoreNext();
      } else if p.pc[id].WakeTasks? || p.pc[id].NSend? {
        SendNext();
      } else {
        UnparkNext();
      }
    }

    /** The end of a loop over a list this thread took. */
    method EndLoop()
      requires Valid() && Drained(p.pc[id])
      modifies p`pc, p`trace
      ensures Did(Go(id)) && p.pc[id] == Then(old(p.pc[id]))
    {
      hide Possible, Exec, Calls, Init, GoAcquire, GoAwait;
      hide Foreign, Spurts, SpuriousIn;
      Goto(Then(p.pc[id]), Go(id), View());
    }

    // ---------------------------------------------------------- actions of the waits

    /** `wait_block` and `wait_block_timeout` push the current thread. */
    method PushThread(req: Request)
      requires Valid() && p.pc[id].In? && (req.WaitBlock? || req.WaitBlockTimeout?)
      modifies c`waitingSyncThreads, p`pc, p`hist, p`trace
      ensures Did(Wait(id, req))
      ensures p.pc[id]
              == Release(Resume(if req.WaitBlock? then OnThread(req.sync) else OnThreadUntil(req.limit, req.sync)))
      ensures c.waitingSyncThreads == old(c.waitingSyncThreads) + [id]
    {
      hide Possible, Exec, Calls, Init, Advance;
      hide Foreign, Spurts, SpuriousIn;
      ghost var s := View();
      c.PushThread(id);
      p.hist := Registered(p.hist, id);
      Goto(Release(Resume(if req.WaitBlock? then OnThread(req.sync) else OnThreadUntil(req.limit, req.sync))),
           Wait(id, req), s);
    }

    /** `wait_spin` and `wait_spin_timeout` push a new flag. */
    method PushSpin(dl: Deadline, sync: Sync) returns (wake: Sig)
      requires Valid() && p.pc[id].In?
      modifies c`waitingSpinThreads, p`pc, p`next, p`trace
      ensures Did(Wait(id, WaitSpin(dl, sync))) && wake == old(p.next)
      ensures p.pc[id] == Release(Resume(OnFlag(wake, dl, sync)))
      ensures c.waitingSpinThreads == old(c.waitingSpinThreads) + [wake]
    {
      hide Possible, Exec, Calls, Init, Advance;
      hide Foreign, Spurts, SpuriousIn;
      ghost var s := View();
      wake := p.next;
      c.PushSpin(wake);
      p.next := p.next + 1;
      Goto(Release(Resume(OnFlag(wake, dl, sync))), Wait(id, WaitSpin(dl, sync)), s);
    }

    /** After a timed park: was the thread taken off the list? */
    method CheckListed() returns (notified: bool)
      requires Valid() && p.pc[id].CvCheck?
      modifies p`pc, p`hist, p`trace
      ensures Did(Go(id)) && (notified <==> id !in c.waitingSyncThreads)
      ensures p.pc[id] == if notified then Relock(old(p.pc[id].sync), false)
                          else CvClock(old(p.pc[id].limit), old(p.pc[id].sync))
    {
      hide Possible, Exec, Calls, Init, Apply, Enabled;
      hide Foreign, Spurts, SpuriousIn;
      ghost var s := View();
      AwaitGo(s, id);
      var at := p.pc[id];
      notified := id !in c.waitingSyncThreads;
      if notified { p.hist := p.hist.(notified := p.hist.notified + 1); }
      Goto(if notified then Relock(at.sync, false) else CvClock(at.limit, at.sync), Go(id), s);
    }

    /** At the deadline of a blocking wait. */
    method RemoveThread() returns (notified: bool)
      requires Valid() && p.pc[id].CvRemove?
      modifies c`waitingSyncThreads, p`pc, p`hist, p`trace
      ensures Did(Go(id)) && (notified <==> id !in old(c.waitingSyncThreads))
      ensures p.pc[id] == Relock(old(p.pc[id].sync), !notified)
    {
      hide Possible, Exec, Calls, Init, Apply, Enabled, IndexOf, Without;
      hide Foreign, Spurts, SpuriousIn;
      ghost var s := View();
      AwaitGo(s, id);
      var at := p.pc[id];
      notified := c.RemoveThread(id);
      if notified { p.hist := p.hist.(notified := p.hist.notified + 1); }
      Goto(Relock(at.sync, !notified), Go(id), s);
    }

    /** At the deadline of a spinning wait. */
    method RemoveSpin() returns (notified: bool)
      requires Valid() && p.pc[id].CvSpinRemove?
      modifies c`waitingSpinThreads, p`pc, p`hist, p`trace
      ensures Did(Go(id)) && (notified <==> old(p.pc[id].id) !in old(c.waitingSpinThreads))
      ensures p.pc[id] == if notified then CvSpin(old(p.pc[id].id), None, old(p.pc[id].sync))
                          else Relock(old(p.pc[id].sync), true)
    {
      hide Possible, Exec, Calls, Init, Apply, Enabled, IndexOf, Without, Relock, Below;
      hide Foreign, Spurts, SpuriousIn;
      ghost var s := View();
      AwaitGo(s, id);
      var at := p.pc[id];
      notified := c.RemoveSpin(at.id);
      if !notified { p.hist := p.hist.(expired := p.hist.expired + {at.id}); }
      Goto(if notified then CvSpin(at.id, None, at.sync) else Relock(at.sync, true), Go(id), s);
    }

    /** A load of the spin flag. One that finds it clear is no step of the untimed loop. */
    method LoadFlag() returns (wake: bool)
      requires Valid() && p.pc[id].CvSpin?
      modifies p`pc, p`hist, p`trace
      ensures wake == (old(p.pc[id].id) in p.flags)
      ensures wake ==> Did(Go(id)) && p.pc[id] == Relock(old(p.pc[id].sync), false)
      ensures !wake && old(p.pc[id]).dl.Some?
              ==> Did(Go(id)) && p.pc[id] == CvSpinClock(old(p.pc[id].id), old(p.pc[id]).dl.value, old(p.pc[id].sync))
      ensures !wake && old(p.pc[id]).dl.None? ==> p.pc == old(p.pc) && p.trace == old(p.trace) && Valid()
    {
      hide Possible, Exec, Calls, Init, Apply, Enabled;
      hide Foreign, Spurts, SpuriousIn;
      ghost var s := View();
      if CanGo(s, id) { AwaitGo(s, id); }
      var at := p.pc[id];
      wake := at.id in p.flags;
      if wake {
        p.hist := p.hist.(seen := p.hist.seen + {at.id});
        Goto(Relock(at.sync, false), Go(id), s);
      } else if at.dl.Some? {
        Goto(CvSpinClock(at.id, at.dl.value, at.sync), Go(id), s);
      }
    }

    // ---------------------------------------------------------- actions of the notifiers

    method PopSpin() returns (wake: Option<Sig>)
      requires Valid() && p.pc[id].NSpins? && !p.pc[id].all
      modifies c`waitingSpinThreads, p`pc, p`hist, p`trace
      ensures Did(Go(id)) && (wake.None? <==> old(c.waitingSpinThreads) == [])
      ensures p.pc[id] == if wake.None? then NThreads(false, old(p.pc[id].inside))
                          else NStore([wake.value], false, old(p.pc[id].inside))
    {
      hide Possible, Exec, Calls, Init, Apply, Enabled, CanGo;
      hide Foreign, Spurts, SpuriousIn;
      ghost var s := View();
      NotifyGo(s, id);
      var inside := p.pc[id].inside;
      wake := c.PopSpin();
      if wake.Some? { p.hist := p.hist.(taken := p.hist.taken + {wake.value}); }
      Goto(if wake.None? then NThreads(false, inside) else NStore([wake.value], false, inside), Go(id), s);
    }

    method PopThread() returns (thread: Option<Tid>)
      requires Valid() && p.pc[id].NThreads? && !p.pc[id].all
      modifies c`waitingSyncThreads, p`pc, p`hist, p`trace
      ensures Did(Go(id)) && (thread.None? <==> old(c.waitingSyncThreads) == [])
      ensures p.pc[id] == if thread.None? then NTasks(false, old(p.pc[id].inside))
                          else NUnpark([thread.value], false, old(p.pc[id].inside))
    {
      hide Possible, Exec, Calls, Init, Apply, Enabled, CanGo, GoNotify;
      hide Foreign, Spurts, SpuriousIn;
      ghost var s := View();
      OneThreadGo(s, id);
      var inside := p.pc[id].inside;
      thread := c.PopThread();
      if thread.Some? {
        p.hist := p.hist.(popped := p.hist.popped[thread.value := true], pops := p.hist.pops + 1);
      }
      Goto(if thread.None? then NTasks(false, inside) else NUnpark([thread.value], false, inside), Go(id), s);
    }

    method PopTask() returns (waiter: Option<Sig>)
      requires Valid() && p.pc[id].NTasks? && !p.pc[id].all
      modifies c`waitingAsyncThreads, p`pc, p`trace
      ensures Did(Go(id)) && (waiter.None? <==> old(c.waitingAsyncThreads) == [])
      ensures p.pc[id] == if waiter.None? then Return(old(p.pc[id].inside))
                          else NSend([waiter.value], false, old(p.pc[id].inside))
    {
      hide Possible, Exec, Calls, Init, Apply, Enabled, CanGo;
      hide Foreign, Spurts, SpuriousIn;
      ghost var s := View();
      NotifyGo(s, id);
      var inside := p.pc[id].inside;
      waiter := c.PopTask();
      Goto(if waiter.None? then Return(inside) else NSend([waiter.value], false, inside), Go(id), s);
    }

    method TakeSpins() returns (threads: seq<Sig>)
      requires Valid() && p.pc[id].NSpins? && p.pc[id].all
      modifies c`waitingSpinThreads, p`pc, p`hist, p`trace
      ensures Did(Go(id)) && threads == old(c.waitingSpinThreads)
      ensures p.pc[id] == NStore(threads, true, old(p.pc[id].inside))
    {
      hide Possible, Exec, Calls, Init, Apply, Enabled, CanGo;
      hide Foreign, Spurts, SpuriousIn;
      ghost var s := View();
      NotifyGo(s, id);
      threads := c.TakeSpins();
      p.hist := p.hist.(taken := p.hist.taken + SetOf(threads));
      Goto(NStore(threads, true, p.pc[id].inside), Go(id), s);
    }

    method TakeCvThreads() returns (threads: seq<Tid>)
      requires Valid() && p.pc[id].NThreads? && p.pc[id].all
      modifies c`waitingSyncThreads, p`pc, p`hist, p`trace
      ensures Did(Go(id)) && threads == old(c.waitingSyncThreads)
      ensures p.pc[id] == NUnpark(threads, true, old(p.pc[id].inside))
    {
      hide Possible, Exec, Calls, Init, Apply, Enabled, CanGo;
      hide Foreign, Spurts, SpuriousIn;
      ghost var s := View();
      NotifyGo(s, id);
      threads := c.TakeThreads();
      p.hist := p.hist.(popped := MarkAll(p.hist.popped, threads), pops := p.hist.pops + |threads|);
      Goto(NUnpark(threads, true, p.pc[id].inside), Go(id), s);
    }

    method TakeCvTasks() returns (waiters: seq<Sig>)
      requires Valid() && p.pc[id].NTasks? && p.pc[id].all
      modifies c`waitingAsyncThreads, p`pc, p`trace
      ensures Did(Go(id)) && waiters == old(c.waitingAsyncThreads)
      ensures p.pc[id] == NSend(waiters, true, old(p.pc[id].inside))
    {
      hide Possible, Exec, Calls, Init, Apply, Enabled, CanGo;
      hide Foreign, Spurts, SpuriousIn;
      ghost var s := View();
      NotifyGo(s, id);
      waiters := c.TakeTasks();
      Goto(NSend(waiters, true, p.pc[id].inside), Go(id), s);
    }
  }
}
