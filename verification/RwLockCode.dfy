/** The reader-writer lock's own code on its own fields: attempts, acquisition loops, the guards' drops,
    run by one thread while the others go on. As for the mutex, the steps of the other threads between
    two actions are an arbitrary schedule, and `Valid` says that the fields are in a state reached by a
    run of the machine. */
module RwLockCode {
  import opened Basics
  import opened RwLock
  import opened RwLockSafety

  // ------------------------------------------------------------ runs, step by step

  lemma WfStep<T>(s: Rw<T>, e: RwStep<T>)
    requires RwInv(s) && Enabled(s, e)
    ensures Wf(Apply(s, e)) && |Apply(s, e).pc| == |s.pc|
  {
    StepFrame(s, e);
  }

  predicate Guarding(p: RwPc) { ReadHeld(p) || WriteHeld(p) }

  /** What steps of the other threads leave alone, seen from thread `t`. */
  ghost predicate Undisturbed<T>(s: Rw<T>, s': Rw<T>, t: Tid) {
    && t < |s.pc| == |s'.pc| && |s.token| == |s'.token| == |s.pc| && s'.pc[t] == s.pc[t]
    && (s.token[t] ==> s'.token[t])
    && (Guarding(s.pc[t]) ==> s'.value == s.value)
  }

  lemma OtherStep<T>(s: Rw<T>, e: RwStep<T>, t: Tid)
    requires RwInv(s) && Enabled(s, e) && t < |s.pc| && e.t != t
    ensures Undisturbed(s, Apply(s, e), t)
  {
    hide Apply, Encoded, ListsCovered;
    WfStep(s, e);
    OtherMoves(s, e, t);
    if Guarding(s.pc[t]) {
      GuardedValue(s, e, t);
    }
  }

  lemma OtherMoves<T>(s: Rw<T>, e: RwStep<T>, t: Tid)
    requires RwInv(s) && Enabled(s, e) && t < |s.pc| && e.t != t
    ensures var s' := Apply(s, e);
            |s'.pc| == |s.pc| == |s'.token| && s'.pc[t] == s.pc[t] && (s.token[t] ==> s'.token[t])
  {
    hide Encoded, ListsCovered, Apply, Enabled;
    StepFrame(s, e);
    StepWaits(s, e, Read, t);
  }

  /** Continuation `x` is listed, about to be sent, or sent. */
  ghost predicate InUse<T>(s: Rw<T>, x: Sig) {
    x in s.fired || x in s.readTasks || x in s.writeTasks || exists u :: 0 <= u < |s.pc| && x in Sends(s.pc[u])
  }

  /** Every such continuation has been made. */
  ghost predicate Named<T>(s: Rw<T>) {
    forall x: nat :: InUse(s, x) ==> x < s.next
  }

  ghost predicate UseFacts<T>(s: Rw<T>, s': Rw<T>, t: Tid, x: Sig)
    requires t < |s.pc| && t < |s'.pc|
  {
    && s.next <= s'.next
    && (x in s'.fired ==> x in s.fired || x in Sends(s.pc[t]))
    && (x in s'.readTasks || x in s'.writeTasks ==> x in s.readTasks || x in s.writeTasks || x == s.next < s'.next)
    && (x in Sends(s'.pc[t]) ==> x in Sends(s.pc[t]) || x in s.readTasks || x in s.writeTasks)
  }

  lemma AcquireUses<T>(s: Rw<T>, t: Tid, x: Sig)
    requires Wf(s) && t < |s.pc| && CanGo(s, t) && Acquires(s.pc[t])
    ensures var s' := GoAcquire(s, t); |s'.pc| == |s.pc| && UseFacts(s, s', t, x)
  {
  }

  lemma ReleaseUses<T>(s: Rw<T>, t: Tid, x: Sig)
    requires Wf(s) && t < |s.pc| && CanGo(s, t) && !Acquires(s.pc[t])
    ensures var s' := GoRelease(s, t); |s'.pc| == |s.pc| && UseFacts(s, s', t, x)
  {
  }

  lemma StepUses<T>(s: Rw<T>, e: RwStep<T>, x: Sig)
    requires Wf(s) && Enabled(s, e)
    ensures |Apply(s, e).pc| == |s.pc| && UseFacts(s, Apply(s, e), e.t, x)
  {
    hide GoAcquire, GoRelease;
    if e.Go? && Acquires(s.pc[e.t]) {
      AcquireUses(s, e.t, x);
    } else if e.Go? {
      ReleaseUses(s, e.t, x);
    }
  }

  lemma NamedStep<T>(s: Rw<T>, e: RwStep<T>)
    requires RwInv(s) && Enabled(s, e) && Named(s)
    ensures Named(Apply(s, e))
  {
    hide Encoded, ListsCovered, Apply, Enabled;
    StepFrame(s, e);
    var s' := Apply(s, e);
    forall x: nat | InUse(s', x)
      ensures x < s'.next
    {
      StepUses(s, e, x);
      assert InUse(s, x) || x == s.next < s'.next;
    }
  }

  lemma {:induction false} NamedRun<T>(s: Rw<T>, es: seq<RwStep<T>>)
    requires RwInv(s) && Named(s) && Possible(s, es)
    ensures Named(Exec(s, es))
    decreases |es|
  {
    hide Apply, Enabled, Encoded, ListsCovered;
    if es != [] {
      RwStepInv(s, es[0]);
      NamedStep(s, es[0]);
      NamedRun(Apply(s, es[0]), es[1..]);
    }
  }

  // ------------------------------------------------------------ the lock's fields

  class Lock<T> {
    var inner: T
    var dataLock: nat
    var waitingSyncReadThreads: seq<Tid>
    var waitingAsyncReadThreads: seq<Sig>
    var waitingSyncWriteThreads: seq<Tid>
    var waitingAsyncWriteThreads: seq<Sig>

    constructor (value: T)
      ensures inner == value && dataLock == UNLOCKED
      ensures waitingSyncReadThreads == [] && waitingAsyncReadThreads == []
      ensures waitingSyncWriteThreads == [] && waitingAsyncWriteThreads == []
    {
      inner, dataLock := value, UNLOCKED;
      waitingSyncReadThreads, waitingAsyncReadThreads := [], [];
      waitingSyncWriteThreads, waitingAsyncWriteThreads := [], [];
    }

    /** `fetch_update` of `try_lock_read`. */
    method FetchUpdate() returns (r: Attempt)
      modifies `dataLock
      ensures r == TryWord(Read, old(dataLock))
      ensures dataLock == if r.Acquired? then r.word else old(dataLock)
    {
      if (dataLock / LOCKED_WRITE) % 2 != 0 { return Refused; }
      if dataLock == LOCKED_WRITE - 1 { return TooMany; }
      dataLock := (dataLock + 1) % 256;
      return Acquired(dataLock);
    }

    /** `compare_exchange` of `try_lock_write`. */
    method CompareExchange() returns (r: Attempt)
      modifies `dataLock
      ensures r == TryWord(Write, old(dataLock))
      ensures dataLock == if r.Acquired? then r.word else old(dataLock)
    {
      if dataLock == UNLOCKED {
        dataLock := LOCKED_WRITE;
        return Acquired(LOCKED_WRITE);
      }
      return Refused;
    }

    method Attempt(m: Mode) returns (r: Attempt)
      modifies `dataLock
      ensures r == TryWord(m, old(dataLock))
      ensures dataLock == if r.Acquired? then r.word else old(dataLock)
    {
      if m.Read? {
        r := FetchUpdate();
      } else {
        r := CompareExchange();
      }
    }
  }

  // ------------------------------------------------------------ a thread

  datatype Beat<T> = Beat(others: seq<RwStep<T>>, spurious: bool)

  /** Where an attempt leads; `refused` if it is refused. */
  function AfterAttempt(r: Attempt, m: Mode, refused: RwPc): RwPc {
    match r
    case Acquired(_) => Owning(m)
    case TooMany => Panicked
    case Refused => refused
  }

  /** The calls that thread `t` makes in a run: its own steps apart from those inside a call. */
  function Calls<T>(es: seq<RwStep<T>>, t: Tid): seq<RwStep<T>> {
    if es == [] then [] else Calls(es[..|es| - 1], t) + OwnCall(Last(es), t)
  }

  function OwnCall<T>(e: RwStep<T>, t: Tid): seq<RwStep<T>> {
    if e.t == t && (e.Try? || e.Lock? || e.Store? || e.Unlock?) then [e] else []
  }

  lemma CallsSnoc<T>(es: seq<RwStep<T>>, e: RwStep<T>, t: Tid)
    ensures Calls(es + [e], t) == Calls(es, t) + OwnCall(e, t)
  {
    assert (es + [e])[..|es|] == es;
  }

  class Thread<T> {
    const id: Tid
    const l: Lock<T>
    var token: seq<bool>
    var fired: set<Sig>
    var next: Sig
    var pc: seq<RwPc>
    var schedule: seq<Beat<T>>
    ghost var trace: seq<RwStep<T>>
    ghost const origin: Rw<T>

    constructor (n: nat, value: T, current: Tid, lock: Lock<T>, beats: seq<Beat<T>>)
      requires current < n && lock.inner == value && lock.dataLock == UNLOCKED
      requires lock.waitingSyncReadThreads == [] && lock.waitingAsyncReadThreads == []
      requires lock.waitingSyncWriteThreads == [] && lock.waitingAsyncWriteThreads == []
      ensures Valid() && id == current && l == lock && schedule == beats && pc[id].Away? && trace == []
    {
      var s := Init(n, value);
      id, l, token, fired, next, pc := current, lock, s.token, {}, 0, s.pc;
      schedule, trace, origin := beats, [], s;
    }

    function View(): Rw<T>
      reads this, l
    {
      Rw(l.inner, l.dataLock, l.waitingSyncReadThreads, l.waitingAsyncReadThreads,
         l.waitingSyncWriteThreads, l.waitingAsyncWriteThreads, token, fired, next, pc)
    }

    ghost predicate Valid()
      reads this, l
      ensures Valid() ==> id < |pc| == |token|
    {
      && origin == Init(|origin.pc|, origin.value)
      && Possible(origin, trace) && View() == Exec(origin, trace)
      && Wf(View()) && id < |pc|
    }

    lemma Sound()
      requires Valid()
      ensures RwInv(View())
    {
      RwReachable(|origin.pc|, origin.value, trace);
    }

    twostate predicate Did(e: RwStep<T>)
      reads this, l
    {
      && old(Valid()) && Enabled(old(View()), e) && View() == Apply(old(View()), e) && |pc| == old(|pc|)
      && trace == old(trace) + [e] && Calls(trace, id) == old(Calls(trace, id)) + OwnCall(e, id)
      && schedule == old(schedule) && Valid()
    }

    twostate predicate Ran(new made: seq<RwStep<T>>)
      reads this, l
    {
      && old(Valid()) && Valid() && |pc| == old(|pc|)
      && old(trace) <= trace && Calls(trace, id) == old(Calls(trace, id)) + made && |schedule| <= old(|schedule|)
    }

    /** Only other threads took steps. */
    twostate predicate Paused()
      reads this, l
    {
      && old(Valid()) && Valid() && |pc| == old(|pc|) && pc[id] == old(pc[id])
      && (Guarding(pc[id]) ==> l.inner == old(l.inner))
      && old(trace) <= trace && Calls(trace, id) == old(Calls(trace, id))
      && (if old(schedule) == [] then schedule == [] && trace == old(trace) && token == old(token)
          else |schedule| < old(|schedule|))
    }

    method Put(s: Rw<T>)
      modifies l, `token, `fired, `next, `pc
      ensures View() == s
    {
      l.inner, l.dataLock := s.value, s.word;
      l.waitingSyncReadThreads, l.waitingAsyncReadThreads := s.readThreads, s.readTasks;
      l.waitingSyncWriteThreads, l.waitingAsyncWriteThreads := s.writeThreads, s.writeTasks;
      token, fired, next, pc := s.token, s.fired, s.next, s.pc;
    }

    method NextBeat() returns (spurious: bool)
      requires Valid()
      modifies this, l
      ensures Paused()
    {
      hide Apply, Enabled, Init, RwInv;
      if schedule == [] { return false; }
      var b := schedule[0];
      schedule := schedule[1..];
      var i := 0;
      while i < |b.others|
        invariant i <= |b.others| && Valid() && schedule == old(schedule)[1..]
        invariant Undisturbed(old(View()), View(), id) && old(trace) <= trace
        invariant Calls(trace, id) == old(Calls(trace, id))
      {
        var e := b.others[i];
        if Enabled(View(), e) && e.t != id {
          Sound();
          OtherStep(View(), e, id);
          Extend(e);
          CallsSnoc(trace, e, id);
          trace := trace + [e];
          Put(Apply(View(), e));
        }
        i := i + 1;
      }
      return b.spurious;
    }

    method Others()
      requires Valid()
      modifies this, l
      ensures Paused()
    {
      var _ := NextBeat();
    }

    lemma Extend(e: RwStep<T>)
      requires Valid() && Enabled(View(), e)
      ensures Possible(origin, trace + [e]) && Exec(origin, trace + [e]) == Apply(View(), e)
      ensures Wf(Apply(View(), e)) && |Apply(View(), e).pc| == |pc|
    {
      hide Apply, Enabled;
      Sound();
      RwReachable(|origin.pc|, origin.value, []);
      ExecSnoc(origin, trace, e);
      WfStep(View(), e);
    }

    // ---------------------------------------------------------- actions

    /** The thread goes to `q` by step `e`, its last action on the fields, taken in state `s`. */
    method Goto(q: RwPc, ghost e: RwStep<T>, ghost s: Rw<T>)
      requires origin == Init(|origin.pc|, origin.value)
      requires Possible(origin, trace) && s == Exec(origin, trace) && id < |s.pc|
      requires Enabled(s, e) && e.t == id && pc == s.pc && At(View(), id, q) == Apply(s, e)
      modifies `pc, `trace
      ensures View() == Apply(s, e) && trace == old(trace) + [e] && pc == old(pc)[id := q]
      ensures Calls(trace, id) == old(Calls(trace, id)) + OwnCall(e, id)
      ensures Valid()
    {
      hide Apply, Enabled, Init;
      RwReachable(|origin.pc|, origin.value, trace);
      RwReachable(|origin.pc|, origin.value, []);
      WfStep(s, e);
      ExecSnoc(origin, trace, e);
      CallsSnoc(trace, e, id);
      pc := pc[id := q];
      trace := trace + [e];
    }

    method BeginTry(m: Mode)
      requires Valid() && pc[id].Away?
      modifies `pc, `trace
      ensures Did(Try(id, m)) && pc[id] == RwPc.TryOnce(m)
    {
      hide Possible, Exec, Calls, Init;
      Goto(RwPc.TryOnce(m), Try(id, m), View());
    }

    method BeginLock(m: Mode, how: How)
      requires Valid() && pc[id].Away?
      modifies `pc, `trace
      ensures Did(RwStep.Lock(id, m, how))
      ensures pc[id] == match how case Spinning => Spin(m) case Blocking => Enter(m) case Tasking => EnterTask(m)
    {
      hide Possible, Exec, Calls, Init;
      Goto(match how case Spinning => Spin(m) case Blocking => Enter(m) case Tasking => EnterTask(m),
           RwStep.Lock(id, m, how), View());
    }

    method BeginUnlock()
      requires Valid() && (pc[id].Reading? || pc[id].Writing?)
      modifies `pc, `trace
      ensures Did(Unlock(id)) && pc[id] == if old(pc[id].Reading?) then DropRead else DropWrite
    {
      hide Possible, Exec, Calls, Init;
      Goto(if pc[id].Reading? then DropRead else DropWrite, Unlock(id), View());
    }

    /** A write through a `WriteGuard`. */
    method Store(v: T)
      requires Valid() && pc[id].Writing?
      modifies l`inner, `pc, `trace
      ensures Did(RwStep.Store(id, v)) && pc == old(pc) && l.inner == v
    {
      hide Possible, Exec, Calls, Init;
      ghost var s := View();
      l.inner := v;
      assert pc[id := pc[id]] == pc;
      Goto(pc[id], RwStep.Store(id, v), s);
    }

    /** `try_lock_read`, `try_lock_write`. */
    method TryOnce() returns (r: Attempt)
      requires Valid() && pc[id].TryOnce?
      modifies l`dataLock, `pc, `trace
      ensures Did(Go(id)) && r == TryWord(old(pc[id].m), old(l.dataLock))
      ensures pc[id] == AfterAttempt(r, old(pc[id].m), Away)
    {
      hide Possible, Exec, Calls, Init, GoRelease, TryWord;
      ghost var s := View();
      var m := pc[id].m;
      r := l.Attempt(m);
      Goto(AfterAttempt(r, m, Away), Go(id), s);
    }

    /** An attempt of `lock_spin_read` or `lock_spin_write`; a refused one changes nothing. */
    method SpinOnce() returns (r: Attempt)
      requires Valid() && pc[id].Spin?
      modifies l`dataLock, `pc, `trace
      ensures r == TryWord(old(pc[id].m), old(l.dataLock))
      ensures if r.Refused? then Ran([]) && pc == old(pc) && schedule == old(schedule) && l.dataLock == old(l.dataLock)
              else Did(Go(id)) && pc[id] == AfterAttempt(r, old(pc[id].m), Away)
    {
      hide Possible, Exec, Calls, Init, GoRelease, TryWord;
      ghost var s := View();
      var m := pc[id].m;
      r := l.Attempt(m);
      if !r.Refused? {
        Goto(AfterAttempt(r, m, Away), Go(id), s);
      }
    }

    /** The closure on the list of threads in `lock_block_read` and `lock_block_write`. */
    method TryLockOrPush() returns (r: Attempt)
      requires Valid() && pc[id].Enter?
      modifies l, `pc, `trace
      ensures Did(Go(id)) && r == TryWord(old(pc[id].m), old(l.dataLock)) && token == old(token)
      ensures pc[id] == AfterAttempt(r, old(pc[id].m), RwPc.Park(old(pc[id].m)))
    {
      hide Possible, Exec, Calls, Init, GoRelease, TryWord;
      ghost var s := View();
      var m := pc[id].m;
      r := l.Attempt(m);
      if r.Refused? && m.Read? {
        l.waitingSyncReadThreads := l.waitingSyncReadThreads + [id];
      } else if r.Refused? {
        l.waitingSyncWriteThreads := l.waitingSyncWriteThreads + [id];
      }
      Goto(AfterAttempt(r, m, RwPc.Park(m)), Go(id), s);
    }

    /** The closure on the list of continuations in `lock_async_read` and `lock_async_write`. */
    method TryLockOrPushTask() returns (r: Attempt)
      requires Valid() && pc[id].EnterTask?
      modifies l, `next, `pc, `trace
      ensures Did(Go(id)) && r == TryWord(old(pc[id].m), old(l.dataLock))
      ensures pc[id] == AfterAttempt(r, old(pc[id].m), Await(old(pc[id].m), old(next)))
    {
      hide Possible, Exec, Calls, Init, GoRelease, TryWord;
      ghost var s := View();
      var m, sender := pc[id].m, next;
      r := l.Attempt(m);
      if r.Refused? && m.Read? {
        l.waitingAsyncReadThreads, next := l.waitingAsyncReadThreads + [sender], next + 1;
      } else if r.Refused? {
        l.waitingAsyncWriteThreads, next := l.waitingAsyncWriteThreads + [sender], next + 1;
      }
      Goto(AfterAttempt(r, m, Await(m, sender)), Go(id), s);
    }

    /** The continuation has been sent: the acquisition goes on. */
    method Resume()
      requires Valid() && pc[id].Await? && pc[id].id in fired
      modifies `pc, `trace
      ensures Did(Go(id)) && pc[id] == EnterTask(old(pc[id].m))
    {
      hide Possible, Exec, Calls, Init;
      Goto(EnterTask(pc[id].m), Go(id), View());
    }

    /** `park`. */
    method Park() returns (woke: bool)
      requires Valid() && pc[id].Park?
      modifies this, l
      ensures Ran([]) && pc[id] == if woke then Enter(old(pc[id].m)) else old(pc[id])
      ensures woke ==> |schedule| < old(|schedule|) || (schedule == old(schedule) && old(token[id]) && !token[id])
      ensures !woke ==> schedule == [] && !token[id]
    {
      hide Apply, Enabled, Init, Possible, Exec;
      while true
        invariant Ran([]) && pc[id] == old(pc[id])
        invariant (schedule == old(schedule) && token == old(token)) || |schedule| < old(|schedule|)
        decreases |schedule|
      {
        if token[id] { TakeToken(); return true; }
        if schedule == [] { return false; }
        var spurious := NextBeat();
        if spurious { ReturnWithout(); return true; }
      }
    }

    method TakeToken()
      requires Valid() && pc[id].Park? && token[id]
      modifies `token, `pc, `trace
      ensures Did(Go(id)) && pc[id] == Enter(old(pc[id].m)) && !token[id]
    {
      hide Possible, Exec, Calls, Init;
      ghost var s := View();
      token := token[id := false];
      Goto(Enter(pc[id].m), Go(id), s);
    }

    method ReturnWithout()
      requires Valid() && pc[id].Park?
      modifies `pc, `trace
      ensures Did(Spurious(id)) && pc[id] == Enter(old(pc[id].m))
    {
      hide Possible, Exec, Calls, Init;
      Goto(Enter(pc[id].m), Spurious(id), View());
    }

    /** A continuation that is still to be made has not been sent. */
    lemma NewIsUnsent()
      requires Valid()
      ensures next !in fired
    {
      RwReachable(|origin.pc|, origin.value, []);
      NamedRun(origin, trace);
      assert InUse(View(), next) ==> next < View().next;
    }

    // ---------------------------------------------------------- the guards' drops

    /** `fetch_sub` in `ReadGuard::drop`, with its assertion. */
    method SubtractReader()
      requires Valid() && pc[id].DropRead?
      modifies l`dataLock, `pc, `trace
      ensures Did(Go(id)) && pc[id] == Take(WriteThreads) && l.dataLock == old(l.dataLock) - 1
    {
      hide Possible, Exec, Calls, Init, ListsCovered, Readers, Writers;
      Sound();
      GuardCounts(pc, id);
      ghost var s := View();
      var r := l.dataLock;
      assert r > 0;
      l.dataLock := (r + 255) % 256;
      Goto(Take(WriteThreads), Go(id), s);
    }

    /** The swap in `WriteGuard::drop`, with its assertion. */
    method ClearWriter()
      requires Valid() && pc[id].DropWrite?
      modifies l`dataLock, `pc, `trace
      ensures Did(Go(id)) && pc[id] == Take(ReadThreads) && l.dataLock == UNLOCKED
    {
      hide Possible, Exec, Calls, Init, ListsCovered, Readers, Writers;
      Sound();
      GuardCounts(pc, id);
      ghost var s := View();
      var was := l.dataLock;
      l.dataLock := UNLOCKED;
      assert was == LOCKED_WRITE;
      Goto(Take(ReadThreads), Go(id), s);
    }

    method TakeReadThreads() returns (threads: seq<Tid>)
      requires Valid() && pc[id] == Take(ReadThreads)
      modifies l`waitingSyncReadThreads, `pc, `trace
      ensures Did(Go(id)) && pc[id] == Wake(threads, ReadThreads) && threads == old(l.waitingSyncReadThreads)
    {
      hide Possible, Exec, Calls, Init;
      ghost var s := View();
      threads, l.waitingSyncReadThreads := l.waitingSyncReadThreads, [];
      Goto(Wake(threads, ReadThreads), Go(id), s);
    }

    method TakeReadTasks() returns (senders: seq<Sig>)
      requires Valid() && pc[id] == Take(ReadTasks)
      modifies l`waitingAsyncReadThreads, `pc, `trace
      ensures Did(Go(id)) && pc[id] == Send(senders, ReadTasks) && senders == old(l.waitingAsyncReadThreads)
    {
      hide Possible, Exec, Calls, Init;
      ghost var s := View();
      senders, l.waitingAsyncReadThreads := l.waitingAsyncReadThreads, [];
      Goto(Send(senders, ReadTasks), Go(id), s);
    }

    method TakeWriteThreads() returns (threads: seq<Tid>)
      requires Valid() && pc[id] == Take(WriteThreads)
      modifies l`waitingSyncWriteThreads, `pc, `trace
      ensures Did(Go(id)) && pc[id] == Wake(threads, WriteThreads) && threads == old(l.waitingSyncWriteThreads)
    {
      hide Possible, Exec, Calls, Init;
      ghost var s := View();
      threads, l.waitingSyncWriteThreads := l.waitingSyncWriteThreads, [];
      Goto(Wake(threads, WriteThreads), Go(id), s);
    }

    method TakeWriteTasks() returns (senders: seq<Sig>)
      requires Valid() && pc[id] == Take(WriteTasks)
      modifies l`waitingAsyncWriteThreads, `pc, `trace
      ensures Did(Go(id)) && pc[id] == Send(senders, WriteTasks) && senders == old(l.waitingAsyncWriteThreads)
    {
      hide Possible, Exec, Calls, Init;
      ghost var s := View();
      senders, l.waitingAsyncWriteThreads := l.waitingAsyncWriteThreads, [];
      Goto(Send(senders, WriteTasks), Go(id), s);
    }

    /** `for thread in threads { thread.unpark() }`. */
    method UnparkEach(threads: seq<Tid>, at: Stage)
      requires Valid() && pc[id] == Wake(threads, at)
      modifies this, l
      ensures Ran([]) && pc[id] == if at.ReadThreads? then Take(ReadTasks) else Take(WriteTasks)
    {
      hide Possible, Exec, Calls, Init;
      var i := 0;
      while i < |threads|
        invariant i <= |threads| && Ran([]) && pc[id] == Wake(threads[i..], at)
      {
        Others();
        UnparkNext();
        assert threads[i..][1..] == threads[i + 1..];
        i := i + 1;
      }
      Goto(if at.ReadThreads? then Take(ReadTasks) else Take(WriteTasks), Go(id), View());
    }

    method UnparkNext()
      requires Valid() && pc[id].Wake? && pc[id].ws != []
      modifies `token, `pc, `trace
      ensures Did(Go(id)) && pc[id] == Wake(old(pc[id].ws)[1..], old(pc[id].at))
    {
      hide Possible, Exec, Calls, Init;
      ghost var s := View();
      assert Below(Unparks(pc[id]), |pc|);
      token := token[pc[id].ws[0] := true];
      Goto(Wake(pc[id].ws[1..], pc[id].at), Go(id), s);
    }

    /** `for thread in threads { thread.send(()) }`. */
    method SendEach(senders: seq<Sig>, at: Stage)
      requires Valid() && pc[id] == Send(senders, at)
      modifies this, l
      ensures Ran([]) && pc[id] == if at.ReadTasks? then Take(WriteThreads) else Away
    {
      hide Possible, Exec, Calls, Init;
      var i := 0;
      while i < |senders|
        invariant i <= |senders| && Ran([]) && pc[id] == Send(senders[i..], at)
      {
        Others();
        SendNext();
        assert senders[i..][1..] == senders[i + 1..];
        i := i + 1;
      }
      Goto(if at.ReadTasks? then Take(WriteThreads) else Away, Go(id), View());
    }

    method SendNext()
      requires Valid() && pc[id].Send? && pc[id].gs != []
      modifies `fired, `pc, `trace
      ensures Did(Go(id)) && pc[id] == Send(old(pc[id].gs)[1..], old(pc[id].at))
    {
      hide Possible, Exec, Calls, Init;
      ghost var s := View();
      fired := fired + {pc[id].gs[0]};
      Goto(Send(pc[id].gs[1..], pc[id].at), Go(id), s);
    }
  }

  // ------------------------------------------------------------ acquisition and release

  /** `TooMany` is the panic of the 128th reader; a `Pending` acquisition goes on when the schedule does. */
  datatype Outcome = Locked | NotAvailable | TooManyReaders | Pending

  /** How an acquisition leaves its thread: with a guard that the byte counts; or waiting unsignalled
      for a guard that some other thread has, or is about to wake it for. */
  ghost predicate Settled<T>(w: Thread<T>, m: Mode, r: Outcome)
    requires w.Valid()
    reads w, w.l
  {
    match r
    case Locked =>
      w.pc[w.id] == Owning(m) && (if m.Write? then w.l.dataLock == LOCKED_WRITE else 0 < w.l.dataLock < LOCKED_WRITE)
    case NotAvailable => w.pc[w.id].Away?
    case TooManyReaders => m.Read? && w.pc[w.id].Panicked?
    case Pending => w.schedule == [] && !CanGo(w.View(), w.id)
  }

  lemma IsLocked<T>(w: Thread<T>, m: Mode)
    requires w.Valid() && w.pc[w.id] == Owning(m)
    ensures Settled(w, m, Locked)
  {
    hide Readers, Writers, ListsCovered;
    w.Sound();
    GuardCounts(w.pc, w.id);
  }

  function OutcomeOf(r: Attempt): Outcome {
    match r
    case Acquired(_) => Locked
    case TooMany => TooManyReaders
    case Refused => NotAvailable
  }

  /** The run records at index `at` an attempt of the thread, made in state `s`. */
  ghost predicate Attempted<T>(w: Thread<T>, at: nat, s: Rw<T>)
    reads w
  {
    && at < |w.trace| && w.trace[at] == Go(w.id)
    && Wf(w.origin) && Possible(w.origin, w.trace[..at]) && s == Exec(w.origin, w.trace[..at])
  }

  /** Why an attempt in mode `m` did not succeed: another thread had a guard in the way, or 127 had read guards. */
  predicate Justified<T>(s: Rw<T>, t: Tid, m: Mode, r: Outcome) {
    match r
    case NotAvailable => exists u :: 0 <= u < |s.pc| && u != t && Blocks(s.pc[u], m)
    case TooManyReaders => m.Read? && Readers(s.pc) == 127
    case _ => true
  }

  lemma AttemptNow<T>(w: Thread<T>, m: Mode)
    requires w.Valid() && Acquires(w.pc[w.id])
    ensures Justified(w.View(), w.id, m, OutcomeOf(TryWord(m, w.l.dataLock)))
    ensures Wf(w.origin) && Possible(w.origin, w.trace) && w.View() == Exec(w.origin, w.trace)
  {
    hide Possible, Exec, Readers, Writers;
    w.Sound();
    SomeGuard(w.View(), m);
  }

  /** `try_lock_read` and `try_lock_write`: refused, or panicking, only if the guards of others made it so. */
  method TryLock<T>(w: Thread<T>, m: Mode) returns (r: Outcome)
    requires w.Valid() && w.pc[w.id].Away?
    modifies w, w.l
    ensures w.Ran([Try(w.id, m)]) && !r.Pending? && Settled(w, m, r)
    ensures exists at, s :: old(|w.trace|) <= at && Attempted(w, at, s) && Justified(s, w.id, m, r)
  {
    hide Apply, Enabled, Possible, Exec, Calls, Init, Justified, Thread.Valid, Thread.View;
    w.BeginTry(m);
    w.Others();
    ghost var run, s := w.trace, w.View();
    AttemptNow(w, m);
    var a := w.TryOnce();
    if a.Acquired? { IsLocked(w, m); }
    r := OutcomeOf(a);
    assert w.trace[..|run|] == run;
    assert Attempted(w, |run|, s);
  }

  /** `lock_spin_read` and `lock_spin_write`. */
  method LockSpin<T>(w: Thread<T>, m: Mode) returns (r: Outcome)
    requires w.Valid() && w.pc[w.id].Away?
    modifies w, w.l
    ensures w.Ran([RwStep.Lock(w.id, m, Spinning)]) && !r.NotAvailable? && Settled(w, m, r)
    ensures r.TooManyReaders?
            ==> exists at, s :: old(|w.trace|) <= at && Attempted(w, at, s) && Justified(s, w.id, m, r)
  {
    hide Apply, Enabled, Possible, Exec, Calls, Init, Justified, Thread.Valid, Thread.View;
    w.BeginLock(m, Spinning);
    while true
      invariant w.Ran([RwStep.Lock(w.id, m, Spinning)]) && w.pc[w.id] == Spin(m)
      decreases |w.schedule|
    {
      ghost var run, s := w.trace, w.View();
      AttemptNow(w, m);
      var a := w.SpinOnce();
      if !a.Refused? {
        if a.Acquired? { IsLocked(w, m); }
        assert w.trace[..|run|] == run;
        assert Attempted(w, |run|, s);
        return OutcomeOf(a);
      }
      if w.schedule == [] {
        IsRefused(w);
        return Pending;
      }
      w.Others();
    }
  }

  lemma IsRefused<T>(w: Thread<T>)
    requires w.Valid() && w.pc[w.id].Spin? && TryWord(w.pc[w.id].m, w.l.dataLock).Refused?
    ensures !CanGo(w.View(), w.id)
  {
  }

  /** The thread waits in mode `m`, and another has a guard it waits for, has yet to take the very list it is in, or
      is about to signal it. */
  ghost predicate Awaited<T>(w: Thread<T>, m: Mode)
    reads w
  {
    && w.id < |w.pc| && (w.pc[w.id].Park? || w.pc[w.id].Await?) && w.pc[w.id].m == m
    && exists u :: 0 <= u < |w.pc| && u != w.id
                   && (Frees(w.pc[u], w.pc[w.id]) || Signals(w.pc[u], w.pc[w.id], w.id))
  }

  lemma IsParked<T>(w: Thread<T>)
    requires w.Valid() && ((w.pc[w.id].Park? && !w.token[w.id]) || (w.pc[w.id].Await? && w.pc[w.id].id !in w.fired))
    ensures !CanGo(w.View(), w.id) && Unsignalled(w.View(), w.id)
    ensures Awaited(w, w.pc[w.id].m)
  {
    hide Possible, Exec;
    w.Sound();
    WaiterIsFreed(w.View(), w.id);
  }

  /** `lock_block_read` and `lock_block_write`. */
  method LockBlock<T>(w: Thread<T>, m: Mode) returns (r: Outcome)
    requires w.Valid() && w.pc[w.id].Away?
    modifies w, w.l
    ensures w.Ran([RwStep.Lock(w.id, m, Blocking)]) && !r.NotAvailable? && Settled(w, m, r)
    ensures r.TooManyReaders?
            ==> exists at, s :: old(|w.trace|) <= at && Attempted(w, at, s) && Justified(s, w.id, m, r)
    ensures r.Pending? ==> Unsignalled(w.View(), w.id) && Awaited(w, m)
  {
    hide Apply, Enabled, Possible, Exec, Calls, Init, Justified, Thread.Valid, Thread.View, Unsignalled, Awaited;
    w.BeginLock(m, Blocking);
    while true
      invariant w.Ran([RwStep.Lock(w.id, m, Blocking)]) && w.pc[w.id] == Enter(m)
      decreases |w.schedule|, Bit(w.token[w.id])
    {
      w.Others();
      ghost var run, s := w.trace, w.View();
      AttemptNow(w, m);
      var a := w.TryLockOrPush();
      if !a.Refused? {
        if a.Acquired? { IsLocked(w, m); }
        assert w.trace[..|run|] == run;
        assert Attempted(w, |run|, s);
        return OutcomeOf(a);
      }
      var woke := w.Park();
      if !woke {
        IsParked(w);
        return Pending;
      }
    }
  }

  /** `lock_async_read` and `lock_async_write`. */
  method LockAsync<T>(w: Thread<T>, m: Mode) returns (r: Outcome)
    requires w.Valid() && w.pc[w.id].Away?
    modifies w, w.l
    ensures w.Ran([RwStep.Lock(w.id, m, Tasking)]) && !r.NotAvailable? && Settled(w, m, r)
    ensures r.TooManyReaders?
            ==> exists at, s :: old(|w.trace|) <= at && Attempted(w, at, s) && Justified(s, w.id, m, r)
    ensures r.Pending? ==> Unsignalled(w.View(), w.id) && Awaited(w, m)
  {
    hide Apply, Enabled, Possible, Exec, Calls, Init, Justified, Thread.Valid, Thread.View, Unsignalled, Awaited;
    w.BeginLock(m, Tasking);
    while true
      invariant w.Ran([RwStep.Lock(w.id, m, Tasking)]) && w.pc[w.id] == EnterTask(m)
      decreases |w.schedule|
    {
      w.NewIsUnsent();
      ghost var run, s := w.trace, w.View();
      AttemptNow(w, m);
      var a := w.TryLockOrPushTask();
      if !a.Refused? {
        if a.Acquired? { IsLocked(w, m); }
        assert w.trace[..|run|] == run;
        assert Attempted(w, |run|, s);
        return OutcomeOf(a);
      }
      ghost var before := |w.schedule|;
      while w.pc[w.id].id !in w.fired
        invariant w.Ran([RwStep.Lock(w.id, m, Tasking)]) && w.pc[w.id].Await? && w.pc[w.id].m == m
        invariant |w.schedule| < before || (|w.schedule| == before && w.pc[w.id].id !in w.fired)
        decreases |w.schedule|
      {
        if w.schedule == [] {
          IsParked(w);
          return Pending;
        }
        w.Others();
      }
      w.Resume();
    }
  }

  /** `ReadGuard::drop` with `did_unlock_read`, which wakes writers only. */
  method DropReadGuard<T>(w: Thread<T>)
    requires w.Valid() && w.pc[w.id].Reading?
    modifies w, w.l
    ensures w.Ran([Unlock(w.id)]) && w.pc[w.id].Away?
  {
    hide Apply, Enabled, Possible, Exec, Calls, Init, Thread.Valid, Thread.View;
    w.BeginUnlock();
    w.Others();
    w.SubtractReader();
    w.Others();
    WakeWriters(w);
  }

  /** `WriteGuard::drop` with `did_unlock_write`: first the readers, then the writers. */
  method DropWriteGuard<T>(w: Thread<T>)
    requires w.Valid() && w.pc[w.id].Writing?
    modifies w, w.l
    ensures w.Ran([Unlock(w.id)]) && w.pc[w.id].Away?
  {
    hide Apply, Enabled, Possible, Exec, Calls, Init, Thread.Valid, Thread.View;
    w.BeginUnlock();
    w.Others();
    w.ClearWriter();
    w.Others();
    WakeReaders(w);
    w.Others();
    WakeWriters(w);
  }

  method WakeReaders<T>(w: Thread<T>)
    requires w.Valid() && w.pc[w.id] == Take(ReadThreads)
    modifies w, w.l
    ensures w.Ran([]) && w.pc[w.id] == Take(WriteThreads)
  {
    hide Apply, Enabled, Possible, Exec, Calls, Init, Thread.Valid, Thread.View;
    var threads := w.TakeReadThreads();
    w.UnparkEach(threads, ReadThreads);
    w.Others();
    var senders := w.TakeReadTasks();
    w.SendEach(senders, ReadTasks);
  }

  method WakeWriters<T>(w: Thread<T>)
    requires w.Valid() && w.pc[w.id] == Take(WriteThreads)
    modifies w, w.l
    ensures w.Ran([]) && w.pc[w.id].Away?
  {
    hide Apply, Enabled, Possible, Exec, Calls, Init, Thread.Valid, Thread.View;
    var threads := w.TakeWriteThreads();
    w.UnparkEach(threads, WriteThreads);
    w.Others();
    var senders := w.TakeWriteTasks();
    w.SendEach(senders, WriteTasks);
  }
}
