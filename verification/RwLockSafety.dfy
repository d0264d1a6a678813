/** What every step of the reader-writer lock keeps. */
module RwLockSafety {
  import opened Basics
  import opened Handoff
  import opened Sums
  import opened RwLock

  predicate ReadHeld(p: RwPc) { p.Reading? || p.DropRead? }

  predicate WriteHeld(p: RwPc) { p.Writing? || p.DropWrite? }

  /** The live guards of each kind. */
  function Marks(pc: seq<RwPc>, f: RwPc -> bool): seq<nat> {
    seq(|pc|, i requires 0 <= i < |pc| => Bit(f(pc[i])))
  }

  function Readers(pc: seq<RwPc>): nat { Sum(Marks(pc, ReadHeld)) }

  function Writers(pc: seq<RwPc>): nat { Sum(Marks(pc, WriteHeld)) }

  /** The byte is 128 with one write guard and no read guard, or the number of read guards. */
  predicate Encoded<T>(s: Rw<T>) {
    if s.word == LOCKED_WRITE then Writers(s.pc) == 1 && Readers(s.pc) == 0
    else s.word < LOCKED_WRITE && Writers(s.pc) == 0 && Readers(s.pc) == s.word
  }

  /** A releaser that has yet to take the list of stage `at`: it is at that list or at an earlier one. */
  predicate OwesReadThreads(p: RwPc) { p == Take(ReadThreads) }

  predicate OwesReadTasks(p: RwPc) {
    OwesReadThreads(p) || (p.Wake? && p.at.ReadThreads?) || p == Take(ReadTasks)
  }

  predicate OwesWriteThreads(p: RwPc) {
    OwesReadTasks(p) || (p.Send? && p.at.ReadTasks?) || p == Take(WriteThreads)
  }

  predicate OwesWriteTasks(p: RwPc) {
    OwesWriteThreads(p) || (p.Wake? && p.at.WriteThreads?) || p == Take(WriteTasks)
  }

  /** The stages a wake loop can be at. */
  predicate Staged(p: RwPc) {
    && (p.Wake? ==> p.at.ReadThreads? || p.at.WriteThreads?)
    && (p.Send? ==> p.at.ReadTasks? || p.at.WriteTasks?)
  }

  /** No list holds a waiter that the byte would admit and nobody is about to take. */
  ghost predicate ListsCovered<T>(s: Rw<T>) {
    && Covered(s.word == LOCKED_WRITE, s.readThreads != [], s.pc, OwesReadThreads, Never)
    && Covered(s.word == LOCKED_WRITE, s.readTasks != [], s.pc, OwesReadTasks, Never)
    && Covered(s.word != UNLOCKED, s.writeThreads != [], s.pc, OwesWriteThreads, Never)
    && Covered(s.word != UNLOCKED, s.writeTasks != [], s.pc, OwesWriteTasks, Never)
  }

  function Threads<T>(s: Rw<T>, m: Mode): seq<Tid> { if m.Read? then s.readThreads else s.writeThreads }

  function Tasks<T>(s: Rw<T>, m: Mode): seq<Sig> { if m.Read? then s.readTasks else s.writeTasks }

  ghost predicate Reachable<T>(s: Rw<T>, t: Tid)
    requires Wf(s) && t < |s.pc|
  {
    && (s.pc[t].Park? ==> Delivered(t, s.token[t], t in Threads(s, s.pc[t].m), s.pc, Unparks))
    && (s.pc[t].Await?
        ==> Delivered(s.pc[t].id, s.pc[t].id in s.fired, s.pc[t].id in Tasks(s, s.pc[t].m), s.pc, Sends))
  }

  ghost predicate RwInv<T>(s: Rw<T>) {
    && Wf(s) && Encoded(s) && ListsCovered(s)
    && (forall t :: 0 <= t < |s.pc| ==> Reachable(s, t))
    && (forall t :: 0 <= t < |s.pc| ==> Staged(s.pc[t]) && !s.pc[t].Failed?)
  }

  // ------------------------------------------------------------ what a step changes

  ghost predicate Frame<T>(s: Rw<T>, s': Rw<T>, t: Tid) {
    && t < |s.pc| && |s'.pc| == |s.pc| && s'.pc == s.pc[t := s'.pc[t]] && |s'.token| == |s.token|
    && Below(s'.readThreads, |s.pc|) && Below(s'.writeThreads, |s.pc|) && Below(Unparks(s'.pc[t]), |s.pc|)
    && Staged(s'.pc[t])
  }

  /** The byte and the guards: a guard appears and disappears with its change of the byte. */
  ghost predicate WordFacts<T>(s: Rw<T>, s': Rw<T>, t: Tid)
    requires t < |s.pc| && t < |s'.pc|
  {
    var p, p' := s.pc[t], s'.pc[t];
    || (s'.word == s.word && ReadHeld(p') == ReadHeld(p) && WriteHeld(p') == WriteHeld(p) && (p'.Failed? ==> p.Failed?))
    || (s.word < LOCKED_WRITE - 1 && s'.word == s.word + 1 && p'.Reading? && !ReadHeld(p) && !WriteHeld(p))
    || (s.word == UNLOCKED && s'.word == LOCKED_WRITE && p'.Writing? && !ReadHeld(p) && !WriteHeld(p))
    || (p.DropRead? && s'.word == s.word - 1 && p' == Take(WriteThreads))
    || (p.DropWrite? && s.word == LOCKED_WRITE && s'.word == UNLOCKED && p' == Take(ReadThreads))
  }

  /** One list: pushed to only when busy, and emptied by the releaser that owed it. */
  ghost predicate ListFacts<T>(s: Rw<T>, s': Rw<T>, t: Tid)
    requires t < |s.pc| && t < |s'.pc|
  {
    var p, p' := s.pc[t], s'.pc[t];
    && (s'.readThreads != [] ==> s.readThreads != [] || s'.word == LOCKED_WRITE)
    && (s'.readTasks != [] ==> s.readTasks != [] || s'.word == LOCKED_WRITE)
    && (s'.writeThreads != [] ==> s.writeThreads != [] || s'.word != UNLOCKED)
    && (s'.writeTasks != [] ==> s.writeTasks != [] || s'.word != UNLOCKED)
    && (OwesReadThreads(p) && !OwesReadThreads(p') ==> s'.readThreads == [])
    && (OwesReadTasks(p) && !OwesReadTasks(p') ==> s'.readTasks == [])
    && (OwesWriteThreads(p) && !OwesWriteThreads(p') ==> s'.writeThreads == [])
    && (OwesWriteTasks(p) && !OwesWriteTasks(p') ==> s'.writeTasks == [])
  }

  /** Thread `x`, and continuation `x`, waiting in mode `m`. */
  ghost predicate ThreadFacts<T>(s: Rw<T>, s': Rw<T>, t: Tid, m: Mode, x: nat)
    requires t < |s.pc| && t < |s'.pc|
  {
    && (x in Threads(s, m) && x !in Threads(s', m) ==> x in Unparks(s'.pc[t]))
    && (x in Unparks(s.pc[t]) && x !in Unparks(s'.pc[t]) && x < |s'.token| ==> s'.token[x])
    && (x < |s.token| && x < |s'.token| && s.token[x] && !s'.token[x] ==> x == t && !s'.pc[t].Park?)
    && (s'.pc[t] == Park(m) ==> t in Threads(s', m) || s.pc[t] == Park(m))
  }

  ghost predicate TaskFacts<T>(s: Rw<T>, s': Rw<T>, t: Tid, m: Mode, x: Sig)
    requires t < |s.pc| && t < |s'.pc|
  {
    && (x in Tasks(s, m) && x !in Tasks(s', m) ==> x in Sends(s'.pc[t]))
    && (x in Sends(s.pc[t]) && x !in Sends(s'.pc[t]) ==> x in s'.fired)
    && (x in s.fired ==> x in s'.fired)
    && (s'.pc[t] == Await(m, x) ==> x in Tasks(s', m) || s.pc[t] == Await(m, x))
  }

  lemma AcquireFrame<T>(s: Rw<T>, t: Tid)
    requires Wf(s) && t < |s.pc| && CanGo(s, t) && Acquires(s.pc[t]) && s.word <= LOCKED_WRITE
    ensures var s' := GoAcquire(s, t); Frame(s, s', t) && WordFacts(s, s', t)
  {
  }

  lemma AcquireLists<T>(s: Rw<T>, t: Tid)
    requires Wf(s) && t < |s.pc| && CanGo(s, t) && Acquires(s.pc[t]) && s.word <= LOCKED_WRITE
    ensures var s' := GoAcquire(s, t); |s'.pc| == |s.pc| && ListFacts(s, s', t)
  {
  }

  lemma AcquireThreads<T>(s: Rw<T>, t: Tid, m: Mode, x: nat)
    requires Wf(s) && t < |s.pc| && CanGo(s, t) && Acquires(s.pc[t])
    ensures var s' := GoAcquire(s, t); |s'.pc| == |s.pc| && ThreadFacts(s, s', t, m, x)
  {
  }

  lemma AcquireTasks<T>(s: Rw<T>, t: Tid, m: Mode, x: Sig)
    requires Wf(s) && t < |s.pc| && CanGo(s, t) && Acquires(s.pc[t])
    ensures var s' := GoAcquire(s, t); |s'.pc| == |s.pc| && TaskFacts(s, s', t, m, x)
  {
  }

  lemma ReleaseFrame<T>(s: Rw<T>, t: Tid)
    requires Wf(s) && t < |s.pc| && CanGo(s, t) && !Acquires(s.pc[t]) && Staged(s.pc[t])
    requires s.pc[t].DropRead? ==> 0 < s.word < LOCKED_WRITE
    requires s.pc[t].DropWrite? ==> s.word == LOCKED_WRITE
    ensures var s' := GoRelease(s, t); Frame(s, s', t) && WordFacts(s, s', t)
  {
  }

  lemma ReleaseLists<T>(s: Rw<T>, t: Tid)
    requires Wf(s) && t < |s.pc| && CanGo(s, t) && !Acquires(s.pc[t]) && Staged(s.pc[t])
    ensures var s' := GoRelease(s, t); |s'.pc| == |s.pc| && ListFacts(s, s', t)
  {
  }

  lemma ReleaseThreads<T>(s: Rw<T>, t: Tid, m: Mode, x: nat)
    requires Wf(s) && t < |s.pc| && CanGo(s, t) && !Acquires(s.pc[t]) && Staged(s.pc[t])
    ensures var s' := GoRelease(s, t); |s'.pc| == |s.pc| && ThreadFacts(s, s', t, m, x)
  {
  }

  lemma ReleaseTasks<T>(s: Rw<T>, t: Tid, m: Mode, x: Sig)
    requires Wf(s) && t < |s.pc| && CanGo(s, t) && !Acquires(s.pc[t]) && Staged(s.pc[t])
    ensures var s' := GoRelease(s, t); |s'.pc| == |s.pc| && TaskFacts(s, s', t, m, x)
  {
  }

  lemma CallFacts<T>(s: Rw<T>, e: RwStep<T>, m: Mode, x: nat)
    requires Wf(s) && Enabled(s, e) && !e.Go? && Staged(s.pc[e.t])
    ensures var s' := Apply(s, e);
            && Frame(s, s', e.t) && WordFacts(s, s', e.t) && ListFacts(s, s', e.t)
            && ThreadFacts(s, s', e.t, m, x) && TaskFacts(s, s', e.t, m, x)
  {
    hide GoAcquire, GoRelease;
  }

  // ------------------------------------------------------------ one step

  lemma GuardsMoved(pc: seq<RwPc>, pc': seq<RwPc>, t: Tid)
    requires t < |pc| == |pc'| && pc' == pc[t := pc'[t]]
    ensures Readers(pc') + Bit(ReadHeld(pc[t])) == Readers(pc) + Bit(ReadHeld(pc'[t]))
    ensures Writers(pc') + Bit(WriteHeld(pc[t])) == Writers(pc) + Bit(WriteHeld(pc'[t]))
  {
    SumUpdate(Marks(pc, ReadHeld), t, Bit(ReadHeld(pc'[t])));
    SumUpdate(Marks(pc, WriteHeld), t, Bit(WriteHeld(pc'[t])));
    assert Marks(pc', ReadHeld) == Marks(pc, ReadHeld)[t := Bit(ReadHeld(pc'[t]))];
    assert Marks(pc', WriteHeld) == Marks(pc, WriteHeld)[t := Bit(WriteHeld(pc'[t]))];
  }

  /** A guard counts: its owner is among the readers or the writers the byte stands for. */
  lemma GuardCounts(pc: seq<RwPc>, t: Tid)
    requires t < |pc|
    ensures ReadHeld(pc[t]) ==> Readers(pc) > 0
    ensures WriteHeld(pc[t]) ==> Writers(pc) > 0
  {
    SumAtLeast(Marks(pc, ReadHeld), t);
    SumAtLeast(Marks(pc, WriteHeld), t);
  }

  lemma EncodedKept<T>(s: Rw<T>, s': Rw<T>, t: Tid)
    requires Encoded(s) && Frame(s, s', t) && WordFacts(s, s', t)
    ensures Encoded(s')
  {
    hide Readers, Writers;
    GuardsMoved(s.pc, s'.pc, t);
    GuardCounts(s.pc, t);
    GuardCounts(s'.pc, t);
  }

  lemma ListsKept<T>(s: Rw<T>, s': Rw<T>, t: Tid)
    requires Encoded(s) && ListsCovered(s) && Frame(s, s', t) && WordFacts(s, s', t) && ListFacts(s, s', t)
    ensures ListsCovered(s')
  {
    hide Readers, Writers;
    GuardCounts(s.pc, t);
    var b, b' := s.word == LOCKED_WRITE, s'.word == LOCKED_WRITE;
    var n, n' := s.word != UNLOCKED, s'.word != UNLOCKED;
    CoveredKept(b, s.readThreads != [], s.pc, b', s'.readThreads != [], s'.pc, OwesReadThreads, Never, t);
    CoveredKept(b, s.readTasks != [], s.pc, b', s'.readTasks != [], s'.pc, OwesReadTasks, Never, t);
    CoveredKept(n, s.writeThreads != [], s.pc, n', s'.writeThreads != [], s'.pc, OwesWriteThreads, Never, t);
    CoveredKept(n, s.writeTasks != [], s.pc, n', s'.writeTasks != [], s'.pc, OwesWriteTasks, Never, t);
  }

  lemma ThreadKept<T>(s: Rw<T>, s': Rw<T>, t: Tid, x: Tid)
    requires Wf(s) && Wf(s') && x < |s.pc| && Reachable(s, x) && Frame(s, s', t) && s'.pc[x].Park?
    requires ThreadFacts(s, s', t, s'.pc[x].m, x)
    ensures Delivered(x, s'.token[x], x in Threads(s', s'.pc[x].m), s'.pc, Unparks)
  {
    var m := s'.pc[x].m;
    if x !in Threads(s', m) {
      DeliveredKept(x, s.token[x], x in Threads(s, m), s.pc, s'.token[x], x in Threads(s', m), s'.pc, Unparks, t);
    }
  }

  lemma TaskKept<T>(s: Rw<T>, s': Rw<T>, t: Tid, x: Tid)
    requires Wf(s) && Wf(s') && x < |s.pc| && Reachable(s, x) && Frame(s, s', t) && s'.pc[x].Await?
    requires TaskFacts(s, s', t, s'.pc[x].m, s'.pc[x].id)
    ensures var id := s'.pc[x].id; Delivered(id, id in s'.fired, id in Tasks(s', s'.pc[x].m), s'.pc, Sends)
  {
    var m, id := s'.pc[x].m, s'.pc[x].id;
    if id !in Tasks(s', m) {
      DeliveredKept(id, id in s.fired, id in Tasks(s, m), s.pc, id in s'.fired, id in Tasks(s', m), s'.pc, Sends, t);
    }
  }

  lemma StepFrame<T>(s: Rw<T>, e: RwStep<T>)
    requires RwInv(s) && Enabled(s, e)
    ensures var s' := Apply(s, e);
            Frame(s, s', e.t) && WordFacts(s, s', e.t) && ListFacts(s, s', e.t) && Wf(s')
  {
    hide GoAcquire, GoRelease, Readers, Writers, ListsCovered;
    GuardCounts(s.pc, e.t);
    if !e.Go? {
      CallFacts(s, e, Read, 0);
    } else if Acquires(s.pc[e.t]) {
      AcquireFrame(s, e.t);
      AcquireLists(s, e.t);
    } else {
      ReleaseFrame(s, e.t);
      ReleaseLists(s, e.t);
    }
  }

  lemma StepWaits<T>(s: Rw<T>, e: RwStep<T>, m: Mode, x: nat)
    requires RwInv(s) && Enabled(s, e)
    ensures var s' := Apply(s, e); |s'.pc| == |s.pc| && ThreadFacts(s, s', e.t, m, x) && TaskFacts(s, s', e.t, m, x)
  {
    hide GoAcquire, GoRelease, Readers, Writers, ListsCovered;
    if !e.Go? {
      CallFacts(s, e, m, x);
    } else if Acquires(s.pc[e.t]) {
      AcquireThreads(s, e.t, m, x);
      AcquireTasks(s, e.t, m, x);
    } else {
      ReleaseThreads(s, e.t, m, x);
      ReleaseTasks(s, e.t, m, x);
    }
  }

  lemma RwStepInv<T>(s: Rw<T>, e: RwStep<T>)
    requires RwInv(s) && Enabled(s, e)
    ensures RwInv(Apply(s, e)) && |Apply(s, e).pc| == |s.pc|
  {
    hide Apply, Readers, Writers;
    var s' := Apply(s, e);
    StepFrame(s, e);
    EncodedKept(s, s', e.t);
    ListsKept(s, s', e.t);
    forall x | 0 <= x < |s'.pc|
      ensures Reachable(s', x)
    {
      if s'.pc[x].Park? {
        StepWaits(s, e, s'.pc[x].m, x);
        ThreadKept(s, s', e.t, x);
      } else if s'.pc[x].Await? {
        StepWaits(s, e, s'.pc[x].m, s'.pc[x].id);
        TaskKept(s, s', e.t, x);
      }
    }
  }

  // ------------------------------------------------------------ runs

  ghost predicate Possible<T>(s: Rw<T>, es: seq<RwStep<T>>)
    requires Wf(s)
    decreases |es|
  {
    es == [] || (Enabled(s, es[0]) && Wf(Apply(s, es[0])) && Possible(Apply(s, es[0]), es[1..]))
  }

  ghost function Exec<T>(s: Rw<T>, es: seq<RwStep<T>>): (s': Rw<T>)
    requires Wf(s) && Possible(s, es)
    ensures Wf(s')
    decreases |es|
  {
    if es == [] then s else Exec(Apply(s, es[0]), es[1..])
  }

  lemma EmptyRun<T>(s: Rw<T>)
    requires Wf(s)
    ensures Possible(s, []) && Exec(s, []) == s
  {
  }

  lemma {:induction false} ExecSnoc<T>(s: Rw<T>, es: seq<RwStep<T>>, e: RwStep<T>)
    requires RwInv(s) && Possible(s, es) && Enabled(Exec(s, es), e)
    ensures Possible(s, es + [e]) && Exec(s, es + [e]) == Apply(Exec(s, es), e)
    decreases |es|
  {
    hide Apply, Enabled, Encoded, ListsCovered;
    if es == [] {
      RwStepInv(s, e);
      assert [e][1..] == [] && [] + [e] == [e];
    } else {
      RwStepInv(s, es[0]);
      ExecSnoc(Apply(s, es[0]), es[1..], e);
      assert (es + [e])[0] == es[0] && (es + [e])[1..] == es[1..] + [e];
    }
  }

  lemma {:induction false} RwRun<T>(s: Rw<T>, es: seq<RwStep<T>>)
    requires RwInv(s) && Possible(s, es)
    ensures RwInv(Exec(s, es))
    decreases |es|
  {
    hide Apply, Encoded, ListsCovered;
    if es != [] {
      RwStepInv(s, es[0]);
      RwRun(Apply(s, es[0]), es[1..]);
    }
  }

  lemma NoGuards(pc: seq<RwPc>)
    requires forall i :: 0 <= i < |pc| ==> pc[i].Away?
    ensures Readers(pc) == Writers(pc) == 0
  {
    forall i | 0 <= i < |pc|
      ensures Marks(pc, ReadHeld)[i] == 0 && Marks(pc, WriteHeld)[i] == 0
    {
      assert Marks(pc, ReadHeld)[i] == Bit(ReadHeld(pc[i]));
      assert Marks(pc, WriteHeld)[i] == Bit(WriteHeld(pc[i]));
    }
    SumZero(Marks(pc, ReadHeld));
    SumZero(Marks(pc, WriteHeld));
  }

  lemma StartsInInv<T>(n: nat, value: T)
    ensures RwInv(Init(n, value))
  {
    NoGuards(Init(n, value).pc);
  }

  lemma RwReachable<T>(n: nat, value: T, es: seq<RwStep<T>>)
    requires Possible(Init(n, value), es)
    ensures RwInv(Exec(Init(n, value), es))
  {
    StartsInInv(n, value);
    RwRun(Init(n, value), es);
  }

  /** Exclusion through the byte: it is 128 with exactly one write guard and no read guard, or it is
      the number of read guards, at most 127. No assertion in a guard's drop ever fails. */
  lemma RwExclusion<T>(n: nat, value: T, es: seq<RwStep<T>>)
    requires Possible(Init(n, value), es)
    ensures var s := Exec(Init(n, value), es);
            && Encoded(s)
            && forall t :: 0 <= t < |s.pc| ==> !s.pc[t].Failed?
  {
    RwReachable(n, value, es);
  }

  /** Counting readers never reaches bit 7: an attempt that succeeds sets it only for a writer, on an
      unlocked byte. */
  lemma BitSeven(m: Mode, word: nat)
    requires word <= LOCKED_WRITE && TryWord(m, word).Acquired?
    ensures !WriterBit(word) && (WriterBit(TryWord(m, word).word) <==> m.Write?)
    ensures m.Write? ==> word == UNLOCKED
    ensures m.Read? ==> TryWord(m, word).word == word + 1 < LOCKED_WRITE
  {
  }

  /** While a thread holds a guard of either kind, no other thread changes the value. */
  lemma GuardedValue<T>(s: Rw<T>, e: RwStep<T>, t: Tid)
    requires Wf(s) && Encoded(s) && Enabled(s, e) && t < |s.pc| && e.t != t && (ReadHeld(s.pc[t]) || WriteHeld(s.pc[t]))
    ensures Apply(s, e).value == s.value
  {
    hide Readers, Writers, ListsCovered;
    if e.Store? {
      GuardCounts(s.pc, t);
      GuardCounts(s.pc, e.t);
      if WriteHeld(s.pc[t]) {
        TwoWriters(s.pc, t, e.t);
      }
    }
  }

  lemma TwoWriters(pc: seq<RwPc>, t: Tid, u: Tid)
    requires t < |pc| && u < |pc| && t != u && WriteHeld(pc[t]) && WriteHeld(pc[u])
    ensures Writers(pc) >= 2
  {
    GuardsMoved(pc, pc[t := Away], t);
    GuardCounts(pc[t := Away], u);
  }

  // ------------------------------------------------------------ no lost wake-up

  /** A guard that stands in the way of an acquisition in mode `m`. */
  predicate Blocks(p: RwPc, m: Mode) { WriteHeld(p) || (m.Write? && ReadHeld(p)) }

  /** The list in which a waiter at `q` is entered. */
  function ListedIn(q: RwPc): Stage
    requires q.Park? || q.Await?
  {
    if q.m.Read? then (if q.Park? then ReadThreads else ReadTasks)
    else if q.Park? then WriteThreads else WriteTasks
  }

  /** A releaser at `p` has yet to take list `l`. */
  predicate Owes(p: RwPc, l: Stage) {
    match l
    case ReadThreads => OwesReadThreads(p)
    case ReadTasks => OwesReadTasks(p)
    case WriteThreads => OwesWriteThreads(p)
    case WriteTasks => OwesWriteTasks(p)
  }

  /** A thread at `p` has a guard that the waiter at `q` waits for, or has yet to take the very list in which that
      waiter is entered. */
  predicate Frees(p: RwPc, q: RwPc)
    requires q.Park? || q.Await?
  {
    Blocks(p, q.m) || Owes(p, ListedIn(q))
  }

  function List<T>(s: Rw<T>, l: Stage): seq<nat> {
    match l
    case ReadThreads => s.readThreads
    case ReadTasks => s.readTasks
    case WriteThreads => s.writeThreads
    case WriteTasks => s.writeTasks
  }

  /** An entry has somebody to free it: whoever makes the byte busy, or a releaser that has yet to take its list. */
  lemma ListedIsFreed<T>(s: Rw<T>, q: RwPc) returns (u: Tid)
    requires RwInv(s) && (q.Park? || q.Await?) && List(s, ListedIn(q)) != []
    ensures u < |s.pc| && Frees(s.pc[u], q)
  {
    hide Readers, Writers, OwesReadThreads, OwesReadTasks, OwesWriteThreads, OwesWriteTasks;
    if s.word == LOCKED_WRITE {
      u := SomeWriter(s.pc);
    } else if q.m.Write? && s.word != UNLOCKED {
      u := SomeReader(s.pc);
    } else {
      match ListedIn(q)
      case ReadThreads => u :| 0 <= u < |s.pc| && OwesReadThreads(s.pc[u]);
      case ReadTasks => u :| 0 <= u < |s.pc| && OwesReadTasks(s.pc[u]);
      case WriteThreads => u :| 0 <= u < |s.pc| && OwesWriteThreads(s.pc[u]);
      case WriteTasks => u :| 0 <= u < |s.pc| && OwesWriteTasks(s.pc[u]);
    }
  }

  lemma SomeWriter(pc: seq<RwPc>) returns (u: Tid)
    requires Writers(pc) > 0
    ensures u < |pc| && WriteHeld(pc[u])
  {
    SumZero(Marks(pc, WriteHeld));
    u :| 0 <= u < |pc| && Marks(pc, WriteHeld)[u] != 0;
  }

  lemma SomeReader(pc: seq<RwPc>) returns (u: Tid)
    requires Readers(pc) > 0
    ensures u < |pc| && ReadHeld(pc[u])
  {
    SumZero(Marks(pc, ReadHeld));
    u :| 0 <= u < |pc| && Marks(pc, ReadHeld)[u] != 0;
  }

  predicate Unsignalled<T>(s: Rw<T>, t: Tid)
    requires Wf(s) && t < |s.pc|
  {
    (s.pc[t].Park? && !s.token[t]) || (s.pc[t].Await? && s.pc[t].id !in s.fired)
  }

  predicate Signals(p: RwPc, q: RwPc, t: Tid) {
    (q.Park? && t in Unparks(p)) || (q.Await? && q.id in Sends(p))
  }

  /** No lost wake-up on any of the four lists: a reader or writer that waits unsignalled has another
      thread that holds a guard it waits for, has yet to take that very list, or is about to signal it. */
  lemma NoLostWakeup<T>(n: nat, value: T, es: seq<RwStep<T>>, t: Tid)
    requires Possible(Init(n, value), es)
    ensures var s := Exec(Init(n, value), es);
            t < |s.pc| && Unsignalled(s, t)
            ==> exists u :: 0 <= u < |s.pc| && u != t && (Frees(s.pc[u], s.pc[t]) || Signals(s.pc[u], s.pc[t], t))
  {
    RwReachable(n, value, es);
    var s := Exec(Init(n, value), es);
    if t < |s.pc| && Unsignalled(s, t) {
      WaiterIsFreed(s, t);
    }
  }

  lemma WaiterIsFreed<T>(s: Rw<T>, t: Tid)
    requires RwInv(s) && t < |s.pc| && Unsignalled(s, t)
    ensures exists u :: 0 <= u < |s.pc| && u != t && (Frees(s.pc[u], s.pc[t]) || Signals(s.pc[u], s.pc[t], t))
  {
    hide Encoded, ListsCovered;
    var p := s.pc[t];
    assert Reachable(s, t);
    if (p.Park? && t in Threads(s, p.m)) || (p.Await? && p.id in Tasks(s, p.m)) {
      var u := ListedIsFreed(s, p);
      assert Frees(s.pc[u], p);
    } else if p.Park? {
      var u :| 0 <= u < |s.pc| && t in Unparks(s.pc[u]);
      assert Signals(s.pc[u], p, t);
    } else {
      var u :| 0 <= u < |s.pc| && p.id in Sends(s.pc[u]);
      assert Signals(s.pc[u], p, t);
    }
  }

  /** Thread 0 takes a new lock for writing. */
  lemma WriterEnters<T>(value: T) returns (es: seq<RwStep<T>>)
    ensures Possible(Init(2, value), es)
    ensures Exec(Init(2, value), es) == Init(2, value).(word := LOCKED_WRITE, pc := [Writing, Away])
  {
    hide RwInv, Possible, Exec, GoRelease;
    var s := Init(2, value);
    StartsInInv(2, value);
    EmptyRun(s);
    ExecSnoc(s, [], Lock(0, Write, Blocking));
    es := [] + [Lock(0, Write, Blocking)];
    ExecSnoc(s, es, Go(0));
    es := es + [Go(0)];
  }

  /** Such a waiter is there: a writer that has its guard refuses the next thread, whatever it wants. */
  lemma WaiterIsReached<T>(value: T, m: Mode)
    ensures exists es :: Possible(Init(2, value), es) && Exec(Init(2, value), es).pc == [Writing, Park(m)]
                         && !Exec(Init(2, value), es).token[1]
  {
    hide RwInv, Possible, Exec, GoRelease;
    var s := Init(2, value);
    StartsInInv(2, value);
    var es := WriterEnters(value);
    ExecSnoc(s, es, Lock(1, m, Blocking));
    es := es + [Lock(1, m, Blocking)];
    ExecSnoc(s, es, Go(1));
    es := es + [Go(1)];
    assert Possible(s, es) && Exec(s, es).pc == [Writing, Park(m)];
  }

  /** No quiescent state parks a waiter the byte would admit: with no release under way, a waiter that
      is unsignalled would be refused if it tried again. */
  lemma Quiescent<T>(n: nat, value: T, es: seq<RwStep<T>>, t: Tid)
    requires Possible(Init(n, value), es)
    ensures var s := Exec(Init(n, value), es);
            t < |s.pc| && Unsignalled(s, t)
            && (forall u :: 0 <= u < |s.pc| ==> !s.pc[u].Take? && !s.pc[u].Wake? && !s.pc[u].Send?)
            ==> TryWord(s.pc[t].m, s.word).Refused?
  {
    hide Readers, Writers, ListsCovered;
    RwReachable(n, value, es);
    var s := Exec(Init(n, value), es);
    if t < |s.pc| && Unsignalled(s, t)
       && forall u :: 0 <= u < |s.pc| ==> !s.pc[u].Take? && !s.pc[u].Wake? && !s.pc[u].Send? {
      WouldBeRefused(s, t);
    }
  }

  lemma WouldBeRefused<T>(s: Rw<T>, t: Tid)
    requires RwInv(s) && t < |s.pc| && Unsignalled(s, t)
    requires forall u :: 0 <= u < |s.pc| ==> !s.pc[u].Take? && !s.pc[u].Wake? && !s.pc[u].Send?
    ensures TryWord(s.pc[t].m, s.word).Refused?
  {
    hide Readers, Writers, ListsCovered;
    WaiterIsFreed(s, t);
    var u :| 0 <= u < |s.pc| && u != t && (Frees(s.pc[u], s.pc[t]) || Signals(s.pc[u], s.pc[t], t));
    GuardCounts(s.pc, u);
  }

  // ------------------------------------------------------------ no deadlock

  /** The thread can take its next action: that of its call, or the drop of its guard. */
  predicate CanAct<T>(s: Rw<T>, t: Tid)
    requires Wf(s) && t < |s.pc|
  {
    s.pc[t].Reading? || s.pc[t].Writing? || CanGo(s, t)
  }

  predicate Idle(p: RwPc) { p.Away? || p.Panicked? || p.Failed? }

  /** No deadlock: while any thread is in a call or has a guard, some thread can act, without a spurious
      wake-up and without a new call. */
  lemma NoDeadlock<T>(n: nat, value: T, es: seq<RwStep<T>>, t: Tid)
    requires Possible(Init(n, value), es)
    ensures var s := Exec(Init(n, value), es);
            t < |s.pc| && !Idle(s.pc[t]) ==> exists u :: 0 <= u < |s.pc| && CanAct(s, u)
  {
    hide Encoded, ListsCovered;
    RwReachable(n, value, es);
    var s := Exec(Init(n, value), es);
    if t < |s.pc| && !Idle(s.pc[t]) && !CanAct(s, t) {
      SomeoneElseCan(s, t);
    }
  }

  lemma SomeoneElseCan<T>(s: Rw<T>, t: Tid)
    requires RwInv(s) && t < |s.pc| && !Idle(s.pc[t]) && !CanAct(s, t)
    ensures exists u :: 0 <= u < |s.pc| && CanAct(s, u)
  {
    hide Encoded, ListsCovered;
    if s.pc[t].Spin? {
      SomeGuard(s, s.pc[t].m);
      var u :| 0 <= u < |s.pc| && Blocks(s.pc[u], s.pc[t].m);
      assert CanAct(s, u);
    } else {
      WaiterIsFreed(s, t);
      var u :| 0 <= u < |s.pc| && u != t && (Frees(s.pc[u], s.pc[t]) || Signals(s.pc[u], s.pc[t], t));
      assert CanAct(s, u);
    }
  }

  /** Whoever is refused is refused by somebody's guard; and the panic is that of the 128th reader. */
  lemma SomeGuard<T>(s: Rw<T>, m: Mode)
    requires RwInv(s)
    ensures TryWord(m, s.word).Refused? ==> exists u :: 0 <= u < |s.pc| && Blocks(s.pc[u], m)
    ensures TryWord(m, s.word).TooMany? ==> m.Read? && Readers(s.pc) == 127 && Writers(s.pc) == 0
  {
    hide Readers, Writers, ListsCovered;
    if TryWord(m, s.word).Refused? {
      if s.word == LOCKED_WRITE {
        var u := SomeWriter(s.pc);
        assert Blocks(s.pc[u], m);
      } else {
        var u := SomeReader(s.pc);
        assert Blocks(s.pc[u], m);
      }
    }
  }
}
