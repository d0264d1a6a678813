/** Progress of the reader-writer lock. Every thread has a finite number of critical sections left, each acquired for
    reading or for writing, by `lock_spin_*` or `lock_block_*`; a park returns only by its token. Then no run gets
    stuck, every run is finite with a bound known beforehand, and the wake-ups are paid for. A 128th reader panics and
    stays so. */
module RwProgress {
  import opened Basics
  import opened Sums
  import opened RwLock
  import opened RwLockSafety

  /** `todo`: critical sections each thread has yet to start. `fails` and `drains` count the refused attempts of
      `lock_block_*` and the times a releaser took a list of threads. */
  datatype Work<T> = Work(s: Rw<T>, todo: seq<nat>, fails: nat, drains: nat)

  datatype Act = Start(t: Tid, m: Mode, spins: bool) | Move(t: Tid)

  predicate WellFormed<T>(w: Work<T>) { Wf(w.s) && |w.todo| == |w.s.pc| }

  predicate Acts<T>(w: Work<T>, a: Act)
    requires WellFormed(w)
  {
    && a.t < |w.s.pc|
    && match a
       case Start(t, _, _) => w.s.pc[t].Away? && w.todo[t] > 0
       case Move(t) => CanAct(w.s, t)
  }

  /** The step of the machine: a thread in its critical section leaves it. */
  function Underlying<T>(w: Work<T>, a: Act): RwStep<T>
    requires WellFormed(w) && Acts(w, a)
  {
    match a
    case Start(t, m, spins) => Lock(t, m, if spins then Spinning else Blocking)
    case Move(t) => if w.s.pc[t].Reading? || w.s.pc[t].Writing? then Unlock(t) else Go(t)
  }

  predicate Drains(p: RwPc) { p == Take(ReadThreads) || p == Take(WriteThreads) }

  /** The next action of the thread is an attempt that will be refused. */
  predicate IsRefused<T>(s: Rw<T>, t: Tid)
    requires t < |s.pc|
  {
    s.pc[t].Enter? && TryWord(s.pc[t].m, s.word).Refused?
  }

  function Perform<T>(w: Work<T>, a: Act): Work<T>
    requires WellFormed(w) && Acts(w, a)
  {
    Work(Apply(w.s, Underlying(w, a)),
         if a.Start? then w.todo[a.t := w.todo[a.t] - 1] else w.todo,
         if a.Move? && IsRefused(w.s, a.t) then w.fails + 1 else w.fails,
         if a.Move? && Drains(w.s.pc[a.t]) then w.drains + 1 else w.drains)
  }

  // ------------------------------------------------------------ invariant

  predicate Shape(p: RwPc) {
    match p
    case TryOnce(_) => false
    case EnterTask(_) => false
    case Await(_, _) => false
    case Failed => false
    case Send(gs, at) => gs == [] && (at.ReadTasks? || at.WriteTasks?)
    case Wake(_, at) => at.ReadThreads? || at.WriteThreads?
    case _ => true
  }

  /** The unparks in flight, thread by thread. */
  function Pledges(pc: seq<RwPc>): seq<seq<Tid>> { seq(|pc|, i requires 0 <= i < |pc| => Unparks(pc[i])) }

  /** The threads entered in either list. */
  function Entered<T>(s: Rw<T>): seq<Tid> { s.readThreads + s.writeThreads }

  /** List entries, in-flight unparks and token of thread `x`, together. */
  function Claims<T>(s: Rw<T>, x: Tid): nat
    requires Wf(s) && x < |s.pc|
  {
    multiset(Entered(s))[x] + Occurrences(Pledges(s.pc), x) + Bit(s.token[x])
  }

  /** A thread at its park has exactly one claim to be woken; any other thread has none. */
  predicate OneClaim<T>(s: Rw<T>, x: Tid)
    requires Wf(s) && x < |s.pc|
  {
    Claims(s, x) == Bit(s.pc[x].Park?)
  }

  /** Only the 128th reader panics, and a thread has one guard at a time. */
  predicate PanicsFrom128(pc: seq<RwPc>) {
    |pc| < 128 ==> forall t :: 0 <= t < |pc| ==> !pc[t].Panicked?
  }

  ghost predicate WorkInv<T>(w: Work<T>)
    ensures WorkInv(w) ==> WellFormed(w)
  {
    && WellFormed(w) && RwInv(w.s)
    && (forall t :: 0 <= t < |w.s.pc| ==> Shape(w.s.pc[t]))
    && w.s.readTasks == [] && w.s.writeTasks == [] && PanicsFrom128(w.s.pc)
    && (forall x :: 0 <= x < |w.s.pc| ==> OneClaim(w.s, x))
    && (|w.s.pc| > 0 ==> w.fails <= (|w.s.pc| - 1) * w.drains + |Entered(w.s)|)
  }

  // ------------------------------------------------------------ the claims of one thread

  lemma DueMoved(pc: seq<RwPc>, pc': seq<RwPc>, t: Tid, x: Tid)
    requires t < |pc| == |pc'| && pc' == pc[t := pc'[t]]
    ensures Occurrences(Pledges(pc'), x) + multiset(Unparks(pc[t]))[x]
         == Occurrences(Pledges(pc), x) + multiset(Unparks(pc'[t]))[x]
  {
    assert Pledges(pc') == Pledges(pc)[t := Unparks(pc'[t])];
    OccurrencesUpdate(Pledges(pc), t, Unparks(pc'[t]), x);
  }

  lemma DueAtLeast(pc: seq<RwPc>, t: Tid, x: Tid)
    requires t < |pc|
    ensures multiset(Unparks(pc[t]))[x] <= Occurrences(Pledges(pc), x)
  {
    var lists := Pledges(pc);
    SumAtLeast(seq(|lists|, i requires 0 <= i < |lists| => multiset(lists[i])[x]), t);
  }

  /** The claims of `x` that an action of thread `t` can change. */
  function Near<T>(s: Rw<T>, t: Tid, x: Tid): nat
    requires Wf(s) && t < |s.pc| && x < |s.pc|
  {
    multiset(s.readThreads)[x] + multiset(s.writeThreads)[x] + multiset(Unparks(s.pc[t]))[x] + Bit(s.token[x])
  }

  lemma NearAcquire<T>(s: Rw<T>, t: Tid, x: Tid)
    requires Wf(s) && t < |s.pc| && CanGo(s, t) && Shape(s.pc[t]) && Acquires(s.pc[t]) && x < |s.pc|
    requires Wf(GoAcquire(s, t)) && |GoAcquire(s, t).pc| == |s.pc|
    ensures var s' := GoAcquire(s, t);
            Near(s', t, x) + Bit(s.pc[x].Park?) == Near(s, t, x) + Bit(s'.pc[x].Park?)
  {
    hide PushThread, TryWord;
    if IsRefused(s, t) {
      NearPush(s, t, s.pc[t].m, x);
    }
  }

  lemma NearPush<T>(s: Rw<T>, t: Tid, m: Mode, x: Tid)
    requires Wf(s) && t < |s.pc| && s.pc[t] == Enter(m) && x < |s.pc|
    requires Wf(PushThread(s, t, m))
    ensures var s' := PushThread(s, t, m);
            |s'.pc| == |s.pc| && Near(s', t, x) + Bit(s.pc[x].Park?) == Near(s, t, x) + Bit(s'.pc[x].Park?)
  {
  }

  lemma NearRelease<T>(s: Rw<T>, t: Tid, x: Tid)
    requires Wf(s) && t < |s.pc| && CanGo(s, t) && Shape(s.pc[t]) && !Acquires(s.pc[t]) && x < |s.pc|
    requires Wf(GoRelease(s, t)) && |GoRelease(s, t).pc| == |s.pc|
    requires Near(s, t, x) <= 1
    ensures var s' := GoRelease(s, t);
            Near(s', t, x) + Bit(s.pc[x].Park?) == Near(s, t, x) + Bit(s'.pc[x].Park?)
  {
    var ws := Unparks(s.pc[t]);
    if ws != [] {
      assert ws == [ws[0]] + ws[1..];
    }
  }

  lemma ClaimKept<T>(s: Rw<T>, e: RwStep<T>, x: Tid)
    requires Wf(s) && Enabled(s, e) && x < |s.pc| && OneClaim(s, x) && Shape(s.pc[e.t])
    requires e.Go? || (e.Lock? && !e.how.Tasking?) || e.Unlock?
    requires Frame(s, Apply(s, e), e.t) && Wf(Apply(s, e))
    ensures OneClaim(Apply(s, e), x)
  {
    hide GoAcquire, GoRelease;
    var s' := Apply(s, e);
    DueMoved(s.pc, s'.pc, e.t, x);
    DueAtLeast(s.pc, e.t, x);
    if e.Go? && Acquires(s.pc[e.t]) {
      NearAcquire(s, e.t, x);
    } else if e.Go? {
      NearRelease(s, e.t, x);
    }
  }

  /** The lists hold each thread at most once, and never one that is not at its park. */
  lemma FewListed<T>(s: Rw<T>, t: Tid)
    requires Wf(s) && t < |s.pc| && !s.pc[t].Park?
    requires forall x :: 0 <= x < |s.pc| ==> OneClaim(s, x)
    ensures |Entered(s)| <= |s.pc| - 1
  {
    var q := Entered(s);
    forall x | x in q
      ensures multiset(q)[x] <= 1 && x != t && x < |s.pc|
    {
      CountIn(q, x);
      assert OneClaim(s, x);
    }
    OnceIsNoDup(q);
    CardinalityNoDup(q);
    CardinalityBelow(SetOf(q) + {t}, |s.pc|);
    assert |SetOf(q) + {t}| == |SetOf(q)| + 1;
  }

  /** A thread about to be unparked is at its park, without its token. */
  lemma InFlightIsParked<T>(s: Rw<T>, t: Tid, x: Tid)
    requires Wf(s) && t < |s.pc| && x in Unparks(s.pc[t]) && x < |s.pc| && OneClaim(s, x)
    ensures s.pc[x].Park? && !s.token[x]
  {
    DueAtLeast(s.pc, t, x);
    CountIn(Unparks(s.pc[t]), x);
  }

  // ------------------------------------------------------------ one action

  lemma AcquireShape<T>(s: Rw<T>, t: Tid)
    requires Wf(s) && t < |s.pc| && CanGo(s, t) && Acquires(s.pc[t]) && Shape(s.pc[t])
    ensures var s' := GoAcquire(s, t);
            && |s'.pc| == |s.pc| && Shape(s'.pc[t]) && s'.readTasks == s.readTasks && s'.writeTasks == s.writeTasks
            && (s'.pc[t].Panicked? ==> TryWord(s.pc[t].m, s.word).TooMany?)
            && |Entered(s')| == |Entered(s)| + Bit(IsRefused(s, t))
  {
  }

  lemma ReleaseShape<T>(s: Rw<T>, t: Tid)
    requires Wf(s) && t < |s.pc| && CanGo(s, t) && !Acquires(s.pc[t]) && Shape(s.pc[t])
    requires s.readTasks == [] && s.writeTasks == []
    requires s.pc[t].DropRead? ==> s.word > 0
    requires s.pc[t].DropWrite? ==> s.word == LOCKED_WRITE
    ensures var s' := GoRelease(s, t);
            && |s'.pc| == |s.pc| && Shape(s'.pc[t]) && s'.readTasks == [] && s'.writeTasks == [] && !s'.pc[t].Panicked?
            && (if Drains(s.pc[t]) then |Entered(s')| <= |Entered(s)| else Entered(s') == Entered(s))
  {
  }

  lemma DropsFit<T>(s: Rw<T>, t: Tid)
    requires RwInv(s) && t < |s.pc|
    ensures s.pc[t].DropRead? ==> 0 < s.word < LOCKED_WRITE
    ensures s.pc[t].DropWrite? ==> s.word == LOCKED_WRITE
  {
    hide Readers, Writers, ListsCovered;
    GuardCounts(s.pc, t);
  }

  lemma ShapeKept<T>(w: Work<T>, a: Act)
    requires WorkInv(w) && Acts(w, a)
    ensures var s' := Perform(w, a).s;
            && |s'.pc| == |w.s.pc| && Shape(s'.pc[a.t]) && s'.readTasks == [] && s'.writeTasks == []
            && (s'.pc[a.t].Panicked? && !w.s.pc[a.t].Panicked?
                ==> w.s.pc[a.t].m.Read? && TryWord(Read, w.s.word).TooMany? && !ReadHeld(w.s.pc[a.t]))
            && (if a.Move? && Drains(w.s.pc[a.t]) then |Entered(s')| <= |Entered(w.s)|
                else |Entered(s')| == |Entered(w.s)| + Bit(a.Move? && IsRefused(w.s, a.t)))
  {
    hide GoAcquire, GoRelease, RwInv;
    DropsFit(w.s, a.t);
    assert Shape(w.s.pc[a.t]);
    if a.Move? && Acquires(w.s.pc[a.t]) {
      AcquireShape(w.s, a.t);
    } else if Underlying(w, a).Go? {
      ReleaseShape(w.s, a.t);
    }
  }

  /** A reader that panics has counted 127 others. */
  lemma PanicNeedsMany<T>(s: Rw<T>, t: Tid)
    requires RwInv(s) && t < |s.pc| && !ReadHeld(s.pc[t]) && TryWord(Read, s.word).TooMany?
    ensures |s.pc| >= 128
  {
    hide ListsCovered, Writers;
    SomeGuard(s, Read);
    FewMarks(s.pc, ReadHeld, t);
  }

  lemma FewMarks(pc: seq<RwPc>, f: RwPc -> bool, t: Tid)
    requires t < |pc| && !f(pc[t])
    ensures Sum(Marks(pc, f)) <= |pc| - 1
  {
    SumUpdate(Marks(pc, f), t, 1);
    SumAtMostOne(Marks(pc, f)[t := 1]);
  }

  lemma {:induction false} SumAtMostOne(q: seq<nat>)
    requires forall i :: 0 <= i < |q| ==> q[i] <= 1
    ensures Sum(q) <= |q|
  {
    if q != [] {
      SumAtMostOne(q[..|q| - 1]);
    }
  }

  /** Refused attempts are paid for: by the entry they leave, or by the drain that took it. */
  lemma FailsKept<T>(w: Work<T>, a: Act)
    requires WorkInv(w) && Acts(w, a)
    ensures var w' := Perform(w, a); w'.fails <= (|w.s.pc| - 1) * w'.drains + |Entered(w'.s)|
  {
    hide Apply, RwInv, Entered;
    ShapeKept(w, a);
    var n := |w.s.pc| - 1;
    if a.Move? && Drains(w.s.pc[a.t]) {
      FewListed(w.s, a.t);
      assert n * (w.drains + 1) == n * w.drains + n;
    }
  }

  lemma WorkStep<T>(w: Work<T>, a: Act)
    requires WorkInv(w) && Acts(w, a)
    ensures WorkInv(Perform(w, a)) && |Perform(w, a).s.pc| == |w.s.pc|
  {
    hide Apply, RwInv, Entered, OneClaim, TryWord;
    var e := Underlying(w, a);
    var s' := Perform(w, a).s;
    RwStepInv(w.s, e);
    StepFrame(w.s, e);
    ShapeKept(w, a);
    FailsKept(w, a);
    if s'.pc[a.t].Panicked? && !w.s.pc[a.t].Panicked? {
      PanicNeedsMany(w.s, a.t);
    }
    forall x | 0 <= x < |s'.pc|
      ensures OneClaim(s', x)
    {
      ClaimKept(w.s, e, x);
    }
  }

  // ------------------------------------------------------------ the measure

  /** How far a thread is from its next drain, or from its end. */
  function Rank(p: RwPc, token: bool): nat {
    match p
    case Wake(ws, at) => if at.ReadThreads? then 3 + 3 * |ws| else 8 + 3 * |ws|
    case Take(at) => if at.ReadTasks? then 2 else if at.WriteTasks? then 7 else 0
    case Send(_, at) => if at.ReadTasks? then 1 else 6
    case Away => 5
    case Spin(_) => 4
    case Enter(_) => 4
    case Park(_) => if token then 5 else 3
    case Reading => 2
    case Writing => 2
    case DropRead => 1
    case DropWrite => 1
    case _ => 0
  }

  /** Drains of lists of threads that a thread may still have to do: at most two a critical section it has to start, and
      those of the current one. */
  function Ahead(p: RwPc, todo: nat): nat {
    2 * todo
    + (match p
       case Spin(_) => 2
       case Enter(_) => 2
       case Park(_) => 2
       case Writing => 2
       case DropWrite => 2
       case Reading => 1
       case DropRead => 1
       case Take(at) => if at.ReadThreads? then 2 else if at.WriteTasks? then 0 else 1
       case Wake(_, at) => if at.ReadThreads? then 1 else 0
       case Send(_, at) => if at.ReadTasks? then 1 else 0
       case _ => 0)
  }

  function Ranks<T>(s: Rw<T>): seq<nat>
    requires Wf(s)
  {
    seq(|s.pc|, i requires 0 <= i < |s.pc| => Rank(s.pc[i], s.token[i]))
  }

  function Aheads<T>(w: Work<T>): seq<nat>
    requires WellFormed(w)
  {
    seq(|w.s.pc|, i requires 0 <= i < |w.s.pc| => Ahead(w.s.pc[i], w.todo[i]))
  }

  /** Lexicographic in one number: drains ahead, each worth more than any rank a drain can add, then the ranks. */
  function Measure<T>(w: Work<T>): nat
    requires WellFormed(w)
  {
    Sum(Aheads(w)) * (3 * |w.s.pc| + 9) + Sum(Ranks(w.s))
  }

  /** The effect of an action on its own thread: a drain, or a smaller rank. */
  ghost predicate RankFacts<T>(s: Rw<T>, s': Rw<T>, t: Tid, todo: nat, todo': nat)
    requires Wf(s) && t < |s.pc|
  {
    && |s'.pc| == |s.pc| && |s'.token| == |s.token| && Ahead(s'.pc[t], todo') <= Ahead(s.pc[t], todo)
    && (Drains(s.pc[t])
        ==> Ahead(s'.pc[t], todo') == Ahead(s.pc[t], todo) - 1 && s'.token == s.token
            && Rank(s'.pc[t], s'.token[t]) <= 8 + 3 * |Entered(s)|)
    && (!Drains(s.pc[t]) && Unparks(s.pc[t]) == []
        ==> Rank(s'.pc[t], s'.token[t]) < Rank(s.pc[t], s.token[t])
            && forall x :: 0 <= x < |s.pc| && x != t ==> s'.token[x] == s.token[x])
    && (Unparks(s.pc[t]) != []
        ==> Rank(s'.pc[t], s'.token[t]) == Rank(s.pc[t], s.token[t]) - 3
            && s'.token == s.token[Unparks(s.pc[t])[0] := true])
  }

  lemma AcquireRank<T>(s: Rw<T>, t: Tid, todo: nat)
    requires Wf(s) && t < |s.pc| && CanGo(s, t) && Acquires(s.pc[t]) && Shape(s.pc[t])
    requires s.token[t] ==> s.pc[t].Park?
    ensures RankFacts(s, GoAcquire(s, t), t, todo, todo)
  {
  }

  lemma ReleaseRank<T>(s: Rw<T>, t: Tid, todo: nat)
    requires Wf(s) && t < |s.pc| && CanGo(s, t) && !Acquires(s.pc[t]) && Shape(s.pc[t])
    requires s.readTasks == [] && s.writeTasks == []
    requires s.pc[t].DropRead? ==> s.word > 0
    requires s.pc[t].DropWrite? ==> s.word == LOCKED_WRITE
    requires s.token[t] ==> s.pc[t].Park?
    ensures RankFacts(s, GoRelease(s, t), t, todo, todo)
  {
  }

  lemma OwnRank<T>(w: Work<T>, a: Act)
    requires WorkInv(w) && Acts(w, a)
    ensures RankFacts(w.s, Perform(w, a).s, a.t, w.todo[a.t], Perform(w, a).todo[a.t])
  {
    hide GoAcquire, GoRelease, RwInv;
    assert Shape(w.s.pc[a.t]) && OneClaim(w.s, a.t);
    DropsFit(w.s, a.t);
    if a.Move? && Acquires(w.s.pc[a.t]) {
      AcquireRank(w.s, a.t, w.todo[a.t]);
    } else if Underlying(w, a).Go? {
      ReleaseRank(w.s, a.t, w.todo[a.t]);
    }
  }

  /** An action of thread `t` that changes no other thread's rank. */
  lemma RankMoved<T>(s: Rw<T>, s': Rw<T>, t: Tid)
    requires Wf(s) && Wf(s') && Frame(s, s', t)
    requires forall x :: 0 <= x < |s.pc| && x != t ==> s'.token[x] == s.token[x]
    ensures Sum(Ranks(s')) + Rank(s.pc[t], s.token[t]) == Sum(Ranks(s)) + Rank(s'.pc[t], s'.token[t])
  {
    var v := Rank(s'.pc[t], s'.token[t]);
    assert Ranks(s') == Ranks(s)[t := v];
    SumUpdate(Ranks(s), t, v);
  }

  /** Thread `t` unparks `x`, parked without its token. */
  lemma RankUnpark<T>(s: Rw<T>, s': Rw<T>, t: Tid, x: Tid)
    requires Wf(s) && Wf(s') && Frame(s, s', t) && x < |s.pc| && x != t
    requires s'.token == s.token[x := true] && s.pc[x].Park? && !s.token[x]
    ensures Sum(Ranks(s')) + Rank(s.pc[t], s.token[t]) == Sum(Ranks(s)) + Rank(s'.pc[t], s'.token[t]) + 2
  {
    var v := Rank(s'.pc[t], s'.token[t]);
    var r := Ranks(s)[t := v];
    SumUpdate(Ranks(s), t, v);
    SumUpdate(r, x, 5);
    assert Ranks(s') == r[x := 5];
  }

  lemma AheadMoved<T>(w: Work<T>, a: Act)
    requires WorkInv(w) && Acts(w, a) && WellFormed(Perform(w, a)) && Frame(w.s, Perform(w, a).s, a.t)
    ensures var w' := Perform(w, a);
            Sum(Aheads(w')) + Ahead(w.s.pc[a.t], w.todo[a.t]) == Sum(Aheads(w)) + Ahead(w'.s.pc[a.t], w'.todo[a.t])
  {
    hide Apply;
    var w' := Perform(w, a);
    var v := Ahead(w'.s.pc[a.t], w'.todo[a.t]);
    assert Aheads(w') == Aheads(w)[a.t := v];
    SumUpdate(Aheads(w), a.t, v);
  }

  lemma RankFalls<T>(w: Work<T>, a: Act)
    requires WorkInv(w) && Acts(w, a) && WellFormed(Perform(w, a)) && Frame(w.s, Perform(w, a).s, a.t)
    ensures var r, r' := Sum(Ranks(w.s)), Sum(Ranks(Perform(w, a).s));
            if Drains(w.s.pc[a.t]) then r' < r + 3 * |w.s.pc| + 9 else r' < r
  {
    hide Apply, Sum, Ranks, RwInv, Entered;
    var w', t := Perform(w, a), a.t;
    OwnRank(w, a);
    if Drains(w.s.pc[t]) {
      FewListed(w.s, t);
      RankMoved(w.s, w'.s, t);
    } else if Unparks(w.s.pc[t]) == [] {
      RankMoved(w.s, w'.s, t);
    } else {
      var x := Unparks(w.s.pc[t])[0];
      assert Below(Unparks(w.s.pc[t]), |w.s.pc|);
      assert OneClaim(w.s, x);
      InFlightIsParked(w.s, t, x);
      RankUnpark(w.s, w'.s, t, x);
    }
  }

  /** Every action makes the measure smaller. */
  lemma MeasureFalls<T>(w: Work<T>, a: Act)
    requires WorkInv(w) && Acts(w, a)
    ensures WellFormed(Perform(w, a)) && Measure(Perform(w, a)) < Measure(w)
    ensures Perform(w, a).drains + Sum(Aheads(Perform(w, a))) <= w.drains + Sum(Aheads(w))
  {
    hide Apply, Sum, Ranks, Aheads, RwInv;
    var w' := Perform(w, a);
    StepFrame(w.s, Underlying(w, a));
    OwnRank(w, a);
    AheadMoved(w, a);
    RankFalls(w, a);
    Lexicographic(Sum(Aheads(w)), Sum(Aheads(w')), Sum(Ranks(w.s)), Sum(Ranks(w'.s)), 3 * |w.s.pc| + 9);
  }

  lemma Lexicographic(d: nat, d': nat, r: nat, r': nat, k: nat)
    requires (d' <= d && r' < r) || (d' < d && r' < r + k)
    ensures d' * k + r' < d * k + r
  {
    assert d * k == d' * k + (d - d') * k;
    if d' < d {
      assert (d - d') * k == (d - d' - 1) * k + k;
    }
  }

  // ------------------------------------------------------------ runs

  ghost predicate Runs<T>(w: Work<T>, acts: seq<Act>)
    requires WorkInv(w)
    decreases |acts|
  {
    acts == [] || (Acts(w, acts[0]) && (WorkStep(w, acts[0]); Runs(Perform(w, acts[0]), acts[1..])))
  }

  ghost function Outcome<T>(w: Work<T>, acts: seq<Act>): (w': Work<T>)
    requires WorkInv(w) && Runs(w, acts)
    ensures WorkInv(w') && |w'.s.pc| == |w.s.pc|
    decreases |acts|
  {
    if acts == [] then w else (WorkStep(w, acts[0]); Outcome(Perform(w, acts[0]), acts[1..]))
  }

  lemma {:induction false} WorkRun<T>(w: Work<T>, acts: seq<Act>)
    requires WorkInv(w) && Runs(w, acts)
    ensures var w' := Outcome(w, acts);
            && Measure(w') + |acts| <= Measure(w)
            && w'.drains + Sum(Aheads(w')) <= w.drains + Sum(Aheads(w))
    decreases |acts|
  {
    hide WorkInv, Perform, Acts, Measure, Sum, Aheads;
    if acts != [] {
      WorkStep(w, acts[0]);
      MeasureFalls(w, acts[0]);
      WorkRun(Perform(w, acts[0]), acts[1..]);
    }
  }

  /** The bound on the length of any run: linear in the critical sections times the threads. */
  function Budget(todo: seq<nat>): nat { 2 * Sum(todo) * (3 * |todo| + 9) + 5 * |todo| }

  lemma {:induction false} SumDoubled(q: seq<nat>, r: seq<nat>)
    requires |q| == |r| && forall i :: 0 <= i < |q| ==> q[i] == 2 * r[i]
    ensures Sum(q) == 2 * Sum(r)
  {
    if q != [] {
      SumDoubled(q[..|q| - 1], r[..|r| - 1]);
    }
  }

  lemma BegunInv<T>(w: Work<T>, value: T, todo: seq<nat>)
    requires w == Work(Init(|todo|, value), todo, 0, 0)
    ensures WorkInv(w)
  {
    hide RwInv, Sum;
    StartsInInv(|todo|, value);
    forall x | 0 <= x < |todo|
      ensures OneClaim(w.s, x)
    {
      var lists := Pledges(w.s.pc);
      SumConstant(seq(|lists|, i requires 0 <= i < |lists| => multiset(lists[i])[x]), 0);
    }
  }

  ghost function Begun<T>(value: T, todo: seq<nat>): (w: Work<T>)
    ensures WorkInv(w) && |w.s.pc| == |todo| && w.drains == 0
  {
    var w := Work(Init(|todo|, value), todo, 0, 0);
    BegunInv(w, value, todo);
    w
  }

  lemma BegunMeasure<T>(value: T, todo: seq<nat>)
    ensures var w := Begun(value, todo); Sum(Aheads(w)) == 2 * Sum(todo) && Measure(w) == Budget(todo)
  {
    hide Sum;
    var w := Begun(value, todo);
    SumDoubled(Aheads(w), todo);
    SumConstant(Ranks(w.s), 5);
  }

  /** Every thread has done all its critical sections, or is a 128th reader that has panicked. */
  predicate Finished<T>(w: Work<T>)
    requires WellFormed(w)
  {
    forall t :: 0 <= t < |w.s.pc| ==> (w.s.pc[t].Away? && w.todo[t] == 0) || w.s.pc[t].Panicked?
  }

  lemma SomeoneActs<T>(w: Work<T>, t: Tid)
    requires WorkInv(w) && t < |w.s.pc| && !(w.s.pc[t].Away? && w.todo[t] == 0) && !w.s.pc[t].Panicked?
    ensures exists a :: Acts(w, a)
  {
    hide RwInv, CanAct;
    assert Shape(w.s.pc[t]);
    if w.s.pc[t].Away? {
      assert Acts(w, Start(t, Read, false));
    } else {
      if !CanAct(w.s, t) {
        SomeoneElseCan(w.s, t);
      }
      var u :| 0 <= u < |w.s.pc| && CanAct(w.s, u);
      assert Acts(w, Move(u));
    }
  }

  lemma CostBound<T>(w: Work<T>)
    requires WorkInv(w) && |w.s.pc| > 0
    ensures w.fails <= (|w.s.pc| - 1) * (w.drains + 1)
  {
    hide RwInv;
    var n := |w.s.pc| - 1;
    if Entered(w.s) != [] {
      var t := AwakeThread(w.s);
      FewListed(w.s, t);
    }
    assert n * (w.drains + 1) == n * w.drains + n;
  }

  lemma AwakeThread<T>(s: Rw<T>) returns (t: Tid)
    requires RwInv(s) && Entered(s) != []
    ensures t < |s.pc| && !s.pc[t].Park?
  {
    hide Encoded, ListsCovered;
    t := ListedIsFreed(s, Park(if s.readThreads != [] then Read else Write));
  }

  /** Termination: a run has at most this many actions, whatever the interleaving and the modes; and one that cannot be
      extended has finished every critical section of every thread, but for those of a thread that panicked, and with
      fewer than 128 threads none does. */
  lemma EveryRunFinishes<T>(value: T, todo: seq<nat>, acts: seq<Act>)
    requires Runs(Begun(value, todo), acts)
    ensures |acts| <= Budget(todo)
    ensures var w := Outcome(Begun(value, todo), acts);
            && ((forall a :: !Acts(w, a)) ==> Finished(w))
            && (|todo| < 128 ==> forall t :: 0 <= t < |w.s.pc| ==> !w.s.pc[t].Panicked?)
  {
    hide RwInv, Sum, Begun, Budget, Measure, Outcome, Runs, Acts, Aheads;
    BegunMeasure(value, todo);
    WorkRun(Begun(value, todo), acts);
    var w := Outcome(Begun(value, todo), acts);
    if t :| 0 <= t < |w.s.pc| && !(w.s.pc[t].Away? && w.todo[t] == 0) && !w.s.pc[t].Panicked? {
      SomeoneActs(w, t);
    }
  }

  /** Each wake-up is paid for, in every state of every run: a thread at its park has exactly one of a list entry, a
      pending unpark and its token, and every other thread has none. So refused attempts stay within one a thread and
      drain, and drains within two a critical section. */
  lemma WakeupCost<T>(value: T, todo: seq<nat>, acts: seq<Act>)
    requires Runs(Begun(value, todo), acts) && |todo| > 0
    ensures var w := Outcome(Begun(value, todo), acts);
            && (forall x :: 0 <= x < |w.s.pc| ==> OneClaim(w.s, x))
            && w.fails <= (|todo| - 1) * (w.drains + 1) && w.drains <= 2 * Sum(todo)
  {
    hide RwInv, Sum, Begun, Budget, Measure, Outcome, Runs, Aheads;
    BegunMeasure(value, todo);
    WorkRun(Begun(value, todo), acts);
    CostBound(Outcome(Begun(value, todo), acts));
  }
}
