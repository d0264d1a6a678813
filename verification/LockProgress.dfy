/** Progress of `lock_block` and the guard's release. Every thread has a finite number of critical
    sections left, each acquired with `lock_block`; a park returns only by its token. Then no run
    gets stuck, every run is finite with a bound known beforehand, and the wake-ups are paid for. */
module LockProgress {
  import opened Basics
  import opened Monitor
  import opened MonitorSteps
  import opened MonitorSafety
  import opened MonitorRuns
  import opened Sums

  /** `todo`: critical sections each thread has yet to start. `fails` and `drains` count the failed
      acquisition attempts and the times a releaser took the list. */
  datatype Work<T> = Work(m: State<T>, todo: seq<nat>, fails: nat, drains: nat)

  datatype Act = Start(t: Tid) | Move(t: Tid)

  predicate WellFormed<T>(w: Work<T>) { Wf(w.m) && |w.todo| == |w.m.pc| }

  predicate CanAct<T>(w: Work<T>, a: Act)
    requires WellFormed(w)
  {
    && a.t < |w.m.pc|
    && match a
       case Start(t) => w.m.pc[t].Out? && w.todo[t] > 0
       case Move(t) => w.m.pc[t].In? || CanGo(w.m, t)
  }

  /** The monitor step of an action: a thread in its critical section leaves it. */
  function Underlying<T>(w: Work<T>, a: Act): Step<T>
    requires WellFormed(w) && CanAct(w, a)
  {
    match a
    case Start(t) => Lock(t, Blocking, None)
    case Move(t) => if w.m.pc[t].In? then Unlock(t) else Go(t)
  }

  function Perform<T>(w: Work<T>, a: Act): Work<T>
    requires WellFormed(w) && CanAct(w, a)
  {
    Work(Apply(w.m, Underlying(w, a)),
         if a.Start? then w.todo[a.t := w.todo[a.t] - 1] else w.todo,
         if a.Move? && w.m.pc[a.t].BlockEnter? && w.m.lock.held then w.fails + 1 else w.fails,
         if a.Move? && w.m.pc[a.t].TakeThreads? then w.drains + 1 else w.drains)
  }

  function Begun<T>(value: T, todo: seq<nat>): (w: Work<T>)
    ensures WellFormed(w) && |w.m.pc| == |todo|
  {
    Work(Init(|todo|, value), todo, 0, 0)
  }

  // ------------------------------------------------------------ invariant

  predicate Shape(p: Pc) {
    match p
    case Out => true
    case In(_) => true
    case BlockEnter(dl, _) => dl.None?
    case BlockPark(dl, _) => dl.None?
    case Release(a) => a.Leave?
    case TakeThreads(a) => a.Leave?
    case WakeThreads(_, a) => a.Leave?
    case TakeTasks(a) => a.Leave?
    case WakeTasks(gs, a) => gs == [] && a.Leave?
    case _ => false
  }

  /** The unparks in flight, thread by thread. */
  function Pledges(pc: seq<Pc>): seq<seq<Tid>> { seq(|pc|, i requires 0 <= i < |pc| => Unparks(pc[i])) }

  /** List entries, in-flight unparks and token of thread `x`, together. */
  function Claims<T>(m: State<T>, x: Tid): nat
    requires Wf(m) && x < |m.pc|
  {
    multiset(m.lock.threads)[x] + Occurrences(Pledges(m.pc), x) + Bit(m.rt.token[x])
  }

  /** A thread at its park has exactly one claim to be woken; any other thread has none. */
  predicate OneClaim<T>(m: State<T>, x: Tid)
    requires Wf(m) && x < |m.pc|
  {
    Claims(m, x) == Bit(m.pc[x].BlockPark?)
  }

  ghost predicate WorkInv<T>(w: Work<T>) {
    && WellFormed(w) && Inv(w.m)
    && (forall t :: 0 <= t < |w.m.pc| ==> Shape(w.m.pc[t]))
    && w.m.lock.tasks == []
    && (forall x :: 0 <= x < |w.m.pc| ==> OneClaim(w.m, x))
    && (|w.m.pc| > 0 ==> w.fails <= (|w.m.pc| - 1) * w.drains + |w.m.lock.threads|)
  }

  lemma DueMoved<T>(m: State<T>, m': State<T>, t: Tid, x: Tid)
    requires Bounded(m, m', t)
    ensures Occurrences(Pledges(m'.pc), x) + multiset(Unparks(m.pc[t]))[x]
         == Occurrences(Pledges(m.pc), x) + multiset(Unparks(m'.pc[t]))[x]
  {
    assert Pledges(m'.pc) == Pledges(m.pc)[t := Unparks(m'.pc[t])];
    OccurrencesUpdate(Pledges(m.pc), t, Unparks(m'.pc[t]), x);
  }

  lemma DueAtLeast(pc: seq<Pc>, t: Tid, x: Tid)
    requires t < |pc|
    ensures multiset(Unparks(pc[t]))[x] <= Occurrences(Pledges(pc), x)
  {
    var lists := Pledges(pc);
    SumAtLeast(seq(|lists|, i requires 0 <= i < |lists| => multiset(lists[i])[x]), t);
  }

  /** The claims of `x` that an action of thread `t` can change. */
  function Near<T>(m: State<T>, t: Tid, x: Tid): nat
    requires Wf(m) && t < |m.pc| && x < |m.pc|
  {
    multiset(m.lock.threads)[x] + multiset(Unparks(m.pc[t]))[x] + Bit(m.rt.token[x])
  }

  lemma NearAcquire<T>(m: State<T>, t: Tid, x: Tid)
    requires Wf(m) && t < |m.pc| && CanGo(m, t) && Shape(m.pc[t]) && Acquires(m.pc[t]) && x < |m.pc|
    requires Wf(GoAcquire(m, t)) && |GoAcquire(m, t).pc| == |m.pc|
    ensures var m' := GoAcquire(m, t);
            Near(m', t, x) + Bit(m.pc[x].BlockPark?) == Near(m, t, x) + Bit(m'.pc[x].BlockPark?)
  {
  }

  lemma NearRelease<T>(m: State<T>, t: Tid, x: Tid)
    requires Wf(m) && t < |m.pc| && Shape(m.pc[t]) && Releases(m.pc[t]) && x < |m.pc|
    requires Wf(GoRelease(m, t)) && |GoRelease(m, t).pc| == |m.pc|
    requires Near(m, t, x) <= 1
    ensures var m' := GoRelease(m, t);
            Near(m', t, x) + Bit(m.pc[x].BlockPark?) == Near(m, t, x) + Bit(m'.pc[x].BlockPark?)
  {
    var ws := Unparks(m.pc[t]);
    if ws != [] {
      assert ws == [ws[0]] + ws[1..];
    }
  }

  lemma ClaimKept<T>(m: State<T>, t: Tid, x: Tid)
    requires Wf(m) && t < |m.pc| && CanGo(m, t) && Shape(m.pc[t]) && x < |m.pc| && OneClaim(m, x)
    requires Bounded(m, Advance(m, t), t) && Wf(Advance(m, t))
    ensures OneClaim(Advance(m, t), x)
  {
    hide GoAcquire, GoRelease, GoAwait, GoNotify;
    DueMoved(m, Advance(m, t), t, x);
    DueAtLeast(m.pc, t, x);
    if Acquires(m.pc[t]) {
      NearAcquire(m, t, x);
    } else {
      NearRelease(m, t, x);
    }
  }

  /** The list holds each thread at most once, and never one that is not at its park. */
  lemma FewListed<T>(m: State<T>, t: Tid)
    requires Wf(m) && t < |m.pc| && !m.pc[t].BlockPark?
    requires forall x :: 0 <= x < |m.pc| ==> OneClaim(m, x)
    ensures |m.lock.threads| <= |m.pc| - 1
  {
    var q := m.lock.threads;
    forall x | x in q
      ensures multiset(q)[x] <= 1 && x != t && x < |m.pc|
    {
      CountIn(q, x);
      assert OneClaim(m, x);
    }
    OnceIsNoDup(q);
    CardinalityNoDup(q);
    CardinalityBelow(SetOf(q) + {t}, |m.pc|);
    assert |SetOf(q) + {t}| == |SetOf(q)| + 1;
  }

  lemma ShapeKept<T>(w: Work<T>, a: Act)
    requires WorkInv(w) && CanAct(w, a)
    ensures var m' := Perform(w, a).m;
            |m'.pc| == |w.m.pc| && Shape(m'.pc[a.t]) && m'.lock.tasks == []
  {
    hide GoAcquire, GoRelease, GoAwait, GoNotify, Inv;
    assert Shape(w.m.pc[a.t]);
    if a.Move? && Acquires(w.m.pc[a.t]) {
      AcquireShape(w.m, a.t);
    } else if a.Move? && Releases(w.m.pc[a.t]) {
      ReleaseShape(w.m, a.t);
    }
  }

  lemma AcquireShape<T>(m: State<T>, t: Tid)
    requires Wf(m) && t < |m.pc| && CanGo(m, t) && Acquires(m.pc[t]) && Shape(m.pc[t])
    ensures var m' := GoAcquire(m, t); |m'.pc| == |m.pc| && Shape(m'.pc[t]) && m'.lock.tasks == m.lock.tasks
  {
  }

  lemma ReleaseShape<T>(m: State<T>, t: Tid)
    requires Wf(m) && t < |m.pc| && Releases(m.pc[t]) && Shape(m.pc[t]) && m.lock.tasks == []
    ensures var m' := GoRelease(m, t); |m'.pc| == |m.pc| && Shape(m'.pc[t]) && m'.lock.tasks == []
  {
  }

  /** Attempts that fail are paid for: by the entry they leave, or by the drain that took it. */
  lemma FailsKept<T>(w: Work<T>, a: Act)
    requires WorkInv(w) && CanAct(w, a)
    ensures var w' := Perform(w, a);
            w'.fails <= (|w.m.pc| - 1) * w'.drains + |w'.m.lock.threads|
  {
    hide GoAwait, GoNotify;
    assert Shape(w.m.pc[a.t]);
    var n := |w.m.pc| - 1;
    if a.Move? && w.m.pc[a.t].TakeThreads? {
      FewListed(w.m, a.t);
      assert n * (w.drains + 1) == n * w.drains + n;
    }
  }

  lemma WorkStep<T>(w: Work<T>, a: Act)
    requires WorkInv(w) && CanAct(w, a)
    ensures WorkInv(Perform(w, a))
  {
    hide Apply;
    var e := Underlying(w, a);
    var m' := Perform(w, a).m;
    InvStep(w.m, e);
    StepBounded(w.m, e);
    ShapeKept(w, a);
    FailsKept(w, a);
    forall x | 0 <= x < |m'.pc|
      ensures OneClaim(m', x)
    {
      assert OneClaim(w.m, x);
      ClaimStep(w, a, x);
    }
  }

  lemma ClaimStep<T>(w: Work<T>, a: Act, x: Tid)
    requires WorkInv(w) && CanAct(w, a) && x < |w.m.pc|
    ensures var m' := Perform(w, a).m; Wf(m') && |m'.pc| == |w.m.pc| && OneClaim(m', x)
  {
    hide Advance;
    var e := Underlying(w, a);
    var m' := Apply(w.m, e);
    StepBounded(w.m, e);
    WfStep(w.m, e);
    assert OneClaim(w.m, x);
    if e.Go? {
      ClaimKept(w.m, a.t, x);
    } else {
      DueMoved(w.m, m', a.t, x);
    }
  }

  // ------------------------------------------------------------ the measure

  /** How far a thread is from its next drain, or from its end. */
  function Rank(p: Pc, token: bool): nat {
    match p
    case WakeThreads(ws, _) => 8 + 3 * |ws|
    case TakeTasks(_) => 7
    case WakeTasks(_, _) => 6
    case Out => 5
    case BlockEnter(_, _) => 4
    case BlockPark(_, _) => if token then 5 else 3
    case In(_) => 2
    case Release(_) => 1
    case _ => 0
  }

  /** Drains a thread has still to do: one a critical section it has to start, and the current one. */
  function Ahead(p: Pc, todo: nat): nat {
    todo + Bit(p.BlockEnter? || p.BlockPark? || p.In? || p.Release? || p.TakeThreads?)
  }

  function Ranks<T>(m: State<T>): seq<nat>
    requires Wf(m)
  {
    seq(|m.pc|, i requires 0 <= i < |m.pc| => Rank(m.pc[i], m.rt.token[i]))
  }

  function Aheads<T>(w: Work<T>): seq<nat>
    requires WellFormed(w)
  {
    seq(|w.m.pc|, i requires 0 <= i < |w.m.pc| => Ahead(w.m.pc[i], w.todo[i]))
  }

  /** Lexicographic in one number: drains ahead, each worth more than any rank a drain can add, then
      the ranks. */
  function Measure<T>(w: Work<T>): nat
    requires WellFormed(w)
  {
    Sum(Aheads(w)) * (3 * |w.m.pc| + 9) + Sum(Ranks(w.m))
  }

  /** An action of thread `t` that changes no other thread's rank. */
  lemma RankMoved<T>(m: State<T>, m': State<T>, t: Tid)
    requires Bounded(m, m', t) && Wf(m) && Wf(m')
    requires forall x :: 0 <= x < |m.pc| && x != t ==> m'.rt.token[x] == m.rt.token[x]
    ensures Sum(Ranks(m')) + Rank(m.pc[t], m.rt.token[t]) == Sum(Ranks(m)) + Rank(m'.pc[t], m'.rt.token[t])
  {
    var v := Rank(m'.pc[t], m'.rt.token[t]);
    assert Ranks(m') == Ranks(m)[t := v];
    SumUpdate(Ranks(m), t, v);
  }

  /** Thread `t` unparks `x`, parked without its token. */
  lemma RankUnpark<T>(m: State<T>, m': State<T>, t: Tid, x: Tid)
    requires Bounded(m, m', t) && Wf(m) && Wf(m') && x < |m.pc| && x != t
    requires m'.rt.token == m.rt.token[x := true] && m.pc[x].BlockPark? && !m.rt.token[x]
    ensures Sum(Ranks(m')) + Rank(m.pc[t], m.rt.token[t]) == Sum(Ranks(m)) + Rank(m'.pc[t], m'.rt.token[t]) + 2
  {
    var v := Rank(m'.pc[t], m'.rt.token[t]);
    var r := Ranks(m)[t := v];
    SumUpdate(Ranks(m), t, v);
    SumUpdate(r, x, 5);
    assert Ranks(m') == r[x := 5];
  }

  lemma AheadMoved<T>(w: Work<T>, a: Act)
    requires WorkInv(w) && CanAct(w, a) && WellFormed(Perform(w, a)) && Bounded(w.m, Perform(w, a).m, a.t)
    ensures var w' := Perform(w, a);
            Sum(Aheads(w')) + Ahead(w.m.pc[a.t], w.todo[a.t]) == Sum(Aheads(w)) + Ahead(w'.m.pc[a.t], w'.todo[a.t])
  {
    hide Apply;
    var w' := Perform(w, a);
    var v := Ahead(w'.m.pc[a.t], w'.todo[a.t]);
    assert Aheads(w') == Aheads(w)[a.t := v];
    SumUpdate(Aheads(w), a.t, v);
  }

  /** The effect of an action on its own thread: a drain, or a smaller rank. */
  ghost predicate RankFacts<T>(m: State<T>, m': State<T>, t: Tid, todo: nat, todo': nat)
    requires Wf(m) && t < |m.pc|
  {
    && |m'.pc| == |m.pc| && |m'.rt.token| == |m.rt.token|
    && (m.pc[t].TakeThreads?
        ==> Ahead(m'.pc[t], todo') == Ahead(m.pc[t], todo) - 1 && m'.rt.token == m.rt.token
            && m'.pc[t] == WakeThreads(m.lock.threads, Leave))
    && (!m.pc[t].TakeThreads? ==> Ahead(m'.pc[t], todo') == Ahead(m.pc[t], todo))
    && (!m.pc[t].TakeThreads? && Unparks(m.pc[t]) == []
        ==> Rank(m'.pc[t], m'.rt.token[t]) < Rank(m.pc[t], m.rt.token[t])
            && forall x :: 0 <= x < |m.pc| && x != t ==> m'.rt.token[x] == m.rt.token[x])
    && (Unparks(m.pc[t]) != []
        ==> Rank(m'.pc[t], m'.rt.token[t]) == Rank(m.pc[t], m.rt.token[t]) - 3
            && m'.rt.token == m.rt.token[Unparks(m.pc[t])[0] := true])
  }

  lemma AcquireRank<T>(m: State<T>, t: Tid, todo: nat)
    requires Wf(m) && t < |m.pc| && CanGo(m, t) && Acquires(m.pc[t]) && Shape(m.pc[t])
    requires m.rt.token[t] ==> m.pc[t].BlockPark?
    ensures RankFacts(m, GoAcquire(m, t), t, todo, todo)
  {
  }

  lemma ReleaseRank<T>(m: State<T>, t: Tid, todo: nat)
    requires Wf(m) && t < |m.pc| && Releases(m.pc[t]) && Shape(m.pc[t])
    ensures RankFacts(m, GoRelease(m, t), t, todo, todo)
  {
  }

  lemma OwnRank<T>(w: Work<T>, a: Act)
    requires WorkInv(w) && CanAct(w, a)
    ensures RankFacts(w.m, Perform(w, a).m, a.t, w.todo[a.t], Perform(w, a).todo[a.t])
  {
    hide GoAcquire, GoRelease, GoAwait, GoNotify, Inv;
    assert Shape(w.m.pc[a.t]) && OneClaim(w.m, a.t);
    if a.Move? && Acquires(w.m.pc[a.t]) {
      AcquireRank(w.m, a.t, w.todo[a.t]);
    } else if a.Move? && Releases(w.m.pc[a.t]) {
      ReleaseRank(w.m, a.t, w.todo[a.t]);
    }
  }

  lemma RankFalls<T>(w: Work<T>, a: Act)
    requires WorkInv(w) && CanAct(w, a) && WellFormed(Perform(w, a)) && Bounded(w.m, Perform(w, a).m, a.t)
    ensures var r, r' := Sum(Ranks(w.m)), Sum(Ranks(Perform(w, a).m));
            if w.m.pc[a.t].TakeThreads? then r' < r + 3 * |w.m.pc| + 9 else r' < r
  {
    hide Apply, Sum, Ranks, Inv;
    var w', t := Perform(w, a), a.t;
    OwnRank(w, a);
    if w.m.pc[t].TakeThreads? {
      FewListed(w.m, t);
      RankMoved(w.m, w'.m, t);
    } else if Unparks(w.m.pc[t]) == [] {
      RankMoved(w.m, w'.m, t);
    } else {
      var x := Unparks(w.m.pc[t])[0];
      assert Below(Unparks(w.m.pc[t]), |w.m.pc|);
      assert Shape(w.m.pc[t]);
      assert OneClaim(w.m, x);
      InFlightIsParked(w.m, t, x);
      RankUnpark(w.m, w'.m, t, x);
    }
  }

  /** Every action makes the measure smaller. */
  lemma MeasureFalls<T>(w: Work<T>, a: Act)
    requires WorkInv(w) && CanAct(w, a)
    ensures WellFormed(Perform(w, a)) && Measure(Perform(w, a)) < Measure(w)
  {
    hide Apply, Sum, Ranks, Aheads, Inv;
    var w' := Perform(w, a);
    assert WellFormed(w') && Bounded(w.m, w'.m, a.t) by {
      WfStep(w.m, Underlying(w, a));
      StepBounded(w.m, Underlying(w, a));
    }
    OwnRank(w, a);
    AheadMoved(w, a);
    RankFalls(w, a);
    Lexicographic(Sum(Aheads(w)), Sum(Aheads(w')), Sum(Ranks(w.m)), Sum(Ranks(w'.m)), 3 * |w.m.pc| + 9);
  }

  lemma Lexicographic(d: nat, d': nat, r: nat, r': nat, k: nat)
    requires (d' == d && r' < r) || (d' + 1 == d && r' < r + k)
    ensures d' * k + r' < d * k + r
  {
    if d' + 1 == d {
      assert d * k == d' * k + k;
    }
  }

  /** A thread about to be unparked is at its park, without its token. */
  lemma InFlightIsParked<T>(m: State<T>, t: Tid, x: Tid)
    requires Wf(m) && t < |m.pc| && x in Unparks(m.pc[t]) && x < |m.pc| && OneClaim(m, x)
    ensures m.pc[x].BlockPark? && !m.rt.token[x] && x !in m.lock.threads
  {
    DueAtLeast(m.pc, t, x);
    CountIn(Unparks(m.pc[t]), x);
    CountIn(m.lock.threads, x);
  }

  // ------------------------------------------------------------ runs

  ghost predicate Runs<T>(w: Work<T>, acts: seq<Act>)
    requires WellFormed(w)
    decreases |acts|
  {
    acts == [] || (CanAct(w, acts[0]) && (WfStep(w.m, Underlying(w, acts[0])); Runs(Perform(w, acts[0]), acts[1..])))
  }

  ghost function Outcome<T>(w: Work<T>, acts: seq<Act>): (w': Work<T>)
    requires WellFormed(w) && Runs(w, acts)
    ensures WellFormed(w') && |w'.m.pc| == |w.m.pc|
    decreases |acts|
  {
    if acts == [] then w else (WfStep(w.m, Underlying(w, acts[0])); Outcome(Perform(w, acts[0]), acts[1..]))
  }

  lemma {:induction false} WorkRun<T>(w: Work<T>, acts: seq<Act>)
    requires WorkInv(w) && Runs(w, acts)
    ensures var w' := Outcome(w, acts);
            && WorkInv(w')
            && Measure(w') + |acts| <= Measure(w)
            && w'.drains + Sum(Aheads(w')) == w.drains + Sum(Aheads(w))
    decreases |acts|
  {
    hide Apply, Sum, Ranks, Aheads, Inv;
    if acts != [] {
      var w1 := Perform(w, acts[0]);
      WorkStep(w, acts[0]);
      MeasureFalls(w, acts[0]);
      StepBounded(w.m, Underlying(w, acts[0]));
      OwnRank(w, acts[0]);
      AheadMoved(w, acts[0]);
      WorkRun(w1, acts[1..]);
    }
  }

  lemma BegunInv<T>(value: T, todo: seq<nat>)
    ensures WorkInv(Begun(value, todo))
  {
    hide Inv;
    var w := Begun(value, todo);
    InitInv(|todo|, value);
    forall x | 0 <= x < |todo|
      ensures OneClaim(w.m, x)
    {
      var lists := Pledges(w.m.pc);
      SumConstant(seq(|lists|, i requires 0 <= i < |lists| => multiset(lists[i])[x]), 0);
    }
  }

  /** The bound on the length of any run: linear in the critical sections times the threads. */
  function Budget(todo: seq<nat>): nat { Sum(todo) * (3 * |todo| + 9) + 5 * |todo| }

  lemma BegunMeasure<T>(value: T, todo: seq<nat>)
    ensures var w := Begun(value, todo);
            && Sum(Aheads(w)) == Sum(todo)
            && Measure(w) == Budget(todo)
            && |w.m.pc| == |todo|
  {
    hide Sum;
    var w := Begun(value, todo);
    assert Aheads(w) == todo;
    SumConstant(Ranks(w.m), 5);
  }

  lemma Reached<T>(value: T, todo: seq<nat>, acts: seq<Act>)
    requires Runs(Begun(value, todo), acts)
    ensures var w := Outcome(Begun(value, todo), acts);
            && WorkInv(w) && |w.m.pc| == |todo|
            && |acts| <= Budget(todo)
            && w.drains + Sum(Aheads(w)) == Sum(todo)
  {
    hide Inv, Sum, Measure, Aheads, Budget;
    var w := Begun(value, todo);
    BegunInv(value, todo);
    BegunMeasure(value, todo);
    assert w.drains == 0;
    WorkRun(w, acts);
  }

  /** All critical sections are done and every thread is outside. */
  predicate Finished<T>(w: Work<T>)
    requires WellFormed(w)
  {
    forall t :: 0 <= t < |w.m.pc| ==> w.m.pc[t].Out? && w.todo[t] == 0
  }

  /** No deadlock: in every reachable state that is not finished some thread can act. */
  lemma NoDeadlock<T>(value: T, todo: seq<nat>, acts: seq<Act>)
    requires Runs(Begun(value, todo), acts)
    ensures var w := Outcome(Begun(value, todo), acts);
            Finished(w) || exists a :: CanAct(w, a)
  {
    hide Inv, Sum, Begun, Outcome, Runs;
    Reached(value, todo, acts);
    var w := Outcome(Begun(value, todo), acts);
    if !Finished(w) {
      var t :| 0 <= t < |w.m.pc| && !(w.m.pc[t].Out? && w.todo[t] == 0);
      SomeoneActs(w, t);
    }
  }

  lemma SomeoneActs<T>(w: Work<T>, t: Tid)
    requires WorkInv(w) && t < |w.m.pc| && !(w.m.pc[t].Out? && w.todo[t] == 0)
    ensures exists a :: CanAct(w, a)
  {
    hide Inv;
    assert Shape(w.m.pc[t]);
    if w.m.pc[t].Out? {
      assert CanAct(w, Start(t));
    } else if w.m.pc[t].BlockPark? && !w.m.rt.token[t] {
      ParkedIsRescued(w.m, t);
      var u :| 0 <= u < |w.m.pc| && u != t && Rescues(w.m.pc[u], t);
      assert Shape(w.m.pc[u]);
      assert CanAct(w, Move(u));
    } else {
      assert CanAct(w, Move(t));
    }
  }

  /** Termination: a run has at most this many actions, whatever the interleaving; and one that cannot
      be extended has finished every critical section of every thread. */
  lemma EveryRunFinishes<T>(value: T, todo: seq<nat>, acts: seq<Act>)
    requires Runs(Begun(value, todo), acts)
    ensures |acts| <= Budget(todo)
    ensures var w := Outcome(Begun(value, todo), acts);
            (forall a :: !CanAct(w, a)) ==> Finished(w) && w.drains == Sum(todo)
  {
    hide WorkInv, Sum, Begun, Budget, Outcome, Runs, CanAct, Aheads;
    Reached(value, todo, acts);
    NoDeadlock(value, todo, acts);
    var w := Outcome(Begun(value, todo), acts);
    if Finished(w) {
      NothingAhead(w);
    }
  }

  lemma NothingAhead<T>(w: Work<T>)
    requires WellFormed(w) && Finished(w)
    ensures Sum(Aheads(w)) == 0
  {
    SumZero(Aheads(w));
  }

  /** Each wake-up is paid for. A thread at its park has exactly one of a list entry, a pending unpark
      and its token; every other thread has none. So failed attempts stay within one a thread and
      drain, in every state of every run. */
  lemma WakeupCost<T>(value: T, todo: seq<nat>, acts: seq<Act>)
    requires Runs(Begun(value, todo), acts) && |todo| > 0
    ensures var w := Outcome(Begun(value, todo), acts);
            && (forall x :: 0 <= x < |w.m.pc| ==> OneClaim(w.m, x))
            && w.fails <= (|todo| - 1) * (w.drains + 1)
            && w.drains <= Sum(todo)
  {
    hide Inv, Sum, Begun, Outcome, Runs;
    Reached(value, todo, acts);
    CostBound(Outcome(Begun(value, todo), acts));
  }

  lemma CostBound<T>(w: Work<T>)
    requires WorkInv(w) && |w.m.pc| > 0
    ensures w.fails <= (|w.m.pc| - 1) * (w.drains + 1)
  {
    hide Inv;
    var n := |w.m.pc| - 1;
    if w.m.lock.threads != [] {
      var t := AwakeThread(w.m);
      FewListed(w.m, t);
    }
    assert n * (w.drains + 1) == n * w.drains + n;
  }

  lemma AwakeThread<T>(m: State<T>) returns (t: Tid)
    requires Inv(m) && m.lock.threads != []
    ensures t < |m.pc| && !m.pc[t].BlockPark?
  {
    if m.lock.held {
      t :| 0 <= t < |m.pc| && Holds(m.pc[t]);
    } else {
      t :| 0 <= t < |m.pc| && OwesThreads(m.pc[t]);
    }
  }
}
