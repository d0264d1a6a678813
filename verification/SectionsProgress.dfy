/** Progress of `lock_block` and the guard's release, action by action. `LockProgress` bounds the runs of the machine
    whose sections are whole. Here every section is a swap, an attempt, perhaps a push, and a store, and a thread that
    finds a spinlock set cannot go on: the runs are bounded all the same, and one that cannot go on has finished every
    critical section of every thread. */
module SectionsProgress {
  import opened Basics
  import opened Sums
  import opened Monitor
  import opened MonitorSteps
  import opened MonitorSafety
  import opened MonitorSections
  import LockProgress

  /** `todo`, `fails` and `drains` as in `LockProgress`. */
  datatype Job<T> = Job(f: Fine<T>, todo: seq<nat>, fails: nat, drains: nat)

  /** A thread begins a critical section or leaves the one it is in, or takes the next action of its call. */
  datatype Deed =
    | Begin(t: Tid) | Leave(t: Tid)
    | Take(t: Tid) | Enter(t: Tid) | Try(t: Tid) | Push(t: Tid) | Clear(t: Tid)

  function AsStep<T>(d: Deed): FineStep<T> {
    match d
    case Begin(t) => Plain(Lock(t, Blocking, None))
    case Leave(t) => Plain(Unlock(t))
    case Take(t) => Plain(Go(t))
    case Enter(t) => Swap(t, None)
    case Try(t) => Act(t)
    case Push(t) => FineStep.Push(t)
    case Clear(t) => Unset(t)
  }

  predicate Sizes<T>(j: Job<T>) { Wf(j.f.s) && |j.todo| == |j.f.at| == |j.f.s.pc| }

  ghost predicate JobWf<T>(j: Job<T>)
    ensures JobWf(j) ==> Sizes(j)
  {
    FineWf(j.f) && |j.todo| == |j.f.at|
  }

  predicate Free<T>(j: Job<T>, d: Deed)
    requires Sizes(j)
  {
    d.t < |j.todo| && FineEnabled(j.f, AsStep(d)) && (d.Begin? ==> j.todo[d.t] > 0)
  }

  ghost function Do<T>(j: Job<T>, d: Deed): Job<T>
    requires JobWf(j) && Free(j, d)
  {
    var p := j.f.s.pc[d.t];
    Job(FineApply(j.f, AsStep(d)),
        if d.Begin? then j.todo[d.t := j.todo[d.t] - 1] else j.todo,
        if d.Try? && p.BlockEnter? && j.f.s.lock.held then j.fails + 1 else j.fails,
        if d.Try? && p.TakeThreads? then j.drains + 1 else j.drains)
  }

  // ------------------------------------------------------------ the run of whole sections that it is

  function Whole<T>(j: Job<T>): LockProgress.Work<T>
    requires Sizes(j)
  {
    LockProgress.Work(Abs(j.f), j.todo, j.fails, j.drains)
  }

  /** The action of `LockProgress` that a deed is, if any. */
  function WholeAct(d: Deed): Option<LockProgress.Act> {
    match d
    case Begin(t) => Some(LockProgress.Start(t))
    case Leave(t) => Some(LockProgress.Move(t))
    case Take(t) => Some(LockProgress.Move(t))
    case Try(t) => Some(LockProgress.Move(t))
    case _ => None
  }

  ghost predicate JobInv<T>(j: Job<T>)
    ensures JobInv(j) ==> JobWf(j) && Sizes(j) && LockProgress.WellFormed(Whole(j))
  {
    && JobWf(j) && LockProgress.WorkInv(Whole(j))
    && forall t :: 0 <= t < |j.f.at| && j.f.at[t].Entered? ==> j.f.at[t].call.None?
  }

  /** The thread that takes a step of the machine is where it is in both. */
  lemma SamePlace<T>(j: Job<T>, d: Deed)
    requires JobInv(j) && Free(j, d) && WholeAct(d).Some?
    ensures d.t < |Abs(j.f).pc| && Abs(j.f).pc[d.t] == j.f.s.pc[d.t] && Abs(j.f).lock.held == j.f.s.lock.held
    ensures Coarse(j.f, AsStep(d)) == Some(if d.Begin? then Lock(d.t, Blocking, None)
                                           else if d.Leave? then Unlock(d.t) else Go(d.t))
    ensures d.Take? ==> !j.f.s.pc[d.t].TakeThreads? && !j.f.s.pc[d.t].BlockEnter?
    ensures d.Leave? ==> j.f.s.pc[d.t].In?
    ensures d.Take? || d.Try? ==> !j.f.s.pc[d.t].In?
    ensures d.Begin? ==> j.f.s.pc[d.t].Out?
  {
    assert Fits(j.f, d.t);
  }

  /** Every deed is one action of `LockProgress`, or none. */
  lemma DeedRefines<T>(j: Job<T>, d: Deed)
    requires JobInv(j) && Free(j, d)
    ensures JobWf(Do(j, d)) && |Do(j, d).todo| == |j.todo|
    ensures var a := WholeAct(d);
            if a.Some? then
              LockProgress.CanAct(Whole(j), a.value) && Whole(Do(j, d)) == LockProgress.Perform(Whole(j), a.value)
            else Whole(Do(j, d)) == Whole(j)
  {
    hide Apply, Inv, Fits, FineApply, Abs, Coarse, FineWf, Wf;
    StepRefines(j.f, AsStep(d));
    if WholeAct(d).Some? {
      SamePlace(j, d);
    } else {
      NoStep(j, d);
    }
  }

  lemma NoStep<T>(j: Job<T>, d: Deed)
    requires JobWf(j) && Free(j, d) && WholeAct(d).None?
    ensures Coarse(j.f, AsStep(d)).None?
  {
  }

  lemma DeedInv<T>(j: Job<T>, d: Deed)
    requires JobInv(j) && Free(j, d)
    ensures JobInv(Do(j, d)) && |Do(j, d).todo| == |j.todo|
  {
    hide Apply, LockProgress.WorkInv, FineWf, Abs;
    DeedRefines(j, d);
    if WholeAct(d).Some? {
      LockProgress.WorkStep(Whole(j), WholeAct(d).value);
    }
  }

  // ------------------------------------------------------------ the measure

  /** Steps of a section that are none of the machine with whole sections: at most one before the attempt, and two after
      it. */
  function Depth(at: Place): nat {
    match at
    case Entered(_, _) => 0
    case Outside => 1
    case Closing(_) => 2
    case Missed(_, _) => 3
  }

  function Depths(at: seq<Place>): seq<nat> { seq(|at|, i requires 0 <= i < |at| => Depth(at[i])) }

  /** Four for each unit of `LockProgress.Measure`. */
  function FineMeasure<T>(j: Job<T>): nat
    requires Sizes(j) && LockProgress.WellFormed(Whole(j))
  {
    4 * LockProgress.Measure(Whole(j)) + Sum(Depths(j.f.at))
  }

  lemma DepthMoves<T>(j: Job<T>, d: Deed)
    requires JobWf(j) && Free(j, d)
    ensures var at, at' := j.f.at, Do(j, d).f.at;
            && |at'| == |at| && Sum(Depths(at')) + Depth(at[d.t]) == Sum(Depths(at)) + Depth(at'[d.t])
            && (if WholeAct(d).None? then Depth(at'[d.t]) == Depth(at[d.t]) - 1
                else Depth(at'[d.t]) <= Depth(at[d.t]) + 3)
  {
    hide Apply, Sum;
    var at, at' := j.f.at, Do(j, d).f.at;
    assert Fits(j.f, d.t);
    assert Depths(at') == Depths(at)[d.t := Depth(at'[d.t])];
    SumUpdate(Depths(at), d.t, Depth(at'[d.t]));
  }

  lemma FineMeasureFalls<T>(j: Job<T>, d: Deed)
    requires JobInv(j) && Free(j, d)
    ensures JobWf(Do(j, d)) && LockProgress.WellFormed(Whole(Do(j, d))) && FineMeasure(Do(j, d)) < FineMeasure(j)
  {
    hide LockProgress.WorkInv, LockProgress.Measure, LockProgress.Perform, LockProgress.CanAct, Sum, Abs, FineWf;
    hide FineApply;
    DeedRefines(j, d);
    DepthMoves(j, d);
    DeedInv(j, d);
    if WholeAct(d).Some? {
      LockProgress.MeasureFalls(Whole(j), WholeAct(d).value);
    }
  }

  // ------------------------------------------------------------ runs

  ghost predicate Works<T>(j: Job<T>, ds: seq<Deed>)
    requires JobInv(j)
    decreases |ds|
  {
    ds == [] || (Free(j, ds[0]) && (DeedInv(j, ds[0]); Works(Do(j, ds[0]), ds[1..])))
  }

  ghost function Result<T>(j: Job<T>, ds: seq<Deed>): (j': Job<T>)
    requires JobInv(j) && Works(j, ds)
    ensures JobInv(j') && |j'.todo| == |j.todo|
    decreases |ds|
  {
    if ds == [] then j else (DeedInv(j, ds[0]); Result(Do(j, ds[0]), ds[1..]))
  }

  lemma {:induction false} WorksWithin<T>(j: Job<T>, ds: seq<Deed>)
    requires JobInv(j) && Works(j, ds)
    ensures FineMeasure(Result(j, ds)) + |ds| <= FineMeasure(j)
    decreases |ds|
  {
    hide JobWf, JobInv, LockProgress.WellFormed, FineMeasure, Do, Free, Abs;
    if ds != [] {
      DeedInv(j, ds[0]);
      FineMeasureFalls(j, ds[0]);
      WorksWithin(Do(j, ds[0]), ds[1..]);
    }
  }

  /** All the drains that are ahead are done or still ahead. */
  lemma {:induction false} DrainsAdd<T>(j: Job<T>, ds: seq<Deed>)
    requires JobInv(j) && Works(j, ds)
    ensures var w, w' := Whole(j), Whole(Result(j, ds));
            w'.drains + Sum(LockProgress.Aheads(w')) == w.drains + Sum(LockProgress.Aheads(w))
    decreases |ds|
  {
    hide JobWf, LockProgress.WorkInv, LockProgress.Aheads, LockProgress.Perform, LockProgress.CanAct, Sum;
    hide Do, Free, Abs;
    if ds != [] {
      DeedInv(j, ds[0]);
      DeedRefines(j, ds[0]);
      DrainsAdd(Do(j, ds[0]), ds[1..]);
      var a := WholeAct(ds[0]);
      if a.Some? { OneDrain(Whole(j), a.value); }
    }
  }

  lemma OneDrain<T>(w: LockProgress.Work<T>, a: LockProgress.Act)
    requires LockProgress.WorkInv(w) && LockProgress.CanAct(w, a)
    ensures var w' := LockProgress.Perform(w, a);
            LockProgress.WellFormed(w')
            && w'.drains + Sum(LockProgress.Aheads(w')) == w.drains + Sum(LockProgress.Aheads(w))
  {
    assert LockProgress.Runs(w, [a]) by {
      WfStep(w.m, LockProgress.Underlying(w, a));
      assert [a][1..] == [];
    }
    LockProgress.WorkRun(w, [a]);
    assert LockProgress.Outcome(w, [a]) == LockProgress.Perform(w, a);
  }

  lemma StartInv<T>(j: Job<T>, value: T, todo: seq<nat>)
    requires j == Job(MonitorSections.Start(|todo|, value), todo, 0, 0)
    ensures JobInv(j) && Whole(j) == LockProgress.Begun(value, todo)
  {
    hide LockProgress.WorkInv, FineWf, Abs;
    StartsAtInit(|todo|, value);
    LockProgress.BegunInv(value, todo);
  }

  ghost function New<T>(value: T, todo: seq<nat>): (j: Job<T>)
    ensures JobInv(j) && |j.todo| == |todo| && j.drains == 0
  {
    var j := Job(MonitorSections.Start(|todo|, value), todo, 0, 0);
    StartInv(j, value, todo);
    j
  }

  lemma NewMeasure<T>(value: T, todo: seq<nat>)
    ensures Sum(LockProgress.Aheads(Whole(New(value, todo)))) == Sum(todo)
    ensures FineMeasure(New(value, todo)) == 4 * LockProgress.Budget(todo) + |todo|
  {
    hide LockProgress.WorkInv, JobWf, Sum, Abs;
    var j := New(value, todo);
    StartInv(j, value, todo);
    LockProgress.BegunMeasure(value, todo);
    SumConstant(Depths(j.f.at), 1);
  }

  // ------------------------------------------------------------ nobody is stuck

  /** All critical sections are done, every thread is outside, and no spinlock is set. */
  ghost predicate AllDone<T>(j: Job<T>)
    requires JobWf(j)
  {
    j.f.spin == map[] && forall t :: 0 <= t < |j.todo| ==> j.f.s.pc[t].Out? && j.f.at[t].Outside? && j.todo[t] == 0
  }

  lemma InSectionIsFree<T>(j: Job<T>, t: Tid)
    requires JobWf(j) && t < |j.todo| && !j.f.at[t].Outside?
    ensures exists d :: Free(j, d)
  {
    var d := match j.f.at[t]
             case Entered(_, _) => Deed.Try(t)
             case Missed(_, _) => Deed.Push(t)
             case _ => Deed.Clear(t);
    assert Free(j, d);
  }

  /** Wherever whole sections let some thread act, some thread can act here. */
  lemma ActsHere<T>(j: Job<T>, a: LockProgress.Act)
    requires JobWf(j) && LockProgress.WellFormed(Whole(j)) && LockProgress.CanAct(Whole(j), a)
    ensures exists d :: Free(j, d)
  {
    var t := a.t;
    assert Fits(j.f, t);
    if !j.f.at[t].Outside? {
      InSectionIsFree(j, t);
    } else if a.Start? {
      assert Free(j, Begin(t));
    } else if j.f.s.pc[t].In? {
      assert Free(j, Deed.Leave(t));
    } else if ListOf(j.f.s.pc[t]).None? {
      assert Free(j, Take(t));
    } else if ListOf(j.f.s.pc[t]).value in j.f.spin {
      InSectionIsFree(j, j.f.spin[ListOf(j.f.s.pc[t]).value]);
    } else {
      assert Free(j, Enter(t));
    }
  }

  lemma StuckIsDone<T>(j: Job<T>)
    requires JobInv(j) && forall d :: !Free(j, d)
    ensures AllDone(j) && LockProgress.Finished(Whole(j))
  {
    hide LockProgress.WorkInv, LockProgress.CanAct, Free, Fits, Wf;
    if t :| 0 <= t < |j.f.at| && !j.f.at[t].Outside? {
      InSectionIsFree(j, t);
    }
    var w := Whole(j);
    if t :| 0 <= t < |w.m.pc| && !(w.m.pc[t].Out? && w.todo[t] == 0) {
      LockProgress.SomeoneActs(w, t);
      var a :| LockProgress.CanAct(w, a);
      ActsHere(j, a);
    }
    assert forall t :: 0 <= t < |j.todo| ==> w.m.pc[t] == j.f.s.pc[t];
  }

  /** A run that cannot be extended has drained once for each critical section. */
  lemma StuckHasDrained<T>(value: T, todo: seq<nat>, ds: seq<Deed>)
    requires Works(New(value, todo), ds) && forall d :: !Free(Result(New(value, todo), ds), d)
    ensures AllDone(Result(New(value, todo), ds)) && Result(New(value, todo), ds).drains == Sum(todo)
  {
    hide LockProgress.WorkInv, LockProgress.Aheads, LockProgress.Begun, JobWf, FineMeasure, Free, Works, Result, Abs;
    hide Sum;
    var j := Result(New(value, todo), ds);
    StuckIsDone(j);
    LockProgress.NothingAhead(Whole(j));
    DrainsAdd(New(value, todo), ds);
    NewMeasure(value, todo);
  }

  /** Termination, action by action: a run of swaps, attempts, pushes and stores has at most this many, whatever the
      interleaving; and one that cannot be extended has finished every critical section of every thread and left every
      spinlock clear. */
  lemma EveryFineRunFinishes<T>(value: T, todo: seq<nat>, ds: seq<Deed>)
    requires Works(New(value, todo), ds)
    ensures |ds| <= 4 * LockProgress.Budget(todo) + |todo|
    ensures var j := Result(New(value, todo), ds);
            (forall d :: !Free(j, d)) ==> AllDone(j) && j.drains == Sum(todo)
  {
    hide JobWf, JobInv, LockProgress.Budget, FineMeasure, Works, Result, Free, AllDone, Sum, New;
    NewMeasure(value, todo);
    WorksWithin(New(value, todo), ds);
    var j := Result(New(value, todo), ds);
    if forall d :: !Free(j, d) {
      StuckHasDrained(value, todo, ds);
    }
  }

  /** Each wake-up is paid for here too, in every state of every run. */
  lemma FineWakeupCost<T>(value: T, todo: seq<nat>, ds: seq<Deed>)
    requires Works(New(value, todo), ds) && |todo| > 0
    ensures var j := Result(New(value, todo), ds);
            j.fails <= (|todo| - 1) * (j.drains + 1) && j.drains <= Sum(todo)
  {
    hide LockProgress.WorkInv, LockProgress.Aheads, LockProgress.Begun, JobWf, FineMeasure, Works, Result, Abs, Sum;
    var j := Result(New(value, todo), ds);
    LockProgress.CostBound(Whole(j));
    DrainsAdd(New(value, todo), ds);
    NewMeasure(value, todo);
  }
}
