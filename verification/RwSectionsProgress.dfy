/** Progress of the reader-writer lock, action by action, as `SectionsProgress` has it for the mutex. A reader that
    panics as the 128th leaves the spinlock of its list set, so a run that cannot go on has finished everything, or
    somebody has panicked; with fewer than 128 threads nobody does. */
module RwSectionsProgress {
  import opened Basics
  import opened Sums
  import opened RwLock
  import opened RwLockSections
  import RwProgress

  /** `todo`, `fails` and `drains` as in `RwProgress`. */
  datatype Job<T> = Job(f: Fine<T>, todo: seq<nat>, fails: nat, drains: nat)

  /** A thread begins a critical section or leaves the one it is in, or takes the next action of its call. */
  datatype Deed =
    | Begin(t: Tid, m: Mode, spins: bool) | Leave(t: Tid)
    | Take(t: Tid) | Enter(t: Tid) | Try(t: Tid) | Push(t: Tid) | Clear(t: Tid)

  function AsStep<T>(d: Deed): FineStep<T> {
    match d
    case Begin(t, m, spins) => Plain(Lock(t, m, if spins then Spinning else Blocking))
    case Leave(t) => Plain(Unlock(t))
    case Take(t) => Plain(Go(t))
    case Enter(t) => Swap(t)
    case Try(t) => Act(t)
    case Push(t) => FineStep.Push(t)
    case Clear(t) => Unset(t)
  }

  predicate Sizes<T>(j: Job<T>) { Wf(j.f.s) && |j.todo| == |j.f.at| == |j.f.s.pc| }

  ghost predicate JobWf<T>(j: Job<T>)
    ensures JobWf(j) ==> Sizes(j)
  {
    FineWf(j.f) && |j.todo| == |j.f.at|
  }

  predicate Free<T>(j: Job<T>, d: Deed)
    requires Sizes(j)
  {
    d.t < |j.todo| && FineEnabled(j.f, AsStep(d)) && (d.Begin? ==> j.todo[d.t] > 0)
  }

  ghost function Do<T>(j: Job<T>, d: Deed): Job<T>
    requires JobWf(j) && Free(j, d)
  {
    Job(FineApply(j.f, AsStep(d)),
        if d.Begin? then j.todo[d.t := j.todo[d.t] - 1] else j.todo,
        if d.Try? && RwProgress.IsRefused(j.f.s, d.t) then j.fails + 1 else j.fails,
        if d.Try? && RwProgress.Drains(j.f.s.pc[d.t]) then j.drains + 1 else j.drains)
  }

  // ------------------------------------------------------------ the run of whole sections that it is

  function Whole<T>(j: Job<T>): RwProgress.Work<T>
    requires Sizes(j)
  {
    RwProgress.Work(Abs(j.f), j.todo, j.fails, j.drains)
  }

  /** The action of `RwProgress` that a deed is, if any. */
  function WholeAct(d: Deed): Option<RwProgress.Act> {
    match d
    case Begin(t, m, spins) => Some(RwProgress.Start(t, m, spins))
    case Leave(t) => Some(RwProgress.Move(t))
    case Take(t) => Some(RwProgress.Move(t))
    case Try(t) => Some(RwProgress.Move(t))
    case _ => None
  }

  ghost predicate JobInv<T>(j: Job<T>)
    ensures JobInv(j) ==> JobWf(j) && Sizes(j) && RwProgress.WorkInv(Whole(j))
  {
    JobWf(j) && RwProgress.WorkInv(Whole(j))
  }

  /** The thread that takes a step of the machine is where it is in both. */
  lemma SamePlace<T>(j: Job<T>, d: Deed)
    requires JobInv(j) && Free(j, d) && WholeAct(d).Some?
    ensures d.t < |Abs(j.f).pc| && Abs(j.f).pc[d.t] == j.f.s.pc[d.t] && Abs(j.f).word == j.f.s.word
    ensures Coarse(j.f, AsStep(d))
            == Some(if d.Begin? then Lock(d.t, d.m, if d.spins then Spinning else Blocking)
                    else if d.Leave? then Unlock(d.t) else Go(d.t))
    ensures d.Take? ==> !j.f.s.pc[d.t].Take? && !j.f.s.pc[d.t].Enter?
    ensures d.Leave? ==> j.f.s.pc[d.t].Reading? || j.f.s.pc[d.t].Writing?
    ensures d.Take? || d.Try? ==> !j.f.s.pc[d.t].Reading? && !j.f.s.pc[d.t].Writing?
    ensures d.Begin? ==> j.f.s.pc[d.t].Away?
  {
    hide RwProgress.WorkInv;
    assert Fits(j.f, d.t);
  }

  /** Every deed is one action of `RwProgress`, or none. */
  lemma DeedRefines<T>(j: Job<T>, d: Deed)
    requires JobInv(j) && Free(j, d)
    ensures JobWf(Do(j, d)) && |Do(j, d).todo| == |j.todo|
    ensures var a := WholeAct(d);
            if a.Some? then
              RwProgress.Acts(Whole(j), a.value) && Whole(Do(j, d)) == RwProgress.Perform(Whole(j), a.value)
            else Whole(Do(j, d)) == Whole(j)
  {
    hide Apply, RwProgress.WorkInv, Fits, FineApply, Abs, Coarse, FineWf, Wf;
    StepRefines(j.f, AsStep(d));
    if WholeAct(d).Some? {
      SamePlace(j, d);
    } else {
      NoStep(j, d);
    }
  }

  lemma NoStep<T>(j: Job<T>, d: Deed)
    requires JobWf(j) && Free(j, d) && WholeAct(d).None?
    ensures Coarse(j.f, AsStep(d)).None?
  {
  }

  lemma DeedInv<T>(j: Job<T>, d: Deed)
    requires JobInv(j) && Free(j, d)
    ensures JobInv(Do(j, d)) && |Do(j, d).todo| == |j.todo|
  {
    hide Apply, RwProgress.WorkInv, FineWf, Abs;
    DeedRefines(j, d);
    if WholeAct(d).Some? {
      RwProgress.WorkStep(Whole(j), WholeAct(d).value);
    }
  }

  // ------------------------------------------------------------ the measure

  /** Steps of a section that are none of the machine with whole sections: at most one before the attempt, and two after
      it. */
  function Depth(at: Place): nat {
    match at
    case Entered(_) => 0
    case Outside => 1
    case Closing(_) => 2
    case Missed(_, _) => 3
  }

  function Depths(at: seq<Place>): seq<nat> { seq(|at|, i requires 0 <= i < |at| => Depth(at[i])) }

  /** Four for each unit of `RwProgress.Measure`. */
  function FineMeasure<T>(j: Job<T>): nat
    requires Sizes(j) && RwProgress.WellFormed(Whole(j))
  {
    4 * RwProgress.Measure(Whole(j)) + Sum(Depths(j.f.at))
  }

  lemma DepthMoves<T>(j: Job<T>, d: Deed)
    requires JobWf(j) && Free(j, d)
    ensures var at, at' := j.f.at, Do(j, d).f.at;
            && |at'| == |at| && Sum(Depths(at')) + Depth(at[d.t]) == Sum(Depths(at)) + Depth(at'[d.t])
            && (if WholeAct(d).None? then Depth(at'[d.t]) == Depth(at[d.t]) - 1
                else Depth(at'[d.t]) <= Depth(at[d.t]) + 3)
  {
    hide Apply, Sum;
    var at, at' := j.f.at, Do(j, d).f.at;
    assert Fits(j.f, d.t);
    assert Depths(at') == Depths(at)[d.t := Depth(at'[d.t])];
    SumUpdate(Depths(at), d.t, Depth(at'[d.t]));
  }

  lemma FineMeasureFalls<T>(j: Job<T>, d: Deed)
    requires JobInv(j) && Free(j, d)
    ensures JobInv(Do(j, d)) && FineMeasure(Do(j, d)) < FineMeasure(j)
    ensures Do(j, d).drains + Sum(RwProgress.Aheads(Whole(Do(j, d)))) <= j.drains + Sum(RwProgress.Aheads(Whole(j)))
  {
    hide RwProgress.WorkInv, RwProgress.Measure, RwProgress.Perform, RwProgress.Acts, RwProgress.Aheads, Sum, Abs;
    hide FineWf, FineApply;
    DeedRefines(j, d);
    DepthMoves(j, d);
    DeedInv(j, d);
    if WholeAct(d).Some? {
      RwProgress.MeasureFalls(Whole(j), WholeAct(d).value);
    }
  }

  // ------------------------------------------------------------ runs

  ghost predicate Works<T>(j: Job<T>, ds: seq<Deed>)
    requires JobInv(j)
    decreases |ds|
  {
    ds == [] || (Free(j, ds[0]) && (DeedInv(j, ds[0]); Works(Do(j, ds[0]), ds[1..])))
  }

  ghost function Result<T>(j: Job<T>, ds: seq<Deed>): (j': Job<T>)
    requires JobInv(j) && Works(j, ds)
    ensures JobInv(j') && |j'.todo| == |j.todo|
    decreases |ds|
  {
    if ds == [] then j else (DeedInv(j, ds[0]); Result(Do(j, ds[0]), ds[1..]))
  }

  lemma {:induction false} WorksWithin<T>(j: Job<T>, ds: seq<Deed>)
    requires JobInv(j) && Works(j, ds)
    ensures var j' := Result(j, ds);
            && FineMeasure(j') + |ds| <= FineMeasure(j)
            && j'.drains + Sum(RwProgress.Aheads(Whole(j'))) <= j.drains + Sum(RwProgress.Aheads(Whole(j)))
    decreases |ds|
  {
    hide JobWf, JobInv, RwProgress.WorkInv, RwProgress.WellFormed, RwProgress.Aheads, FineMeasure, Sum, Do, Free, Abs;
    if ds != [] {
      DeedInv(j, ds[0]);
      FineMeasureFalls(j, ds[0]);
      WorksWithin(Do(j, ds[0]), ds[1..]);
    }
  }

  lemma StartInv<T>(j: Job<T>, value: T, todo: seq<nat>)
    requires j == Job(RwLockSections.Start(|todo|, value), todo, 0, 0)
    ensures JobInv(j) && Whole(j) == RwProgress.Begun(value, todo)
  {
    hide RwProgress.WorkInv, FineWf, Abs;
    StartsAtInit(|todo|, value);
    RwProgress.BegunInv(Whole(j), value, todo);
  }

  ghost function New<T>(value: T, todo: seq<nat>): (j: Job<T>)
    ensures JobInv(j) && |j.todo| == |todo| && j.drains == 0
  {
    var j := Job(RwLockSections.Start(|todo|, value), todo, 0, 0);
    StartInv(j, value, todo);
    j
  }

  lemma NewMeasure<T>(value: T, todo: seq<nat>)
    ensures Sum(RwProgress.Aheads(Whole(New(value, todo)))) == 2 * Sum(todo)
    ensures FineMeasure(New(value, todo)) == 4 * RwProgress.Budget(todo) + |todo|
  {
    hide RwProgress.WorkInv, JobWf, Sum, Abs;
    var j := New(value, todo);
    StartInv(j, value, todo);
    RwProgress.BegunMeasure(value, todo);
    SumConstant(Depths(j.f.at), 1);
  }

  // ------------------------------------------------------------ nobody is stuck

  /** All critical sections are done, every thread is outside, and no spinlock is set. */
  ghost predicate AllDone<T>(j: Job<T>)
    requires JobWf(j)
  {
    j.f.spin == map[] && forall t :: 0 <= t < |j.todo| ==> j.f.s.pc[t].Away? && j.f.at[t].Outside? && j.todo[t] == 0
  }

  predicate SomeonePanicked<T>(j: Job<T>) { exists t :: 0 <= t < |j.f.s.pc| && j.f.s.pc[t].Panicked? }

  lemma InSectionIsFree<T>(j: Job<T>, t: Tid)
    requires JobWf(j) && t < |j.todo| && !j.f.at[t].Outside? && !SomeonePanicked(j)
    ensures exists d :: Free(j, d)
  {
    var d := match j.f.at[t]
             case Entered(_) => Deed.Try(t)
             case Missed(_, _) => Deed.Push(t)
             case _ => Deed.Clear(t);
    assert Free(j, d);
  }

  /** While nobody has panicked: wherever whole sections let some thread act, some thread can act here. */
  lemma ActsHere<T>(j: Job<T>, a: RwProgress.Act)
    requires JobWf(j) && RwProgress.WellFormed(Whole(j)) && RwProgress.Acts(Whole(j), a) && !SomeonePanicked(j)
    ensures exists d :: Free(j, d)
  {
    hide SomeonePanicked;
    var t := a.t;
    assert Fits(j.f, t);
    if !j.f.at[t].Outside? {
      InSectionIsFree(j, t);
    } else if a.Start? {
      assert Free(j, Begin(t, a.m, a.spins));
    } else if j.f.s.pc[t].Reading? || j.f.s.pc[t].Writing? {
      assert Free(j, Deed.Leave(t));
    } else if ListOf(j.f.s.pc[t]).None? {
      assert Free(j, Deed.Take(t));
    } else if ListOf(j.f.s.pc[t]).value in j.f.spin {
      InSectionIsFree(j, j.f.spin[ListOf(j.f.s.pc[t]).value]);
    } else {
      assert Free(j, Deed.Enter(t));
    }
  }

  lemma PanicsInBoth<T>(j: Job<T>)
    requires JobWf(j)
    ensures SomeonePanicked(j) <==> exists t :: 0 <= t < |Whole(j).s.pc| && Whole(j).s.pc[t].Panicked?
  {
    forall t | 0 <= t < |j.todo|
      ensures Whole(j).s.pc[t].Panicked? <==> j.f.s.pc[t].Panicked?
    {
      assert Fits(j.f, t);
    }
  }

  lemma StuckIsDone<T>(j: Job<T>)
    requires JobInv(j) && (forall d :: !Free(j, d)) && !SomeonePanicked(j)
    ensures AllDone(j)
  {
    hide RwProgress.WorkInv, RwProgress.Acts, Free, Fits, Wf, SomeonePanicked;
    if t :| 0 <= t < |j.f.at| && !j.f.at[t].Outside? {
      InSectionIsFree(j, t);
    }
    PanicsInBoth(j);
    var w := Whole(j);
    if t :| 0 <= t < |w.s.pc| && !(w.s.pc[t].Away? && w.todo[t] == 0) {
      RwProgress.SomeoneActs(w, t);
      var a :| RwProgress.Acts(w, a);
      ActsHere(j, a);
    }
    assert forall t :: 0 <= t < |j.todo| ==> w.s.pc[t] == j.f.s.pc[t];
  }

  /** Termination, action by action: a run of swaps, attempts, pushes and stores has at most this many, whatever the
      interleaving and the modes; one that cannot be extended has finished every critical section of every thread and
      left every spinlock clear, unless a reader has panicked, which takes 128 threads. */
  lemma EveryFineRunFinishes<T>(value: T, todo: seq<nat>, ds: seq<Deed>)
    requires Works(New(value, todo), ds)
    ensures |ds| <= 4 * RwProgress.Budget(todo) + |todo|
    ensures var j := Result(New(value, todo), ds);
            && ((forall d :: !Free(j, d)) ==> AllDone(j) || SomeonePanicked(j))
            && (SomeonePanicked(j) ==> |todo| >= 128)
  {
    hide JobWf, JobInv, RwProgress.Budget, FineMeasure, Works, Result, Free, AllDone, Sum, New, SomeonePanicked;
    hide RwProgress.WorkInv, RwProgress.WellFormed;
    NewMeasure(value, todo);
    WorksWithin(New(value, todo), ds);
    var j := Result(New(value, todo), ds);
    if SomeonePanicked(j) {
      PanicTakesMany(j);
    } else if forall d :: !Free(j, d) {
      StuckIsDone(j);
    }
  }

  lemma PanicTakesMany<T>(j: Job<T>)
    requires JobInv(j) && SomeonePanicked(j)
    ensures |j.todo| >= 128
  {
    hide SomeonePanicked, JobWf;
    PanicsInBoth(j);
  }

  /** Each wake-up is paid for here too, in every state of every run. */
  lemma FineWakeupCost<T>(value: T, todo: seq<nat>, ds: seq<Deed>)
    requires Works(New(value, todo), ds) && |todo| > 0
    ensures var j := Result(New(value, todo), ds);
            j.fails <= (|todo| - 1) * (j.drains + 1) && j.drains <= 2 * Sum(todo)
  {
    hide RwProgress.WorkInv, RwProgress.Aheads, RwProgress.Begun, JobWf, FineMeasure, Works, Result, Abs, Sum;
    var j := Result(New(value, todo), ds);
    RwProgress.CostBound(Whole(j));
    WorksWithin(New(value, todo), ds);
    NewMeasure(value, todo);
  }
}
