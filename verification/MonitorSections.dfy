/** The monitor with the sections of its lists taken apart.

    In `Monitor` a closure on a list is one step. Here it is what the source does: a swap that sets the list's
    spinlock, the closure, and the store that clears the spinlock. A closure of `lock_block` or `lock_async`
    is itself two actions, the attempt on `data_lock` and, if that failed, the push; `data_lock` is not under
    the spinlock, so its holder can clear it in between, and the push lands on a free lock.

    Every step of this machine is one step of `Monitor` or none, so what is proved of all runs of `Monitor`
    holds here; and the hand-off argument is made directly, with the thread that is about to push. */
module MonitorSections {
  import opened Basics
  import opened Monitor
  import opened Handoff
  import opened MonitorSteps
  import opened MonitorSafety
  import opened MonitorRuns

  datatype List = LockThreads | LockTasks | CvSpins | CvThreads | CvTasks

  /** The list whose spinlock the next action of a thread at `p` takes. */
  function ListOf(p: Pc): Option<List> {
    match p
    case BlockEnter(_, _) => Some(LockThreads)
    case TakeThreads(_) => Some(LockThreads)
    case TaskEnter(_, _) => Some(LockTasks)
    case TakeTasks(_) => Some(LockTasks)
    case CvCheck(_, _) => Some(CvThreads)
    case CvRemove(_) => Some(CvThreads)
    case CvSpinRemove(_, _) => Some(CvSpins)
    case CvTaskRemove(_) => Some(CvTasks)
    case NSpins(_, _) => Some(CvSpins)
    case NThreads(_, _) => Some(CvThreads)
    case NTasks(_, _) => Some(CvTasks)
    case _ => None
  }

  function RegisteredIn(req: Request): List {
    match req
    case WaitBlock(_) => CvThreads
    case WaitBlockTimeout(_, _) => CvThreads
    case WaitSpin(_, _) => CvSpins
    case WaitAsync(_) => CvTasks
  }

  function SectionOf<T>(s: State<T>, e: Step<T>): Option<List>
    requires Wf(s) && Enabled(s, e)
  {
    match e
    case Go(t) => ListOf(s.pc[t])
    case Wait(_, req) => Some(RegisteredIn(req))
    case _ => None
  }

  /** Where a thread is in a section: it has the spinlock and runs the action of its call, or of the wait it
      is to begin; it has failed its attempt and goes on to `q` with its push; it is about to clear the
      spinlock. */
  datatype Place =
    | Outside
    | Entered(list: List, call: Option<Request>)
    | Missed(list: List, q: Pc)
    | Closing(list: List)

  /** `spin`: the spinlocks that are set, and by whom. */
  datatype Fine<T> = Fine(s: State<T>, at: seq<Place>, spin: map<List, Tid>)

  datatype FineStep<T> =
    | Plain(e: Step<T>)                         // a step without a list
    | Swap(t: Tid, call: Option<Request>)       // the swap that finds the spinlock clear
    | Act(t: Tid)                               // the closure, up to a failed attempt
    | Push(t: Tid)                              // the push after it
    | Unset(t: Tid)                             // the store that clears the spinlock

  function Own<T>(t: Tid, call: Option<Request>): Step<T> {
    if call.None? then Go(t) else Wait(t, call.value)
  }

  function Start<T>(n: nat, value: T): Fine<T> { Fine(Init(n, value), seq(n, i => Outside), map[]) }

  // ------------------------------------------------------------ well-formed states

  /** A thread in the section of list `l` is the one that set its spinlock, and where its call says. */
  ghost predicate Fits<T>(f: Fine<T>, t: Tid)
    requires t < |f.s.pc| == |f.at|
  {
    match f.at[t]
    case Outside => true
    case Entered(l, call) =>
      && l in f.spin && f.spin[l] == t
      && (if call.None? then ListOf(f.s.pc[t]) == Some(l) else f.s.pc[t].In? && RegisteredIn(call.value) == l)
    case Missed(l, q) =>
      && l in f.spin && f.spin[l] == t
      && ((l.LockThreads? && f.s.pc[t].BlockEnter? && q == BlockPark(f.s.pc[t].dl, f.s.pc[t].reply))
          || (l.LockTasks? && f.s.pc[t].TaskEnter? && q.TaskPoll? && q.id < f.s.rt.next
              && q == TaskPoll(q.id, f.s.pc[t].dl, f.s.pc[t].reply)))
    case Closing(l) => l in f.spin && f.spin[l] == t
  }

  ghost predicate FineWf<T>(f: Fine<T>) {
    && Wf(f.s) && |f.at| == |f.s.pc|
    && (forall t :: 0 <= t < |f.at| ==> Fits(f, t))
    && (forall l :: l in f.spin ==> f.spin[l] < |f.at| && !f.at[f.spin[l]].Outside? && f.at[f.spin[l]].list == l)
  }

  // ------------------------------------------------------------ steps

  predicate FineEnabled<T>(f: Fine<T>, g: FineStep<T>)
    requires Wf(f.s) && |f.at| == |f.s.pc|
  {
    match g
    case Plain(e) =>
      && Enabled(f.s, e) && SectionOf(f.s, e).None?
      && (!e.Stray? && !e.Tick? ==> f.at[e.t].Outside?)
    case Swap(t, call) =>
      && t < |f.at| && f.at[t].Outside? && Enabled(f.s, Own(t, call))
      && SectionOf(f.s, Own(t, call)).Some? && SectionOf(f.s, Own(t, call)).value !in f.spin
    case Act(t) => t < |f.at| && f.at[t].Entered?
    case Push(t) => t < |f.at| && f.at[t].Missed?
    case Unset(t) => t < |f.at| && f.at[t].Closing?
  }

  /** The attempt of `lock_block` or `lock_async` that finds `data_lock` set. */
  predicate Refused<T>(s: State<T>, t: Tid)
    requires t < |s.pc|
  {
    (s.pc[t].BlockEnter? || s.pc[t].TaskEnter?) && s.lock.held
  }

  function FineApply<T>(f: Fine<T>, g: FineStep<T>): Fine<T>
    requires FineWf(f) && FineEnabled(f, g)
  {
    match g
    case Plain(e) => f.(s := Apply(f.s, e))
    case Swap(t, call) =>
      var l := SectionOf(f.s, Own(t, call)).value;
      f.(at := f.at[t := Entered(l, call)], spin := f.spin[l := t])
    case Act(t) =>
      assert Fits(f, t);
      if Refused(f.s, t) then
        var p := f.s.pc[t];
        if p.BlockEnter? then f.(at := f.at[t := Missed(LockThreads, BlockPark(p.dl, p.reply))])
        else
          f.(at := f.at[t := Missed(LockTasks, TaskPoll(f.s.rt.next, p.dl, p.reply))],
             s := f.s.(rt := f.s.rt.(next := f.s.rt.next + 1)))
      else f.(s := Apply(f.s, Own(t, f.at[t].call)), at := f.at[t := Closing(f.at[t].list)])
    case Push(t) =>
      assert Fits(f, t);
      var q := f.at[t].q;
      var lock := if q.TaskPoll? then f.s.lock.(tasks := f.s.lock.tasks + [q.id])
                  else f.s.lock.(threads := f.s.lock.threads + [t]);
      f.(s := At(f.s, t, q).(lock := lock), at := f.at[t := Closing(f.at[t].list)])
    case Unset(t) => f.(at := f.at[t := Outside], spin := f.spin - {f.at[t].list})
  }

  // ------------------------------------------------------------ the monitor state it stands for

  /** The thread that has failed under the spinlock of `l` and is about to push. */
  predicate Late<T>(f: Fine<T>, l: List) {
    l in f.spin && f.spin[l] < |f.at| && f.at[f.spin[l]].Missed?
  }

  function LateThreads<T>(f: Fine<T>): seq<Tid> {
    if Late(f, LockThreads) then [f.spin[LockThreads]] else []
  }

  function LateTasks<T>(f: Fine<T>): seq<Sig> {
    if Late(f, LockTasks) && f.at[f.spin[LockTasks]].q.TaskPoll? then [f.at[f.spin[LockTasks]].q.id] else []
  }

  function PcOf(p: Pc, at: Place): Pc { if at.Missed? then at.q else p }

  function Pcs<T>(f: Fine<T>): seq<Pc>
    requires |f.at| == |f.s.pc|
  {
    seq(|f.at|, i requires 0 <= i < |f.at| => PcOf(f.s.pc[i], f.at[i]))
  }

  /** The pushes that are certain to come are made. */
  function Abs<T>(f: Fine<T>): State<T>
    requires |f.at| == |f.s.pc|
  {
    With(f.s, LateThreads(f), LateTasks(f), Pcs(f))
  }

  function With<T>(s: State<T>, a: seq<Tid>, b: seq<Sig>, pc: seq<Pc>): State<T> {
    s.(lock := s.lock.(threads := s.lock.threads + a, tasks := s.lock.tasks + b), pc := pc)
  }

  lemma WfAbs<T>(f: Fine<T>)
    requires FineWf(f)
    ensures Wf(Abs(f))
  {
    forall t | 0 <= t < |f.at|
      ensures Below(Unparks(Abs(f).pc[t]), |f.at|)
    {
      assert Fits(f, t);
    }
  }

  // ------------------------------------------------------------ a step does not see the late pushes

  /** Lists and program counters may differ as they do between a fine state and the state it stands for. */
  ghost predicate Apart<T>(s: State<T>, a: seq<Tid>, b: seq<Sig>, pc: seq<Pc>) {
    Wf(s) && Wf(With(s, a, b, pc)) && |pc| == |s.pc|
  }

  /** Thread `t` acts on no list that has a late push, and fails no attempt. */
  predicate Clear<T>(s: State<T>, a: seq<Tid>, b: seq<Sig>, pc: seq<Pc>, t: Tid) {
    && t < |s.pc| == |pc| && pc[t] == s.pc[t] && !Refused(s, t)
    && (a != [] ==> ListOf(s.pc[t]) != Some(LockThreads))
    && (b != [] ==> ListOf(s.pc[t]) != Some(LockTasks))
  }

  lemma AcquireCommutes<T>(s: State<T>, t: Tid, a: seq<Tid>, b: seq<Sig>, pc: seq<Pc>)
    requires Apart(s, a, b, pc) && Clear(s, a, b, pc, t) && CanGo(s, t) && Acquires(s.pc[t])
    ensures CanGo(With(s, a, b, pc), t) && t < |GoAcquire(s, t).pc|
    ensures GoAcquire(With(s, a, b, pc), t) == With(GoAcquire(s, t), a, b, pc[t := GoAcquire(s, t).pc[t]])
  {
  }

  lemma ReleaseCommutes<T>(s: State<T>, t: Tid, a: seq<Tid>, b: seq<Sig>, pc: seq<Pc>)
    requires Apart(s, a, b, pc) && Clear(s, a, b, pc, t) && Releases(s.pc[t])
    ensures t < |GoRelease(s, t).pc|
    ensures GoRelease(With(s, a, b, pc), t) == With(GoRelease(s, t), a, b, pc[t := GoRelease(s, t).pc[t]])
  {
    assert a == [] ==> s.lock.threads + a == s.lock.threads && [] + a == [];
    assert b == [] ==> s.lock.tasks + b == s.lock.tasks && [] + b == [];
  }

  lemma AwaitCommutes<T>(s: State<T>, t: Tid, a: seq<Tid>, b: seq<Sig>, pc: seq<Pc>)
    requires Apart(s, a, b, pc) && Clear(s, a, b, pc, t) && CanGo(s, t) && Awaits(s.pc[t])
    ensures CanGo(With(s, a, b, pc), t) && t < |GoAwait(s, t).pc|
    ensures GoAwait(With(s, a, b, pc), t) == With(GoAwait(s, t), a, b, pc[t := GoAwait(s, t).pc[t]])
  {
  }

  lemma NotifyCommutes<T>(s: State<T>, t: Tid, a: seq<Tid>, b: seq<Sig>, pc: seq<Pc>)
    requires Apart(s, a, b, pc) && Clear(s, a, b, pc, t) && Notifies(s.pc[t])
    ensures t < |GoNotify(s, t).pc|
    ensures GoNotify(With(s, a, b, pc), t) == With(GoNotify(s, t), a, b, pc[t := GoNotify(s, t).pc[t]])
  {
  }

  lemma GoCommutes<T>(s: State<T>, t: Tid, a: seq<Tid>, b: seq<Sig>, pc: seq<Pc>)
    requires Apart(s, a, b, pc) && Clear(s, a, b, pc, t) && CanGo(s, t)
    ensures CanGo(With(s, a, b, pc), t) && t < |Advance(s, t).pc|
    ensures Advance(With(s, a, b, pc), t) == With(Advance(s, t), a, b, pc[t := Advance(s, t).pc[t]])
  {
    hide GoAcquire, GoRelease, GoAwait, GoNotify, Wf;
    if Acquires(s.pc[t]) {
      AcquireCommutes(s, t, a, b, pc);
    } else if Releases(s.pc[t]) {
      ReleaseCommutes(s, t, a, b, pc);
    } else if Awaits(s.pc[t]) {
      AwaitCommutes(s, t, a, b, pc);
    } else {
      NotifyCommutes(s, t, a, b, pc);
    }
  }

  lemma StepCommutes<T>(s: State<T>, e: Step<T>, a: seq<Tid>, b: seq<Sig>, pc: seq<Pc>)
    requires Apart(s, a, b, pc) && Enabled(s, e)
    requires !e.Tick? && !e.Stray? ==> pc[e.t] == s.pc[e.t]
    requires e.Go? ==> Clear(s, a, b, pc, e.t)
    ensures Enabled(With(s, a, b, pc), e)
    ensures !e.Tick? ==> e.t < |Apply(s, e).pc|
    ensures Apply(With(s, a, b, pc), e)
            == With(Apply(s, e), a, b, if e.Tick? || e.Stray? then pc else pc[e.t := Apply(s, e).pc[e.t]])
  {
    hide Advance;
    if e.Go? {
      GoCommutes(s, e.t, a, b, pc);
    } else if e.Store? {
      assert pc[e.t := s.pc[e.t]] == pc;
    }
  }

  // ------------------------------------------------------------ refinement

  /** The step of the monitor that a fine step is, if any. */
  function Coarse<T>(f: Fine<T>, g: FineStep<T>): Option<Step<T>>
    requires FineWf(f) && FineEnabled(f, g)
  {
    match g
    case Plain(e) => Some(e)
    case Act(t) => Some(Own(t, f.at[t].call))
    case _ => None
  }

  lemma NextGrows<T>(s: State<T>, e: Step<T>)
    requires Wf(s) && Enabled(s, e)
    ensures s.rt.next <= Apply(s, e).rt.next
  {
  }

  /** A thread that does not move stays where it is in its section. */
  lemma OthersFit<T>(f: Fine<T>, f': Fine<T>, u: Tid)
    requires u < |f.at| == |f.s.pc| == |f'.at| == |f'.s.pc| && Fits(f, u)
    requires f'.at[u] == f.at[u] && f'.s.pc[u] == f.s.pc[u] && f.s.rt.next <= f'.s.rt.next
    requires forall l :: l in f.spin && f.spin[l] == u ==> l in f'.spin && f'.spin[l] == u
    ensures Fits(f', u)
  {
  }

  lemma MonitorMoves<T>(s: State<T>, e: Step<T>)
    requires Wf(s) && Enabled(s, e)
    ensures var s' := Apply(s, e);
            && Wf(s') && |s'.pc| == |s.pc|
            && forall u :: 0 <= u < |s.pc| && (e.Tick? || e.Stray? || u != e.t) ==> s'.pc[u] == s.pc[u]
  {
    hide Advance;
    WfStep(s, e);
    if !e.Tick? {
      StepBounded(s, e);
    }
  }

  lemma PlainRefines<T>(f: Fine<T>, e: Step<T>)
    requires FineWf(f) && FineEnabled(f, Plain(e))
    ensures FineWf(FineApply(f, Plain(e)))
    ensures Wf(Abs(f)) && Enabled(Abs(f), e) && Abs(FineApply(f, Plain(e))) == Apply(Abs(f), e)
  {
    hide Apply, Enabled, Fits, Wf;
    var f' := FineApply(f, Plain(e));
    WfAbs(f);
    MonitorMoves(f.s, e);
    NextGrows(f.s, e);
    PlainIsClear(f, e);
    StepCommutes(f.s, e, LateThreads(f), LateTasks(f), Pcs(f));
    forall u | 0 <= u < |f.at|
      ensures Fits(f', u)
    {
      if e.Tick? || e.Stray? || u != e.t {
        OthersFit(f, f', u);
      } else {
        FitsOutside(f', u);
      }
    }
    assert Pcs(f') == if e.Tick? || e.Stray? then Pcs(f) else Pcs(f)[e.t := f'.s.pc[e.t]];
  }

  lemma FitsOutside<T>(f: Fine<T>, t: Tid)
    requires t < |f.s.pc| == |f.at| && f.at[t].Outside?
    ensures Fits(f, t)
  {
  }

  lemma PlainIsClear<T>(f: Fine<T>, e: Step<T>)
    requires FineWf(f) && FineEnabled(f, Plain(e))
    ensures !e.Tick? && !e.Stray? ==> e.t < |f.at| && f.at[e.t].Outside? && Pcs(f)[e.t] == f.s.pc[e.t]
    ensures e.Stray? ==> e.t < |f.at|
    ensures e.Go? ==> Clear(f.s, LateThreads(f), LateTasks(f), Pcs(f), e.t)
  {
  }

  lemma SwapRefines<T>(f: Fine<T>, t: Tid, call: Option<Request>)
    requires FineWf(f) && FineEnabled(f, Swap(t, call))
    ensures FineWf(FineApply(f, Swap(t, call)))
    ensures Abs(FineApply(f, Swap(t, call))) == Abs(f)
  {
    hide Wf;
    var f' := FineApply(f, Swap(t, call));
    forall u | 0 <= u < |f.at|
      ensures Fits(f', u)
    {
      assert Fits(f, u);
    }
    assert Pcs(f') == Pcs(f);
  }

  lemma UnsetRefines<T>(f: Fine<T>, t: Tid)
    requires FineWf(f) && FineEnabled(f, Unset(t))
    ensures FineWf(FineApply(f, Unset(t)))
    ensures Abs(FineApply(f, Unset(t))) == Abs(f)
  {
    hide Wf;
    var f' := FineApply(f, Unset(t));
    assert Fits(f, t);
    forall u | 0 <= u < |f.at|
      ensures Fits(f', u)
    {
      assert Fits(f, u);
    }
    assert Pcs(f') == Pcs(f);
  }

  lemma PushRefines<T>(f: Fine<T>, t: Tid)
    requires FineWf(f) && FineEnabled(f, Push(t))
    ensures FineWf(FineApply(f, Push(t)))
    ensures Abs(FineApply(f, Push(t))) == Abs(f)
  {
    var f' := FineApply(f, Push(t));
    assert Fits(f, t);
    forall u | 0 <= u < |f.at|
      ensures Fits(f', u)
    {
      assert Fits(f, u);
    }
    assert Pcs(f') == Pcs(f);
    assert f'.s.lock.threads + [] == f'.s.lock.threads && f'.s.lock.tasks + [] == f'.s.lock.tasks;
    OtherLists(f, f', t);
  }

  /** A push leaves the late push of the other list as it is, and its own list has none left. */
  lemma OtherLists<T>(f: Fine<T>, f': Fine<T>, t: Tid)
    requires FineWf(f) && t < |f.at| && f.at[t].Missed? && |f'.at| == |f.at|
    requires f'.at == f.at[t := Closing(f.at[t].list)] && f'.spin == f.spin
    ensures f.at[t].list.LockThreads?
            ==> LateThreads(f) == [t] && LateThreads(f') == [] && LateTasks(f') == LateTasks(f)
    ensures f.at[t].list.LockTasks?
            ==> f.at[t].q.TaskPoll? && LateTasks(f) == [f.at[t].q.id] && LateTasks(f') == []
                && LateThreads(f') == LateThreads(f)
  {
    assert Fits(f, t);
  }

  /** An attempt that fails is the whole step of the monitor: it makes the push certain. */
  lemma RefusedRefines<T>(f: Fine<T>, t: Tid)
    requires FineWf(f) && FineEnabled(f, Act(t)) && Refused(f.s, t)
    ensures FineWf(FineApply(f, Act(t))) && f.at[t].call.None?
    ensures Wf(Abs(f)) && Enabled(Abs(f), Go(t)) && Abs(FineApply(f, Act(t))) == Apply(Abs(f), Go(t))
  {
    hide GoRelease, GoAwait, GoNotify;
    var f' := FineApply(f, Act(t));
    WfAbs(f);
    assert Fits(f, t);
    forall u | 0 <= u < |f.at|
      ensures Fits(f', u)
    {
      assert Fits(f, u);
    }
    EnteredIsNotLate(f, t);
    assert Pcs(f') == Pcs(f)[t := f'.at[t].q];
    assert f.s.lock.threads + [] == f.s.lock.threads && f.s.lock.tasks + [] == f.s.lock.tasks;
  }

  /** The list a thread has entered has no late push; nor does its failure touch the other list's. */
  lemma EnteredIsNotLate<T>(f: Fine<T>, t: Tid)
    requires FineWf(f) && t < |f.at| && f.at[t].Entered?
    ensures f.at[t].list.LockThreads? ==> LateThreads(f) == []
    ensures f.at[t].list.LockTasks? ==> LateTasks(f) == []
    ensures Pcs(f)[t] == f.s.pc[t]
  {
    assert Fits(f, t);
  }

  lemma ActRefines<T>(f: Fine<T>, t: Tid)
    requires FineWf(f) && FineEnabled(f, Act(t)) && !Refused(f.s, t)
    ensures FineWf(FineApply(f, Act(t)))
    ensures var e := Own<T>(t, f.at[t].call);
            Wf(Abs(f)) && Enabled(Abs(f), e) && Abs(FineApply(f, Act(t))) == Apply(Abs(f), e)
  {
    hide Apply, Wf;
    var f' := FineApply(f, Act(t));
    var e := Own<T>(t, f.at[t].call);
    assert Fits(f, t);
    WfAbs(f);
    MonitorMoves(f.s, e);
    NextGrows(f.s, e);
    EnteredIsNotLate(f, t);
    StepCommutes(f.s, e, LateThreads(f), LateTasks(f), Pcs(f));
    forall u | 0 <= u < |f.at|
      ensures Fits(f', u)
    {
      if u != t {
        OthersFit(f, f', u);
      }
    }
    assert Pcs(f') == Pcs(f)[t := f'.s.pc[t]];
  }

  /** Every fine step is the step of the monitor that `Coarse` names, or leaves the monitor state as it is. */
  lemma StepRefines<T>(f: Fine<T>, g: FineStep<T>)
    requires FineWf(f) && FineEnabled(f, g)
    ensures Wf(Abs(f)) && FineWf(FineApply(f, g)) && |FineApply(f, g).at| == |f.at|
    ensures var e := Coarse(f, g);
            if e.Some? then Enabled(Abs(f), e.value) && Abs(FineApply(f, g)) == Apply(Abs(f), e.value)
            else Abs(FineApply(f, g)) == Abs(f)
  {
    hide Apply, Enabled, Fits, Wf, Abs;
    WfAbs(f);
    match g
    case Plain(e) => PlainRefines(f, e);
    case Swap(t, call) => SwapRefines(f, t, call);
    case Act(t) => if Refused(f.s, t) { RefusedRefines(f, t); } else { ActRefines(f, t); }
    case Push(t) => PushRefines(f, t);
    case Unset(t) => UnsetRefines(f, t);
  }

  // ------------------------------------------------------------ runs

  ghost predicate FinePossible<T>(f: Fine<T>, gs: seq<FineStep<T>>)
    requires FineWf(f)
    decreases |gs|
  {
    gs == [] || (FineEnabled(f, gs[0]) && (StepRefines(f, gs[0]); FinePossible(FineApply(f, gs[0]), gs[1..])))
  }

  ghost function FineExec<T>(f: Fine<T>, gs: seq<FineStep<T>>): (f': Fine<T>)
    requires FineWf(f) && FinePossible(f, gs)
    ensures FineWf(f') && |f'.at| == |f.at|
    decreases |gs|
  {
    if gs == [] then f else (StepRefines(f, gs[0]); FineExec(FineApply(f, gs[0]), gs[1..]))
  }

  /** The run of the monitor that a fine run is. */
  ghost function CoarseRun<T>(f: Fine<T>, gs: seq<FineStep<T>>): seq<Step<T>>
    requires FineWf(f) && FinePossible(f, gs)
    decreases |gs|
  {
    if gs == [] then []
    else
      StepRefines(f, gs[0]);
      var rest := CoarseRun(FineApply(f, gs[0]), gs[1..]);
      if Coarse(f, gs[0]).Some? then [Coarse(f, gs[0]).value] + rest else rest
  }

  /** The fine machine refines the monitor. */
  lemma {:induction false} RunRefines<T>(f: Fine<T>, gs: seq<FineStep<T>>)
    requires FineWf(f) && FinePossible(f, gs)
    ensures Wf(Abs(f)) && Possible(Abs(f), CoarseRun(f, gs))
    ensures Exec(Abs(f), CoarseRun(f, gs)) == Abs(FineExec(f, gs))
    decreases |gs|
  {
    hide FineApply, FineEnabled, Apply, Enabled, Fits, Wf, Abs, Coarse;
    WfAbs(f);
    if gs != [] {
      StepRefines(f, gs[0]);
      RunRefines(FineApply(f, gs[0]), gs[1..]);
      var e := Coarse(f, gs[0]);
      if e.Some? {
        var rest := CoarseRun(FineApply(f, gs[0]), gs[1..]);
        assert ([e.value] + rest)[0] == e.value && ([e.value] + rest)[1..] == rest;
      }
    }
  }

  lemma StartsAtInit<T>(n: nat, value: T)
    ensures FineWf(Start(n, value)) && Abs(Start(n, value)) == Init(n, value)
  {
    var f := Start(n, value);
    assert Pcs(f) == f.s.pc && f.s.lock.threads + [] == [] && f.s.lock.tasks + [] == [];
  }

  /** So every state the fine machine reaches stands for one that the monitor reaches, and what holds in all of
      those holds of it. */
  lemma FineReachable<T>(n: nat, value: T, gs: seq<FineStep<T>>)
    requires FineWf(Start(n, value)) && FinePossible(Start(n, value), gs)
    ensures var f := FineExec(Start(n, value), gs);
            var es := CoarseRun(Start(n, value), gs);
            Possible(Init(n, value), es) && Exec(Init(n, value), es) == Abs(f) && Inv(Abs(f))
  {
    hide Fits, Abs, Coarse, Inv;
    StartsAtInit(n, value);
    RunRefines(Start(n, value), gs);
    InvReachable(n, value, CoarseRun(Start(n, value), gs));
  }

  // ------------------------------------------------------------ no lost wake-up, with the late pushes

  datatype Spot = Spot(p: Pc, at: Place)

  function Spots<T>(f: Fine<T>): seq<Spot>
    requires |f.at| == |f.s.pc|
  {
    seq(|f.at|, i requires 0 <= i < |f.at| => Spot(f.s.pc[i], f.at[i]))
  }

  predicate OwesThreadsAt(x: Spot) { OwesThreads(x.p) }

  predicate OwesTasksAt(x: Spot) { OwesTasks(x.p) }

  predicate PushesThread(x: Spot) { x.at.Missed? && x.at.list.LockThreads? }

  predicate PushesTask(x: Spot) { x.at.Missed? && x.at.list.LockTasks? }

  /** A nonempty list, or a thread that has failed its attempt and is about to push, implies that the lock is
      held or that a releaser has yet to take the list. */
  ghost predicate FineCovered<T>(f: Fine<T>)
    requires |f.at| == |f.s.pc|
  {
    && Covered(f.s.lock.held, f.s.lock.threads != [], Spots(f), OwesThreadsAt, PushesThread)
    && Covered(f.s.lock.held, f.s.lock.tasks != [], Spots(f), OwesTasksAt, PushesTask)
  }

  /** What one fine step of thread `t` means for the hand-off. */
  ghost predicate HandFacts<T>(f: Fine<T>, f': Fine<T>, t: Tid) {
    && t < |f.at| == |f.s.pc| == |f'.at| == |f'.s.pc| && Moved(Spots(f), Spots(f'), t)
    && (PushesThread(Spots(f')[t]) && !PushesThread(Spots(f)[t]) ==> f'.s.lock.held)
    && (PushesTask(Spots(f')[t]) && !PushesTask(Spots(f)[t]) ==> f'.s.lock.held)
    && (f'.s.lock.threads != [] ==> f.s.lock.threads != [] || PushesThread(Spots(f)[t]) || f'.s.lock.held)
    && (f'.s.lock.tasks != [] ==> f.s.lock.tasks != [] || PushesTask(Spots(f)[t]) || f'.s.lock.held)
    && (f.s.lock.held && !f'.s.lock.held ==> OwesThreads(f'.s.pc[t]) && OwesTasks(f'.s.pc[t]))
    && (OwesThreads(f.s.pc[t]) && !OwesThreads(f'.s.pc[t])
        ==> f'.s.lock.threads == [] && f.at[t].Entered? && f.at[t].list.LockThreads? && f'.at[t].Closing?)
    && (OwesTasks(f.s.pc[t]) && !OwesTasks(f'.s.pc[t])
        ==> f'.s.lock.tasks == [] && f.at[t].Entered? && f.at[t].list.LockTasks? && f'.at[t].Closing?)
  }

  /** A releaser stops owing a list only by the action that takes it. */
  lemma LeavesByTaking<T>(s: State<T>, e: Step<T>)
    requires Wf(s) && Enabled(s, e) && !e.Tick?
    ensures |Apply(s, e).pc| == |s.pc|
    ensures OwesThreads(s.pc[e.t]) && !OwesThreads(Apply(s, e).pc[e.t]) ==> e.Go? && s.pc[e.t].TakeThreads?
    ensures OwesTasks(s.pc[e.t]) && !OwesTasks(Apply(s, e).pc[e.t]) ==> e.Go? && s.pc[e.t].TakeTasks?
  {
    hide GoAcquire, GoAwait, GoNotify;
    StepBounded(s, e);
  }

  lemma CoarseFacts<T>(f: Fine<T>, e: Step<T>)
    requires FineWf(f) && Inv(Abs(f)) && Enabled(f.s, e) && !e.Tick?
    requires e.Go? && Holds(f.s.pc[e.t]) ==> f.s.lock.held
    ensures LockFacts(f.s, Apply(f.s, e), e.t)
  {
    hide Apply;
    SpinsBelow(Abs(f));
    StepFacts(f.s, e, 0);
  }

  /** The holder of the lock is not in a push. */
  lemma HoldsInBoth<T>(f: Fine<T>, t: Tid)
    requires FineWf(f) && Inv(Abs(f)) && t < |f.at| && Holds(f.s.pc[t])
    ensures f.s.lock.held
  {
    assert Fits(f, t);
    assert Holds(Abs(f).pc[t]);
  }

  predicate IsTick<T>(g: FineStep<T>) { g.Plain? && g.e.Tick? }

  function Mover<T>(g: FineStep<T>): Tid
    requires !IsTick(g)
  {
    if g.Plain? then g.e.t else g.t
  }

  /** The steps that are steps of the monitor, but for a failed attempt. */
  lemma CoarseHand<T>(f: Fine<T>, g: FineStep<T>)
    requires FineWf(f) && Inv(Abs(f)) && FineEnabled(f, g) && !IsTick(g)
    requires g.Plain? || (g.Act? && !Refused(f.s, g.t))
    ensures HandFacts(f, FineApply(f, g), Mover(g))
  {
    hide Apply, Enabled, Inv, Wf;
    var e := Coarse(f, g).value;
    var t := Mover(g);
    EnabledHere(f, g);
    MonitorMoves(f.s, e);
    LeavesByTaking(f.s, e);
    if e.Go? && Holds(f.s.pc[t]) {
      HoldsInBoth(f, t);
    }
    CoarseFacts(f, e);
  }

  lemma EnabledHere<T>(f: Fine<T>, g: FineStep<T>)
    requires FineWf(f) && FineEnabled(f, g) && Coarse(f, g).Some?
    ensures Enabled(f.s, Coarse(f, g).value)
    ensures !IsTick(g) ==> Mover(g) < |f.at| && Coarse(f, g).value.t == Mover(g)
    ensures g.Plain? && g.e.Go? ==> ListOf(f.s.pc[g.e.t]).None?
    ensures g.Act? ==> Fits(f, g.t)
  {
    if g.Act? {
      assert Fits(f, g.t);
    }
  }

  lemma SectionHand<T>(f: Fine<T>, g: FineStep<T>)
    requires FineWf(f) && FineEnabled(f, g) && (g.Swap? || g.Push? || g.Unset? || (g.Act? && Refused(f.s, g.t)))
    ensures HandFacts(f, FineApply(f, g), Mover(g))
  {
    assert Fits(f, g.t);
  }

  /** Every fine step keeps the hand-off, by the argument of `Handoff`: the lock may be cleared between a failed
      attempt and its push, since the drain waits for the spinlock. */
  lemma FineCoveredKept<T>(f: Fine<T>, g: FineStep<T>)
    requires FineWf(f) && Inv(Abs(f)) && FineEnabled(f, g) && FineCovered(f)
    ensures |FineApply(f, g).at| == |FineApply(f, g).s.pc| && FineCovered(FineApply(f, g))
  {
    hide Apply, Enabled, Inv, Wf, Abs, Covered;
    var f' := FineApply(f, g);
    StepRefines(f, g);
    if IsTick(g) {
      TickHand(f, g);
    } else {
      if g.Plain? || (g.Act? && !Refused(f.s, g.t)) {
        CoarseHand(f, g);
      } else {
        SectionHand(f, g);
      }
      Handed(f, f', Mover(g));
    }
  }

  lemma TickHand<T>(f: Fine<T>, g: FineStep<T>)
    requires FineWf(f) && FineEnabled(f, g) && IsTick(g)
    ensures var f' := FineApply(f, g); f'.at == f.at && f'.s.pc == f.s.pc && f'.s.lock == f.s.lock
  {
  }

  lemma Handed<T>(f: Fine<T>, f': Fine<T>, t: Tid)
    requires FineWf(f) && FineWf(f') && HandFacts(f, f', t) && FineCovered(f)
    ensures FineCovered(f')
  {
    hide Wf, Covered;
    forall u | 0 <= u < |f.at| && u != t && f.at[t].Entered?
      ensures PushesThread(Spots(f')[u]) || PushesTask(Spots(f')[u]) ==> f'.at[u].list != f.at[t].list
    {
      assert Spots(f')[u] == Spots(f)[u];
      assert Fits(f, u) && Fits(f, t);
    }
    CoveredKept(f.s.lock.held, f.s.lock.threads != [], Spots(f),
                f'.s.lock.held, f'.s.lock.threads != [], Spots(f'), OwesThreadsAt, PushesThread, t);
    CoveredKept(f.s.lock.held, f.s.lock.tasks != [], Spots(f),
                f'.s.lock.held, f'.s.lock.tasks != [], Spots(f'), OwesTasksAt, PushesTask, t);
  }

  lemma {:induction false} FineCoveredRun<T>(f: Fine<T>, gs: seq<FineStep<T>>)
    requires FineWf(f) && Inv(Abs(f)) && FineCovered(f) && FinePossible(f, gs)
    ensures FineCovered(FineExec(f, gs))
    decreases |gs|
  {
    hide FineApply, FineEnabled, Apply, Enabled, Fits, Wf, Abs, Inv, FineCovered;
    if gs != [] {
      StepRefines(f, gs[0]);
      FineCoveredKept(f, gs[0]);
      if Coarse(f, gs[0]).Some? {
        InvStep(Abs(f), Coarse(f, gs[0]).value);
      }
      FineCoveredRun(FineApply(f, gs[0]), gs[1..]);
    }
  }

  /** `f` is reached by the fine run `gs` from a new mutex and condition variable. */
  ghost predicate FineReached<T>(n: nat, value: T, gs: seq<FineStep<T>>, f: Fine<T>) {
    FineWf(Start(n, value)) && FinePossible(Start(n, value), gs) && f == FineExec(Start(n, value), gs)
  }

  /** In every state reached action by action, a nonempty list, or a thread about to push to it, has the lock
      held or a releaser that owes the list a drain. */
  lemma FineListsCovered<T>(n: nat, value: T, gs: seq<FineStep<T>>, f: Fine<T>)
    requires FineReached(n, value, gs, f)
    ensures |f.at| == |f.s.pc| && FineCovered(f)
  {
    hide Fits, Inv;
    StartsAtInit(n, value);
    InitInv(n, value);
    assert FineCovered(Start(n, value)) by { NobodyPushes(n, value); }
    FineCoveredRun(Start(n, value), gs);
  }

  lemma NobodyPushes<T>(n: nat, value: T)
    ensures FineCovered(Start(n, value))
  {
  }

  /** A thread that is about to push is parked already in the state that this one stands for. */
  lemma ParksThere<T>(f: Fine<T>, t: Tid)
    requires FineWf(f) && t < |f.at| && (f.s.pc[t].BlockPark? || PushesThread(Spots(f)[t])) && !f.s.rt.token[t]
    ensures |Abs(f).pc| == |f.s.pc| && t < |Abs(f).pc| && Abs(f).pc[t].BlockPark?
    ensures t < |Abs(f).rt.token| && !Abs(f).rt.token[t]
  {
    assert Fits(f, t);
  }

  /** Whoever rescues there rescues here. */
  lemma RescuesHere<T>(f: Fine<T>, u: Tid, t: Tid)
    requires FineWf(f) && u < |f.at| && |Abs(f).pc| == |f.s.pc| && Rescues(Abs(f).pc[u], t)
    ensures Rescues(f.s.pc[u], t)
  {
    assert Fits(f, u);
  }

  /** No lost wake-up, action by action: a thread that is parked in `lock_block` or `lock_block_timeout`, or has
      failed its attempt and is about to push, has its token, or another thread holds the guard, owes the list a
      drain, or is about to unpark it. */
  lemma FineNoLostWakeup<T>(n: nat, value: T, gs: seq<FineStep<T>>, f: Fine<T>, t: Tid)
    requires FineReached(n, value, gs, f) && t < |f.s.pc| == |f.at| == |f.s.rt.token|
    requires f.s.pc[t].BlockPark? || PushesThread(Spots(f)[t])
    requires !f.s.rt.token[t]
    ensures exists u :: 0 <= u < |f.s.pc| && u != t && Rescues(f.s.pc[u], t)
  {
    hide Inv, Fits, Abs, Rescues, PushesThread, FinePossible, FineExec, Possible, Exec, CoarseRun;
    FineReachable(n, value, gs);
    ParksThere(f, t);
    ParkedIsRescued(Abs(f), t);
    var u :| 0 <= u < |f.s.pc| && u != t && Rescues(Abs(f).pc[u], t);
    RescuesHere(f, u, t);
  }

  /** The continuation a task awaits, or is about to push. */
  predicate AwaitsAt(x: Spot, id: Sig) { LockAwaits(x.p, id) || (PushesTask(x) && LockAwaits(x.at.q, id)) }

  lemma FineNoLostTaskWakeup<T>(n: nat, value: T, gs: seq<FineStep<T>>, f: Fine<T>, t: Tid, id: Sig)
    requires FineReached(n, value, gs, f) && t < |f.s.pc| == |f.at| && AwaitsAt(Spots(f)[t], id) && id !in f.s.rt.fired
    ensures exists u :: 0 <= u < |f.s.pc| && u != t
                        && (Holds(f.s.pc[u]) || OwesTasks(f.s.pc[u]) || id in Sends(f.s.pc[u]))
  {
    FineReachable(n, value, gs);
    AwaitedAt(f, t, id);
  }

  lemma AwaitsThere<T>(f: Fine<T>, t: Tid, id: Sig)
    requires FineWf(f) && t < |f.at| && AwaitsAt(Spots(f)[t], id)
    ensures |Abs(f).pc| == |f.s.pc| && LockAwaits(Abs(f).pc[t], id) && Abs(f).rt.fired == f.s.rt.fired
  {
    assert Fits(f, t);
  }

  lemma SendsHere<T>(f: Fine<T>, u: Tid)
    requires FineWf(f) && u < |f.at| && |Abs(f).pc| == |f.s.pc|
    ensures Holds(Abs(f).pc[u]) ==> Holds(f.s.pc[u])
    ensures OwesTasks(Abs(f).pc[u]) ==> OwesTasks(f.s.pc[u])
    ensures Sends(Abs(f).pc[u]) == Sends(f.s.pc[u])
  {
    assert Fits(f, u);
  }

  lemma AwaitedAt<T>(f: Fine<T>, t: Tid, id: Sig)
    requires FineWf(f) && Inv(Abs(f)) && t < |f.at| && AwaitsAt(Spots(f)[t], id) && id !in f.s.rt.fired
    ensures exists u :: 0 <= u < |f.s.pc| && u != t
                        && (Holds(f.s.pc[u]) || OwesTasks(f.s.pc[u]) || id in Sends(f.s.pc[u]))
  {
    hide Inv, Fits, Abs, AwaitsAt, Holds, OwesTasks, Sends;
    AwaitsThere(f, t, id);
    AwaitedIsRescued(Abs(f), t, id);
    var u :| 0 <= u < |f.s.pc| && u != t
             && (Holds(Abs(f).pc[u]) || OwesTasks(Abs(f).pc[u]) || id in Sends(Abs(f).pc[u]));
    SendsHere(f, u);
  }

  /** The next action of a call, on or off a list. */
  predicate Moves<T>(g: FineStep<T>) { g.Plain? ==> g.e.Go? }

  /** The spinlocks cost no progress: wherever the monitor lets some thread go on, some thread can take an action
      here, be it only the one in whose section the other would like to be. */
  lemma SpinlocksAreLeft<T>(f: Fine<T>, t: Tid)
    requires FineWf(f) && t < |f.at| && Wf(Abs(f)) && CanGo(Abs(f), t)
    ensures exists g :: FineEnabled(f, g) && Moves(g)
  {
    assert Fits(f, t);
    if !f.at[t].Outside? {
      SectionMoves(f, t);
    } else if ListOf(f.s.pc[t]).None? {
      assert FineEnabled(f, Plain(Go(t)));
    } else if ListOf(f.s.pc[t]).value in f.spin {
      SectionMoves(f, f.spin[ListOf(f.s.pc[t]).value]);
    } else {
      assert FineEnabled(f, Swap(t, None));
    }
  }

  lemma SectionMoves<T>(f: Fine<T>, t: Tid)
    requires FineWf(f) && t < |f.at| && !f.at[t].Outside?
    ensures exists g :: FineEnabled(f, g) && Moves(g)
  {
    var g: FineStep<T> := match f.at[t] case Entered(_, _) => Act(t) case Missed(_, _) => Push(t) case _ => Unset(t);
    assert FineEnabled(f, g) && Moves(g);
  }

  // ------------------------------------------------------------ the race is there

  lemma {:induction false} FineSnoc<T>(f: Fine<T>, gs: seq<FineStep<T>>, g: FineStep<T>)
    requires FineWf(f) && FinePossible(f, gs) && FineEnabled(FineExec(f, gs), g)
    ensures FinePossible(f, gs + [g]) && FineExec(f, gs + [g]) == FineApply(FineExec(f, gs), g)
    decreases |gs|
  {
    hide FineApply, FineEnabled, Wf;
    if gs == [] {
      StepRefines(f, g);
      assert [g][1..] == [] && [] + [g] == [g];
    } else {
      StepRefines(f, gs[0]);
      FineSnoc(FineApply(f, gs[0]), gs[1..], g);
      assert (gs + [g])[0] == gs[0] && (gs + [g])[1..] == gs[1..] + [g];
    }
  }

  /** Two threads: thread 0 has the lock or releases it, thread 1 wants it. At most one is in a section. */
  function Scene<T>(value: T, p0: Pc, p1: Pc, held: bool, at0: Place, at1: Place): Fine<T> {
    Fine(State(LockState(value, held, [], []), CondState([], [], []), Runtime([false, false], {}, {}, 0, 0), [p0, p1],
               History([false, false], [0, 0], 0, 0, {}, {}, {})),
         [at0, at1],
         if !at0.Outside? then map[LockThreads := 0] else if !at1.Outside? then map[LockThreads := 1] else map[])
  }

  const WANTS := BlockEnter(None, Fresh)

  const IN := Entered(LockThreads, None)

  const LATE := Missed(LockThreads, BlockPark(None, Fresh))

  const OUT := Closing(LockThreads)

  ghost predicate Leads<T>(value: T, gs: seq<FineStep<T>>, f: Fine<T>) {
    FineReached(2, value, gs, f) && FineWf(f)
  }

  /** From where `gs` leads, `g` leads on to `f`. */
  lemma Then<T>(value: T, gs: seq<FineStep<T>>, c: Fine<T>, g: FineStep<T>, f: Fine<T>) returns (more: seq<FineStep<T>>)
    requires Leads(value, gs, c) && FineEnabled(c, g) && FineApply(c, g) == f
    ensures Leads(value, more, f)
  {
    hide FineApply, FineEnabled, FineWf;
    FineSnoc(Start(2, value), gs, g);
    more := gs + [g];
  }

  /** Thread 0 takes the lock. */
  lemma Takes<T>(value: T, before: seq<FineStep<T>>) returns (gs: seq<FineStep<T>>)
    requires Leads(value, before, Scene(value, Out, Out, false, Outside, Outside))
    ensures Leads(value, gs, Scene(value, In(Fresh), Out, true, Outside, Outside))
  {
    hide FineReached;
    gs := before;
    gs := Then(value, gs, Scene(value, Out, Out, false, Outside, Outside),
               Plain(Lock(0, Blocking, None)), Scene(value, WANTS, Out, false, Outside, Outside));
    gs := Then(value, gs, Scene(value, WANTS, Out, false, Outside, Outside),
               Swap(0, None), Scene(value, WANTS, Out, false, IN, Outside));
    gs := Then(value, gs, Scene(value, WANTS, Out, false, IN, Outside),
               Act(0), Scene(value, In(Fresh), Out, true, OUT, Outside));
    gs := Then(value, gs, Scene(value, In(Fresh), Out, true, OUT, Outside),
               Unset(0), Scene(value, In(Fresh), Out, true, Outside, Outside));
  }

  /** Thread 1 sets the spinlock and fails its attempt. */
  lemma Fails<T>(value: T, before: seq<FineStep<T>>) returns (gs: seq<FineStep<T>>)
    requires Leads(value, before, Scene(value, In(Fresh), Out, true, Outside, Outside))
    ensures Leads(value, gs, Scene(value, In(Fresh), WANTS, true, Outside, LATE))
  {
    hide FineReached;
    gs := before;
    gs := Then(value, gs, Scene(value, In(Fresh), Out, true, Outside, Outside),
               Plain(Lock(1, Blocking, None)), Scene(value, In(Fresh), WANTS, true, Outside, Outside));
    gs := Then(value, gs, Scene(value, In(Fresh), WANTS, true, Outside, Outside),
               Swap(1, None), Scene(value, In(Fresh), WANTS, true, Outside, IN));
    gs := Then(value, gs, Scene(value, In(Fresh), WANTS, true, Outside, IN),
               Act(1), Scene(value, In(Fresh), WANTS, true, Outside, LATE));
  }

  /** Thread 0 clears the lock. */
  lemma Clears<T>(value: T, before: seq<FineStep<T>>) returns (gs: seq<FineStep<T>>)
    requires Leads(value, before, Scene(value, In(Fresh), WANTS, true, Outside, LATE))
    ensures Leads(value, gs, Scene(value, TakeThreads(Leave), WANTS, false, Outside, LATE))
  {
    hide FineReached;
    gs := before;
    gs := Then(value, gs, Scene(value, In(Fresh), WANTS, true, Outside, LATE),
               Plain(Unlock(0)), Scene(value, Release(Leave), WANTS, true, Outside, LATE));
    gs := Then(value, gs, Scene(value, Release(Leave), WANTS, true, Outside, LATE),
               Plain(Go(0)), Scene(value, TakeThreads(Leave), WANTS, false, Outside, LATE));
  }

  lemma Nothing<T>(value: T)
    ensures Leads(value, [], Scene(value, Out, Out, false, Outside, Outside))
  {
    StartsAtInit(2, value);
    assert Start(2, value) == Scene(value, Out, Out, false, Outside, Outside);
  }

  /** A reachable state in which a thread that has failed its attempt is about to push, and the lock is free. */
  ghost predicate Races<T>(n: nat, value: T, gs: seq<FineStep<T>>, f: Fine<T>, t: Tid) {
    FineReached(n, value, gs, f) && t < |f.s.pc| == |f.at| && PushesThread(Spots(f)[t]) && !f.s.lock.held
  }

  lemma PushOnFreeLock<T>(value: T)
    ensures exists gs, f: Fine<T>, t :: Races(2, value, gs, f, t)
  {
    hide FineReached;
    Nothing(value);
    var gs := Takes(value, []);
    gs := Fails(value, gs);
    gs := Clears(value, gs);
    assert Races(2, value, gs, Scene(value, TakeThreads(Leave), WANTS, false, Outside, LATE), 1);
  }
}
