/** The reader-writer lock with the sections of its four lists taken apart, as `MonitorSections` does for the
    mutex: the swap of a list's spinlock, the attempt on the byte and after a failure the push, or the drain,
    and the store that clears the spinlock. The byte is not under the spinlocks. A reader that panics as the
    128th does so inside its section, and its spinlock stays set. */
module RwLockSections {
  import opened Basics
  import opened Handoff
  import opened RwLock
  import opened RwLockSafety

  function ListOf(p: RwPc): Option<Stage> {
    match p
    case Enter(m) => Some(if m.Read? then ReadThreads else WriteThreads)
    case EnterTask(m) => Some(if m.Read? then ReadTasks else WriteTasks)
    case Take(at) => Some(at)
    case _ => None
  }

  datatype Place = Outside | Entered(list: Stage) | Missed(list: Stage, q: RwPc) | Closing(list: Stage)

  /** `spin`: the spinlocks that are set, and by whom. */
  datatype Fine<T> = Fine(s: Rw<T>, at: seq<Place>, spin: map<Stage, Tid>)

  datatype FineStep<T> = Plain(e: RwStep<T>) | Swap(t: Tid) | Act(t: Tid) | Push(t: Tid) | Unset(t: Tid)

  function Start<T>(n: nat, value: T): Fine<T> { Fine(Init(n, value), seq(n, i => Outside), map[]) }

  // ------------------------------------------------------------ well-formed states

  /** `q` is where a thread at `p` goes on with its push to list `l`. */
  predicate Pushed(p: RwPc, l: Stage, q: RwPc, next: Sig) {
    match l
    case ReadThreads => p == Enter(Read) && q == RwPc.Park(Read)
    case WriteThreads => p == Enter(Write) && q == RwPc.Park(Write)
    case ReadTasks => p == EnterTask(Read) && q.Await? && q.id < next && q.m == Read
    case WriteTasks => p == EnterTask(Write) && q.Await? && q.id < next && q.m == Write
  }

  ghost predicate Fits<T>(f: Fine<T>, t: Tid)
    requires t < |f.s.pc| == |f.at|
  {
    match f.at[t]
    case Outside => true
    case Entered(l) => l in f.spin && f.spin[l] == t && ListOf(f.s.pc[t]) == Some(l)
    case Missed(l, q) => l in f.spin && f.spin[l] == t && Pushed(f.s.pc[t], l, q, f.s.next)
    case Closing(l) => l in f.spin && f.spin[l] == t
  }

  ghost predicate FineWf<T>(f: Fine<T>) {
    && Wf(f.s) && |f.at| == |f.s.pc|
    && (forall t :: 0 <= t < |f.at| ==> Fits(f, t))
    && (forall l :: l in f.spin ==> f.spin[l] < |f.at| && !f.at[f.spin[l]].Outside? && f.at[f.spin[l]].list == l)
  }

  // ------------------------------------------------------------ steps

  predicate FineEnabled<T>(f: Fine<T>, g: FineStep<T>)
    requires Wf(f.s) && |f.at| == |f.s.pc|
  {
    match g
    case Plain(e) =>
      && Enabled(f.s, e) && (e.Go? ==> ListOf(f.s.pc[e.t]).None?)
      && (!e.Stray? ==> f.at[e.t].Outside?)
    case Swap(t) =>
      && t < |f.at| && f.at[t].Outside? && ListOf(f.s.pc[t]).Some? && ListOf(f.s.pc[t]).value !in f.spin
    case Act(t) => t < |f.at| && f.at[t].Entered?
    case Push(t) => t < |f.at| && f.at[t].Missed?
    case Unset(t) => t < |f.at| && f.at[t].Closing? && !f.s.pc[t].Panicked?
  }

  predicate Attempts(p: RwPc) { p.Enter? || p.EnterTask? }

  predicate Refuses<T>(s: Rw<T>, t: Tid)
    requires t < |s.pc|
  {
    Attempts(s.pc[t]) && TryWord(s.pc[t].m, s.word).Refused?
  }

  /** Pushes thread `t`, or its continuation. */
  function Pushes<T>(s: Rw<T>, t: Tid, l: Stage, q: RwPc): Rw<T>
    requires t < |s.pc| && (l.ReadTasks? || l.WriteTasks? ==> q.Await?)
  {
    match l
    case ReadThreads => At(s, t, q).(readThreads := s.readThreads + [t])
    case WriteThreads => At(s, t, q).(writeThreads := s.writeThreads + [t])
    case ReadTasks => At(s, t, q).(readTasks := s.readTasks + [q.id])
    case WriteTasks => At(s, t, q).(writeTasks := s.writeTasks + [q.id])
  }

  function FineApply<T>(f: Fine<T>, g: FineStep<T>): Fine<T>
    requires FineWf(f) && FineEnabled(f, g)
  {
    match g
    case Plain(e) => f.(s := Apply(f.s, e))
    case Swap(t) =>
      var l := ListOf(f.s.pc[t]).value;
      f.(at := f.at[t := Entered(l)], spin := f.spin[l := t])
    case Act(t) =>
      assert Fits(f, t);
      if Refuses(f.s, t) then
        var m := f.s.pc[t].m;
        if f.s.pc[t].Enter? then f.(at := f.at[t := Missed(f.at[t].list, RwPc.Park(m))])
        else
          f.(at := f.at[t := Missed(f.at[t].list, Await(m, f.s.next))], s := f.s.(next := f.s.next + 1))
      else f.(s := Apply(f.s, Go(t)), at := f.at[t := Closing(f.at[t].list)])
    case Push(t) =>
      assert Fits(f, t);
      f.(s := Pushes(f.s, t, f.at[t].list, f.at[t].q), at := f.at[t := Closing(f.at[t].list)])
    case Unset(t) => f.(at := f.at[t := Outside], spin := f.spin - {f.at[t].list})
  }

  // ------------------------------------------------------------ the lock state it stands for

  /** The late push of list `l`: by a thread that has failed under its spinlock. */
  function Late<T>(f: Fine<T>, l: Stage): seq<nat> {
    if l in f.spin && f.spin[l] < |f.at| && f.at[f.spin[l]].Missed?
    then [if f.at[f.spin[l]].q.Await? then f.at[f.spin[l]].q.id else f.spin[l]] else []
  }

  /** Pushes to each list that are certain to come. */
  datatype Extra = Extra(rt: seq<Tid>, rk: seq<Sig>, wt: seq<Tid>, wk: seq<Sig>)

  function LateOf<T>(f: Fine<T>): Extra {
    Extra(Late(f, ReadThreads), Late(f, ReadTasks), Late(f, WriteThreads), Late(f, WriteTasks))
  }

  function PcOf(p: RwPc, at: Place): RwPc { if at.Missed? then at.q else p }

  function Pcs<T>(f: Fine<T>): seq<RwPc>
    requires |f.at| == |f.s.pc|
  {
    seq(|f.at|, i requires 0 <= i < |f.at| => PcOf(f.s.pc[i], f.at[i]))
  }

  function With<T>(s: Rw<T>, x: Extra, pc: seq<RwPc>): Rw<T> {
    s.(readThreads := s.readThreads + x.rt, readTasks := s.readTasks + x.rk,
       writeThreads := s.writeThreads + x.wt, writeTasks := s.writeTasks + x.wk, pc := pc)
  }

  function Abs<T>(f: Fine<T>): Rw<T>
    requires |f.at| == |f.s.pc|
  {
    With(f.s, LateOf(f), Pcs(f))
  }

  lemma WfAbs<T>(f: Fine<T>)
    requires FineWf(f)
    ensures Wf(Abs(f))
  {
    forall t | 0 <= t < |f.at|
      ensures Below(Unparks(Abs(f).pc[t]), |f.at|)
    {
      assert Fits(f, t);
    }
    LateBelow(f, ReadThreads);
    LateBelow(f, WriteThreads);
  }

  lemma LateBelow<T>(f: Fine<T>, l: Stage)
    requires FineWf(f) && (l.ReadThreads? || l.WriteThreads?)
    ensures Below(Late(f, l), |f.at|)
  {
    if l in f.spin {
      assert Fits(f, f.spin[l]);
    }
  }

  // ------------------------------------------------------------ a step does not see the late pushes

  predicate ClearOf(x: Extra, l: Option<Stage>) {
    && (l == Some(ReadThreads) ==> x.rt == []) && (l == Some(ReadTasks) ==> x.rk == [])
    && (l == Some(WriteThreads) ==> x.wt == []) && (l == Some(WriteTasks) ==> x.wk == [])
  }

  ghost predicate Apart<T>(s: Rw<T>, x: Extra, pc: seq<RwPc>, t: Tid) {
    && Wf(s) && Wf(With(s, x, pc)) && t < |pc| == |s.pc| && pc[t] == s.pc[t] && !Refuses(s, t)
    && ClearOf(x, ListOf(s.pc[t]))
  }

  lemma AcquireCommutes<T>(s: Rw<T>, t: Tid, x: Extra, pc: seq<RwPc>)
    requires Apart(s, x, pc, t) && CanGo(s, t) && Acquires(s.pc[t])
    ensures CanGo(With(s, x, pc), t) && t < |GoAcquire(s, t).pc|
    ensures GoAcquire(With(s, x, pc), t) == With(GoAcquire(s, t), x, pc[t := GoAcquire(s, t).pc[t]])
  {
    hide TryWord;
  }

  lemma ReleaseCommutes<T>(s: Rw<T>, t: Tid, x: Extra, pc: seq<RwPc>)
    requires Apart(s, x, pc, t) && CanGo(s, t) && !Acquires(s.pc[t])
    ensures CanGo(With(s, x, pc), t) && t < |GoRelease(s, t).pc|
    ensures GoRelease(With(s, x, pc), t) == With(GoRelease(s, t), x, pc[t := GoRelease(s, t).pc[t]])
  {
    if s.pc[t].Take? {
      TakeCommutes(s, t, x, pc);
    }
  }

  lemma TakeCommutes<T>(s: Rw<T>, t: Tid, x: Extra, pc: seq<RwPc>)
    requires Apart(s, x, pc, t) && s.pc[t].Take?
    ensures GoRelease(With(s, x, pc), t) == With(GoRelease(s, t), x, pc[t := GoRelease(s, t).pc[t]])
  {
    var l := s.pc[t].at;
    if l.ReadThreads? {
      NothingLate(s.readThreads, x.rt);
    } else if l.ReadTasks? {
      NothingLate(s.readTasks, x.rk);
    } else if l.WriteThreads? {
      NothingLate(s.writeThreads, x.wt);
    } else {
      NothingLate(s.writeTasks, x.wk);
    }
  }

  lemma NothingLate(q: seq<nat>, late: seq<nat>)
    requires late == []
    ensures q + late == q && [] + late == []
  {
  }

  lemma StepCommutes<T>(s: Rw<T>, e: RwStep<T>, x: Extra, pc: seq<RwPc>)
    requires Wf(s) && Wf(With(s, x, pc)) && |pc| == |s.pc| && Enabled(s, e)
    requires !e.Stray? ==> pc[e.t] == s.pc[e.t]
    requires e.Go? ==> Apart(s, x, pc, e.t)
    ensures Enabled(With(s, x, pc), e) && e.t < |Apply(s, e).pc|
    ensures Apply(With(s, x, pc), e) == With(Apply(s, e), x, if e.Stray? then pc else pc[e.t := Apply(s, e).pc[e.t]])
  {
    hide GoAcquire, GoRelease;
    if e.Go? && Acquires(s.pc[e.t]) {
      AcquireCommutes(s, e.t, x, pc);
    } else if e.Go? {
      ReleaseCommutes(s, e.t, x, pc);
    } else if e.Store? {
      assert pc[e.t := s.pc[e.t]] == pc;
    }
  }

  // ------------------------------------------------------------ refinement

  /** The step of the lock that a fine step is, if any. */
  function Coarse<T>(f: Fine<T>, g: FineStep<T>): Option<RwStep<T>> {
    match g
    case Plain(e) => Some(e)
    case Act(t) => Some(Go(t))
    case _ => None
  }

  ghost predicate Moved1<T>(s: Rw<T>, s': Rw<T>, t: Tid) {
    && t < |s.pc| == |s'.pc| && s'.pc == s.pc[t := s'.pc[t]] && |s'.token| == |s.token| && s.next <= s'.next
    && Below(s'.readThreads, |s.pc|) && Below(s'.writeThreads, |s.pc|) && Below(Unparks(s'.pc[t]), |s.pc|)
  }

  lemma AcquireMoves<T>(s: Rw<T>, t: Tid)
    requires Wf(s) && t < |s.pc| && CanGo(s, t) && Acquires(s.pc[t])
    ensures Moved1(s, GoAcquire(s, t), t)
  {
    hide TryWord;
  }

  lemma ReleaseMoves<T>(s: Rw<T>, t: Tid)
    requires Wf(s) && t < |s.pc| && CanGo(s, t) && !Acquires(s.pc[t])
    ensures Moved1(s, GoRelease(s, t), t)
  {
  }

  lemma LockMoves<T>(s: Rw<T>, e: RwStep<T>)
    requires Wf(s) && Enabled(s, e)
    ensures Wf(Apply(s, e)) && Moved1(s, Apply(s, e), e.t) && (e.Stray? ==> Apply(s, e).pc == s.pc)
  {
    hide GoAcquire, GoRelease;
    if e.Go? && Acquires(s.pc[e.t]) {
      AcquireMoves(s, e.t);
    } else if e.Go? {
      ReleaseMoves(s, e.t);
    }
  }

  /** A thread that does not move stays where it is in its section. */
  lemma OthersFit<T>(f: Fine<T>, f': Fine<T>, u: Tid)
    requires u < |f.at| == |f.s.pc| == |f'.at| == |f'.s.pc| && Fits(f, u)
    requires f'.at[u] == f.at[u] && f'.s.pc[u] == f.s.pc[u] && f.s.next <= f'.s.next
    requires forall l :: l in f.spin && f.spin[l] == u ==> l in f'.spin && f'.spin[l] == u
    ensures Fits(f', u)
  {
  }

  lemma PlainRefines<T>(f: Fine<T>, e: RwStep<T>)
    requires FineWf(f) && FineEnabled(f, Plain(e))
    ensures FineWf(FineApply(f, Plain(e)))
    ensures Wf(Abs(f)) && Enabled(Abs(f), e) && Abs(FineApply(f, Plain(e))) == Apply(Abs(f), e)
  {
    hide Apply, Fits, Wf, Late, CanGo;
    var f' := FineApply(f, Plain(e));
    WfAbs(f);
    LockMoves(f.s, e);
    StepCommutes(f.s, e, LateOf(f), Pcs(f));
    forall u | 0 <= u < |f.at|
      ensures Fits(f', u)
    {
      if e.Stray? || u != e.t {
        OthersFit(f, f', u);
      } else {
        FitsOutside(f', u);
      }
    }
    assert Pcs(f') == if e.Stray? then Pcs(f) else Pcs(f)[e.t := f'.s.pc[e.t]];
    assert LateOf(f') == LateOf(f) by { SameLate(f, f'); }
  }

  lemma SameLate<T>(f: Fine<T>, f': Fine<T>)
    requires f'.at == f.at && f'.spin == f.spin
    ensures LateOf(f') == LateOf(f)
  {
  }

  lemma FitsOutside<T>(f: Fine<T>, t: Tid)
    requires t < |f.s.pc| == |f.at| && f.at[t].Outside?
    ensures Fits(f, t)
  {
  }

  /** Taking and clearing a spinlock makes no push certain. */
  lemma QuietLate<T>(f: Fine<T>, f': Fine<T>, t: Tid, l: Stage)
    requires FineWf(f) && t < |f.at| && |f'.at| == |f.at| && f'.at == f.at[t := f'.at[t]]
    requires !f.at[t].Missed? && !f'.at[t].Missed?
    requires l in f.spin && f.spin[l] != t ==> l in f'.spin && f'.spin[l] == f.spin[l]
    requires l in f'.spin && f'.spin[l] != t ==> l in f.spin && f.spin[l] == f'.spin[l]
    ensures Late(f', l) == Late(f, l)
  {
  }

  lemma SwapRefines<T>(f: Fine<T>, t: Tid)
    requires FineWf(f) && FineEnabled(f, Swap(t))
    ensures FineWf(FineApply(f, Swap(t))) && Abs(FineApply(f, Swap(t))) == Abs(f)
  {
    hide Wf, Late;
    var f' := FineApply(f, Swap(t));
    forall u | 0 <= u < |f.at|
      ensures Fits(f', u)
    {
      assert Fits(f, u);
    }
    assert Pcs(f') == Pcs(f);
    forall l: Stage
      ensures Late(f', l) == Late(f, l)
    {
      QuietLate(f, f', t, l);
    }
  }

  lemma UnsetRefines<T>(f: Fine<T>, t: Tid)
    requires FineWf(f) && FineEnabled(f, Unset(t))
    ensures FineWf(FineApply(f, Unset(t))) && Abs(FineApply(f, Unset(t))) == Abs(f)
  {
    hide Wf, Late;
    var f' := FineApply(f, Unset(t));
    assert Fits(f, t);
    forall u | 0 <= u < |f.at|
      ensures Fits(f', u)
    {
      assert Fits(f, u);
    }
    assert Pcs(f') == Pcs(f);
    forall l: Stage
      ensures Late(f', l) == Late(f, l)
    {
      QuietLate(f, f', t, l);
    }
  }

  /** What a push or a failed attempt changes of the late pushes: those of its own list only. */
  lemma OtherLists<T>(f: Fine<T>, f': Fine<T>, t: Tid, l: Stage)
    requires FineWf(f) && t < |f.at| && !f.at[t].Outside? && |f'.at| == |f.at| && f'.spin == f.spin
    requires f'.at == f.at[t := f'.at[t]]
    ensures l != f.at[t].list ==> Late(f', l) == Late(f, l)
    ensures f.at[t].list in f.spin && f.spin[f.at[t].list] == t
  {
    assert Fits(f, t);
    if l in f.spin {
      assert Fits(f, f.spin[l]);
    }
  }

  lemma PushRefines<T>(f: Fine<T>, t: Tid)
    requires FineWf(f) && FineEnabled(f, Push(t))
    ensures FineWf(FineApply(f, Push(t))) && Abs(FineApply(f, Push(t))) == Abs(f)
  {
    PushIsLegal(f, t);
    PushIsHidden(f, t);
  }

  lemma PushIsLegal<T>(f: Fine<T>, t: Tid)
    requires FineWf(f) && FineEnabled(f, Push(t))
    ensures FineWf(FineApply(f, Push(t)))
  {
    var f' := FineApply(f, Push(t));
    assert Fits(f, t);
    forall u | 0 <= u < |f.at|
      ensures Fits(f', u)
    {
      if u != t {
        OthersFit(f, f', u);
      }
    }
  }

  lemma PushIsHidden<T>(f: Fine<T>, t: Tid)
    requires FineWf(f) && FineEnabled(f, Push(t))
    ensures Abs(FineApply(f, Push(t))) == Abs(f)
  {
    hide Late, Wf;
    var f' := FineApply(f, Push(t));
    assert Fits(f, t);
    assert Pcs(f') == Pcs(f);
    forall l: Stage
      ensures l != f.at[t].list ==> Late(f', l) == Late(f, l)
    {
      OtherLists(f, f', t, l);
    }
    PushIsLate(f, f', t);
  }

  lemma PushIsLate<T>(f: Fine<T>, f': Fine<T>, t: Tid)
    requires FineWf(f) && FineEnabled(f, Push(t)) && f' == FineApply(f, Push(t))
    ensures Late(f', f.at[t].list) == []
    ensures Late(f, f.at[t].list) == [if f.at[t].q.Await? then f.at[t].q.id else t]
  {
    assert Fits(f, t);
  }

  /** An attempt that fails is the whole step of the lock: it makes the push certain. */
  lemma RefusedRefines<T>(f: Fine<T>, t: Tid)
    requires FineWf(f) && FineEnabled(f, Act(t)) && Refuses(f.s, t)
    ensures FineWf(FineApply(f, Act(t)))
    ensures Wf(Abs(f)) && Enabled(Abs(f), Go(t)) && Abs(FineApply(f, Act(t))) == Apply(Abs(f), Go(t))
  {
    WfAbs(f);
    RefusalIsLegal(f, t);
    RefusalPushes(f, t);
  }

  lemma RefusalIsLegal<T>(f: Fine<T>, t: Tid)
    requires FineWf(f) && FineEnabled(f, Act(t)) && Refuses(f.s, t)
    ensures FineWf(FineApply(f, Act(t)))
  {
    hide TryWord;
    var f' := FineApply(f, Act(t));
    assert Fits(f, t);
    forall u | 0 <= u < |f.at|
      ensures Fits(f', u)
    {
      if u != t {
        OthersFit(f, f', u);
      }
    }
  }

  lemma RefusalPushes<T>(f: Fine<T>, t: Tid)
    requires FineWf(f) && FineEnabled(f, Act(t)) && Refuses(f.s, t) && Wf(Abs(f))
    ensures Enabled(Abs(f), Go(t)) && Abs(FineApply(f, Act(t))) == Apply(Abs(f), Go(t))
  {
    hide GoRelease, TryWord, Late, Wf;
    var f' := FineApply(f, Act(t));
    assert Fits(f, t);
    forall l: Stage
      ensures l != f.at[t].list ==> Late(f', l) == Late(f, l)
    {
      OtherLists(f, f', t, l);
    }
    RefusalIsLate(f, t);
    assert Pcs(f') == Pcs(f)[t := f'.at[t].q];
    NothingLate(f.s.readThreads, []);
    NothingLate(f.s.readTasks, []);
    NothingLate(f.s.writeThreads, []);
    NothingLate(f.s.writeTasks, []);
  }

  lemma RefusalIsLate<T>(f: Fine<T>, t: Tid)
    requires FineWf(f) && FineEnabled(f, Act(t)) && Refuses(f.s, t)
    ensures var f' := FineApply(f, Act(t));
            && Late(f, f.at[t].list) == []
            && f'.at[t].Missed? && Late(f', f.at[t].list) == [if f'.at[t].q.Await? then f'.at[t].q.id else t]
  {
    hide TryWord;
    assert Fits(f, t);
  }

  lemma ActRefines<T>(f: Fine<T>, t: Tid)
    requires FineWf(f) && FineEnabled(f, Act(t)) && !Refuses(f.s, t)
    ensures FineWf(FineApply(f, Act(t)))
    ensures Wf(Abs(f)) && Enabled(Abs(f), Go(t)) && Abs(FineApply(f, Act(t))) == Apply(Abs(f), Go(t))
  {
    hide Apply, Wf, Late, Refuses;
    var f' := FineApply(f, Act(t));
    assert Fits(f, t);
    WfAbs(f);
    LockMoves(f.s, Go(t));
    EnteredIsClear(f, t);
    StepCommutes(f.s, Go(t), LateOf(f), Pcs(f));
    forall u | 0 <= u < |f.at|
      ensures Fits(f', u)
    {
      if u != t {
        OthersFit(f, f', u);
      }
    }
    forall l: Stage
      ensures Late(f', l) == Late(f, l)
    {
      QuietLate(f, f', t, l);
    }
    assert Pcs(f') == Pcs(f)[t := f'.s.pc[t]];
  }

  /** The list a thread has entered has no late push. */
  lemma EnteredIsClear<T>(f: Fine<T>, t: Tid)
    requires FineWf(f) && t < |f.at| && f.at[t].Entered?
    ensures ClearOf(LateOf(f), ListOf(f.s.pc[t])) && Pcs(f)[t] == f.s.pc[t]
  {
    assert Fits(f, t);
  }

  /** Every fine step is the step of the lock that `Coarse` names, or leaves the lock's state as it is. */
  lemma StepRefines<T>(f: Fine<T>, g: FineStep<T>)
    requires FineWf(f) && FineEnabled(f, g)
    ensures Wf(Abs(f)) && FineWf(FineApply(f, g)) && |FineApply(f, g).at| == |f.at| && Wf(Abs(FineApply(f, g)))
    ensures var e := Coarse(f, g);
            if e.Some? then Enabled(Abs(f), e.value) && Abs(FineApply(f, g)) == Apply(Abs(f), e.value)
            else Abs(FineApply(f, g)) == Abs(f)
  {
    hide Apply, Enabled, Fits, Wf, Abs, Refuses;
    WfAbs(f);
    match g {
      case Plain(e) => PlainRefines(f, e);
      case Swap(t) => SwapRefines(f, t);
      case Act(t) => if Refuses(f.s, t) { RefusedRefines(f, t); } else { ActRefines(f, t); }
      case Push(t) => PushRefines(f, t);
      case Unset(t) => UnsetRefines(f, t);
    }
    WfAbs(FineApply(f, g));
  }

  // ------------------------------------------------------------ runs

  ghost predicate FinePossible<T>(f: Fine<T>, gs: seq<FineStep<T>>)
    requires FineWf(f)
    decreases |gs|
  {
    gs == [] || (FineEnabled(f, gs[0]) && (StepRefines(f, gs[0]); FinePossible(FineApply(f, gs[0]), gs[1..])))
  }

  ghost function FineExec<T>(f: Fine<T>, gs: seq<FineStep<T>>): (f': Fine<T>)
    requires FineWf(f) && FinePossible(f, gs)
    ensures FineWf(f') && |f'.at| == |f.at|
    decreases |gs|
  {
    if gs == [] then f else (StepRefines(f, gs[0]); FineExec(FineApply(f, gs[0]), gs[1..]))
  }

  /** The run of the lock that a fine run is. */
  ghost function CoarseRun<T>(f: Fine<T>, gs: seq<FineStep<T>>): seq<RwStep<T>>
    requires FineWf(f) && FinePossible(f, gs)
    decreases |gs|
  {
    if gs == [] then []
    else
      StepRefines(f, gs[0]);
      var rest := CoarseRun(FineApply(f, gs[0]), gs[1..]);
      if Coarse(f, gs[0]).Some? then [Coarse(f, gs[0]).value] + rest else rest
  }

  /** The fine machine refines the one-step one. */
  lemma {:induction false} RunRefines<T>(f: Fine<T>, gs: seq<FineStep<T>>)
    requires FineWf(f) && FinePossible(f, gs)
    ensures Wf(Abs(f)) && Possible(Abs(f), CoarseRun(f, gs))
    ensures Exec(Abs(f), CoarseRun(f, gs)) == Abs(FineExec(f, gs))
    decreases |gs|
  {
    hide FineApply, FineEnabled, Apply, Enabled, Fits, Wf, Abs, Coarse;
    WfAbs(f);
    if gs != [] {
      StepRefines(f, gs[0]);
      RunRefines(FineApply(f, gs[0]), gs[1..]);
      var e := Coarse(f, gs[0]);
      if e.Some? {
        var rest := CoarseRun(FineApply(f, gs[0]), gs[1..]);
        assert ([e.value] + rest)[0] == e.value && ([e.value] + rest)[1..] == rest;
      }
    }
  }

  lemma StartsAtInit<T>(n: nat, value: T)
    ensures FineWf(Start(n, value)) && Abs(Start(n, value)) == Init(n, value)
  {
    assert Pcs(Start(n, value)) == Start(n, value).s.pc;
  }

  /** `f` is reached by the fine run `gs` from a new lock. */
  ghost predicate FineReached<T>(n: nat, value: T, gs: seq<FineStep<T>>, f: Fine<T>) {
    FineWf(Start(n, value)) && FinePossible(Start(n, value), gs) && f == FineExec(Start(n, value), gs)
  }

  lemma FineReachable<T>(n: nat, value: T, gs: seq<FineStep<T>>, f: Fine<T>)
    requires FineReached(n, value, gs, f)
    ensures FineWf(f)
    ensures var es := CoarseRun(Start(n, value), gs);
            Possible(Init(n, value), es) && Exec(Init(n, value), es) == Abs(f) && RwInv(Abs(f))
  {
    hide Fits, Abs, Coarse, RwInv;
    StartsAtInit(n, value);
    RunRefines(Start(n, value), gs);
    RwReachable(n, value, CoarseRun(Start(n, value), gs));
  }

  // ------------------------------------------------------------ no lost wake-up, with the late pushes

  datatype Spot = Spot(p: RwPc, at: Place)

  function Spots<T>(f: Fine<T>): seq<Spot>
    requires |f.at| == |f.s.pc|
  {
    seq(|f.at|, i requires 0 <= i < |f.at| => Spot(f.s.pc[i], f.at[i]))
  }

  predicate PushesTo(x: Spot, l: Stage) { x.at.Missed? && x.at.list == l }

  /** The byte would refuse those who wait in list `l`. */
  predicate Busy<T>(s: Rw<T>, l: Stage) {
    if l.ReadThreads? || l.ReadTasks? then s.word == LOCKED_WRITE else s.word != UNLOCKED
  }

  /** In every state reached action by action, for each of the four lists: a nonempty list, or a thread that has
      failed its attempt and is about to push to it, has the byte busy or a releaser that owes the list a drain. */
  lemma FineListsCovered<T>(n: nat, value: T, gs: seq<FineStep<T>>, f: Fine<T>, l: Stage)
    requires FineReached(n, value, gs, f) && |f.at| == |f.s.pc|
    ensures Covered(Busy(f.s, l), List(f.s, l) != [], Spots(f),
                    (x: Spot) => Owes(x.p, l), (x: Spot) => PushesTo(x, l))
  {
    hide Fits, RwInv, FineReached;
    FineReachable(n, value, gs, f);
    if List(f.s, l) != [] || exists u :: 0 <= u < |f.at| && PushesTo(Spots(f)[u], l) {
      WaitsInAbs(f, l);
      if !Busy(f.s, l) {
        var u := OwerInAbs(f, l);
        assert Owes(Spots(f)[u].p, l);
      }
    }
  }

  lemma WaitsInAbs<T>(f: Fine<T>, l: Stage)
    requires FineWf(f) && (List(f.s, l) != [] || exists u :: 0 <= u < |f.at| && PushesTo(Spots(f)[u], l))
    ensures List(Abs(f), l) != []
  {
    if List(f.s, l) == [] {
      var u :| 0 <= u < |f.at| && PushesTo(Spots(f)[u], l);
      assert Fits(f, u);
    }
  }

  lemma OwerInAbs<T>(f: Fine<T>, l: Stage) returns (u: Tid)
    requires FineWf(f) && RwInv(Abs(f)) && List(Abs(f), l) != [] && !Busy(f.s, l)
    ensures u < |f.at| && Owes(f.s.pc[u], l)
  {
    hide Late, RwInv, List, Owes;
    u := SomeOwer(Abs(f), l);
    SamePart(f, u);
  }

  lemma SomeOwer<T>(s: Rw<T>, l: Stage) returns (u: Tid)
    requires RwInv(s) && List(s, l) != [] && !Busy(s, l)
    ensures u < |s.pc| && Owes(s.pc[u], l)
  {
    hide Encoded;
    match l
    case ReadThreads => u :| 0 <= u < |s.pc| && OwesReadThreads(s.pc[u]);
    case ReadTasks => u :| 0 <= u < |s.pc| && OwesReadTasks(s.pc[u]);
    case WriteThreads => u :| 0 <= u < |s.pc| && OwesWriteThreads(s.pc[u]);
    case WriteTasks => u :| 0 <= u < |s.pc| && OwesWriteTasks(s.pc[u]);
  }

  /** A thread about to push has no part in a hand-off, in either state. */
  lemma SamePart<T>(f: Fine<T>, u: Tid)
    requires FineWf(f) && u < |f.at|
    ensures Abs(f).pc[u] == PcOf(f.s.pc[u], f.at[u])
    ensures forall l :: Owes(Abs(f).pc[u], l) ==> Owes(f.s.pc[u], l)
    ensures forall q: RwPc :: (q.Park? || q.Await?) && Frees(Abs(f).pc[u], q) ==> Frees(f.s.pc[u], q)
    ensures forall q, t :: Signals(Abs(f).pc[u], q, t) ==> Signals(f.s.pc[u], q, t)
  {
    hide Late, Wf;
    assert Fits(f, u);
  }

  /** Parked or awaiting in mode `m`, or about to push. */
  predicate WaitsAt(x: Spot, m: Mode) {
    x.p == RwPc.Park(m) || (x.p.Await? && x.p.m == m)
    || (x.at.Missed? && (x.p == Enter(m) || x.p == EnterTask(m)))
  }

  /** What such a thread waits for has not come. */
  predicate Unheard<T>(f: Fine<T>, t: Tid)
    requires t < |f.at| == |f.s.pc| && t < |f.s.token|
  {
    var p := PcOf(f.s.pc[t], f.at[t]);
    (p.Park? && !f.s.token[t]) || (p.Await? && p.id !in f.s.fired)
  }

  /** No lost wake-up, action by action: a reader or writer that waits, or has failed its attempt and is about to
      push, has another thread that holds a guard it waits for, has yet to take the very list it is in or is about to
      be in, or is about to signal it. */
  lemma FineNoLostWakeup<T>(n: nat, value: T, gs: seq<FineStep<T>>, f: Fine<T>, t: Tid, m: Mode)
    requires FineReached(n, value, gs, f) && t < |f.s.pc| == |f.at| == |f.s.token|
    requires WaitsAt(Spots(f)[t], m) && Unheard(f, t)
    ensures var q := PcOf(f.s.pc[t], f.at[t]);
            && q.m == m
            && exists u :: 0 <= u < |f.s.pc| && u != t && (Frees(f.s.pc[u], q) || Signals(f.s.pc[u], q, t))
  {
    hide RwInv, FineReached, Fits, Late, Frees, Signals;
    FineReachable(n, value, gs, f);
    SamePart(f, t);
    WaitingMode(f, t, m);
    WaiterIsFreed(Abs(f), t);
    var q := Abs(f).pc[t];
    var u :| 0 <= u < |f.s.pc| && u != t && (Frees(Abs(f).pc[u], q) || Signals(Abs(f).pc[u], q, t));
    SamePart(f, u);
  }

  lemma WaitingMode<T>(f: Fine<T>, t: Tid, m: Mode)
    requires FineWf(f) && t < |f.at| && WaitsAt(Spots(f)[t], m)
    ensures var p := PcOf(f.s.pc[t], f.at[t]); (p.Park? || p.Await?) && p.m == m
  {
    assert Fits(f, t);
  }

  /** The next action of a call, on or off a list. */
  predicate Moves<T>(g: FineStep<T>) { g.Plain? ==> g.e.Go? }

  /** Short of a panic inside a section, the spinlocks cost no progress: wherever the lock lets some thread go on,
      some thread can take an action here. */
  lemma SpinlocksAreLeft<T>(f: Fine<T>, t: Tid)
    requires FineWf(f) && t < |f.at| && Wf(Abs(f)) && CanGo(Abs(f), t)
    requires forall u :: 0 <= u < |f.at| ==> !f.s.pc[u].Panicked?
    ensures exists g :: FineEnabled(f, g) && Moves(g)
  {
    assert Fits(f, t);
    if !f.at[t].Outside? {
      SectionMoves(f, t);
    } else if ListOf(f.s.pc[t]).None? {
      assert FineEnabled(f, Plain(Go(t)));
    } else if ListOf(f.s.pc[t]).value in f.spin {
      SectionMoves(f, f.spin[ListOf(f.s.pc[t]).value]);
    } else {
      assert FineEnabled(f, Swap(t));
    }
  }

  lemma SectionMoves<T>(f: Fine<T>, t: Tid)
    requires FineWf(f) && t < |f.at| && !f.at[t].Outside? && !f.s.pc[t].Panicked?
    ensures exists g :: FineEnabled(f, g) && Moves(g)
  {
    var g: FineStep<T> := match f.at[t] case Entered(_) => Act(t) case Missed(_, _) => Push(t) case _ => Unset(t);
    assert FineEnabled(f, g) && Moves(g);
  }
}
