/** When `wait_block_timeout` reports what happened. A thread's entry may outlive the wait that made it: `wait_block`
    leaves it behind at a spurious return. A timed wait looks for an entry of its own thread, and takes an old one
    for its own. So its answer is exact whatever other threads do, if the thread is not listed when it registers;
    and if it is listed, some continuation makes the answer wrong. */
module MonitorExact {
  import opened Basics
  import opened Monitor
  import opened MonitorSteps
  import opened MonitorSafety
  import opened MonitorRuns
  import opened MonitorTasks
  import opened MonitorEntries
  import opened MonitorOwn

  /** What an acquisition without a limit will report, or has reported. */
  function Reports(p: Pc): Option<Reply> {
    match p
    case In(r) => Some(r)
    case SpinSwap(None, r) => Some(r)
    case BlockEnter(None, r) => Some(r)
    case BlockPark(None, r) => Some(r)
    case _ => None
  }

  /** Thread `t` is in a timed wait with one entry, or a notifier has taken that; or the wait is over, no entry is
      left, and it reports "not timed out" exactly if a notifier took the entry. */
  ghost predicate Exact<T>(s: State<T>, t: Tid)
    requires Wf(s) && t < |s.pc|
  {
    if TimedWaits(s.pc[t]) then Entries(s, t) + Bit(s.hist.popped[t]) == 1
    else Entries(s, t) == 0 && Reports(s.pc[t]) == Some(Waited(!s.hist.popped[t]))
  }

  // ------------------------------------------------------------ not listed: always exact

  /** A step that leaves thread `t`'s program counter. */
  lemma OtherExact<T>(s: State<T>, s': State<T>, a: Tid, t: Tid)
    requires Wf(s) && Wf(s') && t < |s.pc| && Bounded(s, s', a) && EntryFacts(s, s', a, t) && Exact(s, t)
    requires a != t
    ensures Exact(s', t)
  {
  }

  /** Own actions of a wait that goes on: the list is left alone. */
  predicate Stays(p: Pc, p': Pc) {
    if TimedWaits(p) then TimedWaits(p') && !p.CvRemove?
    else !TimedWaits(p') && Reports(p') == Reports(p)
  }

  /** The last action of the wait itself: it finds out, and goes on to the re-acquisition. */
  predicate Ends<T>(s: State<T>, s': State<T>, t: Tid)
    requires t < |s.pc| && t < |s'.pc|
  {
    && TimedWaits(s.pc[t]) && !TimedWaits(s'.pc[t]) && s'.hist.popped == s.hist.popped
    && (Entries(s, t) > 0 ==> s.pc[t].CvRemove?)
    && Reports(s'.pc[t]) == Some(Waited(Entries(s, t) > 0))
  }

  lemma AwaitStays<T>(s: State<T>, t: Tid)
    requires Wf(s) && t < |s.pc| && CanGo(s, t) && Awaits(s.pc[t]) && TimedWaits(s.pc[t])
    ensures var s' := GoAwait(s, t); |s'.pc| == |s.pc| && (Stays(s.pc[t], s'.pc[t]) || Ends(s, s', t))
  {
    EntriesIn(s, t);
  }

  lemma ReleaseStays<T>(s: State<T>, t: Tid)
    requires Wf(s) && t < |s.pc| && Releases(s.pc[t]) && TimedWaits(s.pc[t])
    ensures var s' := GoRelease(s, t); |s'.pc| == |s.pc| && Stays(s.pc[t], s'.pc[t])
  {
  }

  lemma AcquireStays<T>(s: State<T>, t: Tid)
    requires Wf(s) && t < |s.pc| && CanGo(s, t) && Acquires(s.pc[t]) && Reports(s.pc[t]).Some?
    ensures var s' := GoAcquire(s, t); |s'.pc| == |s.pc| && Stays(s.pc[t], s'.pc[t])
  {
  }

  lemma OwnMoves<T>(s: State<T>, t: Tid)
    requires Wf(s) && t < |s.pc| && CanGo(s, t) && Exact(s, t)
    ensures var s' := Advance(s, t); |s'.pc| == |s.pc| && (Stays(s.pc[t], s'.pc[t]) || Ends(s, s', t))
  {
    hide GoAcquire, GoRelease, GoAwait, GoNotify, Stays, Ends;
    if Acquires(s.pc[t]) {
      AcquireStays(s, t);
    } else if Releases(s.pc[t]) {
      ReleaseStays(s, t);
    } else {
      AwaitStays(s, t);
    }
  }

  lemma OwnExact<T>(s: State<T>, t: Tid)
    requires Wf(s) && t < |s.pc| && CanGo(s, t) && Exact(s, t) && Wf(Advance(s, t))
    requires |Advance(s, t).pc| == |s.pc| && EntryFacts(s, Advance(s, t), t, t)
    ensures Exact(Advance(s, t), t)
  {
    hide Advance;
    OwnMoves(s, t);
  }

  /** Every step in which thread `t` begins no call keeps it. */
  lemma ExactStep<T>(s: State<T>, e: Step<T>, t: Tid)
    requires Wf(s) && Enabled(s, e) && t < |s.pc| && OwnCall(e, t) == [] && Exact(s, t)
    ensures Wf(Apply(s, e)) && |Apply(s, e).pc| == |s.pc| && Exact(Apply(s, e), t)
  {
    hide Advance, Entries;
    WfStep(s, e);
    if e.Tick? {
      TickEntries(s, e, t);
    } else {
      StepBounded(s, e);
      StepEntries(s, e, t);
      if e.t != t {
        OtherExact(s, Apply(s, e), e.t, t);
      } else if e.Go? {
        OwnExact(s, t);
      } else {
        PlatformExact(s, e, t);
      }
    }
  }

  lemma PlatformExact<T>(s: State<T>, e: Step<T>, t: Tid)
    requires Wf(s) && Enabled(s, e) && t < |s.pc| && Exact(s, t) && (e == Spurious(t) || e == Stray(t))
    requires Wf(Apply(s, e)) && |Apply(s, e).pc| == |s.pc|
    ensures Exact(Apply(s, e), t)
  {
  }

  lemma {:induction false} ExactRun<T>(s: State<T>, es: seq<Step<T>>, t: Tid)
    requires Wf(s) && Possible(s, es) && t < |s.pc| && NoCalls(es, t) && Exact(s, t)
    ensures Exact(Exec(s, es), t)
    decreases |es|
  {
    hide Apply, Exact, OwnCall;
    if es != [] {
      ExactStep(s, es[0], t);
      ExactRun(Apply(s, es[0]), es[1..], t);
    }
  }

  /** Thread `t` begins a timed wait, `es` is what happens then, and `t` makes no other call in it. */
  ghost predicate TimedWait<T>(s: State<T>, t: Tid, limit: nat, sync: Sync, es: seq<Step<T>>, s': State<T>) {
    && Wf(s) && t < |s.pc| && s.pc[t].In? && NoCalls(es, t)
    && var e := Wait(t, WaitBlockTimeout(limit, sync));
       WfStep(s, e);
       Possible(Apply(s, e), es) && s' == Exec(Apply(s, e), es)
  }

  lemma RegistersOnce<T>(s: State<T>, t: Tid, limit: nat, sync: Sync)
    requires Wf(s) && t < |s.pc| && s.pc[t].In? && t !in s.cond.threads
    ensures var s' := Apply(s, Wait(t, WaitBlockTimeout(limit, sync))); Wf(s') && t < |s'.pc| && Exact(s', t)
  {
    CountIn(s.cond.threads, t);
  }

  /** A timed wait begun by a thread that is not listed returns with no entry left, and reports a timeout exactly
      if no notifier took its entry, whatever waits other threads mix in and however parks return. */
  lemma TimedExact<T>(s: State<T>, t: Tid, limit: nat, sync: Sync, es: seq<Step<T>>, s': State<T>)
    requires TimedWait(s, t, limit, sync, es, s') && t !in s.cond.threads
    ensures t < |s'.pc| && (s'.pc[t].In? ==> s'.pc[t].reply == Waited(!s'.hist.popped[t]) && t !in s'.cond.threads)
  {
    hide Apply;
    RegistersOnce(s, t, limit, sync);
    ExactRun(Apply(s, Wait(t, WaitBlockTimeout(limit, sync))), es, t);
    EntriesIn(s', t);
  }

  // ------------------------------------------------------------ listed: the answer can be wrong

  /** A run of one timed wait of thread `t` that reports a timeout though a notifier took the entry it made. */
  ghost predicate Misreports<T>(s: State<T>, t: Tid, limit: nat, sync: Sync, es: seq<Step<T>>, s': State<T>) {
    && TimedWait(s, t, limit, sync, es, s')
    && t < |s'.pc| && s'.pc[t] == In(Waited(true)) && t < |s'.hist.popped| && s'.hist.popped[t]
  }

  /** From every state in which a listed thread owns the guard and another is outside: the timed wait may report a
      timeout although it was notified. */
  lemma ListedMayMisreport<T>(s: State<T>, t: Tid, u: Tid, limit: nat, sync: Sync)
    requires Wf(s) && t < |s.pc| && s.pc[t].In? && t in s.cond.threads
    requires u < |s.pc| && s.pc[u].Out?
    ensures exists es, s' :: Misreports(s, t, limit, sync, es, s')
  {
    hide Possible, Exec, Wf, Apply, Enabled;
    var s0 := Waits(s, t, limit, sync);
    var release := FinishRelease(s0, t);
    var s1 := Exec(s0, release);
    var notify := NotifiesThread(s1, u);
    var s2 := Exec(s1, notify);
    assert s2.cond.threads == s.cond.threads;
    var expire := ExpiresListed(s2, t, limit, sync);
    OwnIsNoCall(expire, t);
    ExecConcat(s0, release, notify);
    ExecConcat(s0, release + notify, expire);
    assert Misreports(s, t, limit, sync, release + notify + expire, Exec(s2, expire));
  }

  lemma OwnIsNoCall<T>(es: seq<Step<T>>, t: Tid)
    requires OwnOrClock(es, t)
    ensures NoCalls(es, t)
  {
  }

  lemma Waits<T>(s: State<T>, t: Tid, limit: nat, sync: Sync) returns (s': State<T>)
    requires Wf(s) && t < |s.pc| && s.pc[t].In?
    ensures Enabled(s, Wait(t, WaitBlockTimeout(limit, sync)))
    ensures s' == Apply(s, Wait(t, WaitBlockTimeout(limit, sync))) && Wf(s') && |s'.pc| == |s.pc|
    ensures s'.pc == s.pc[t := Release(Resume(OnThreadUntil(limit, sync)))] && s'.cond.threads == s.cond.threads + [t]
  {
    s' := Apply(s, Wait(t, WaitBlockTimeout(limit, sync)));
  }

  /** Thread `t` waits with `wait_block`, is back with the guard, and is listed. */
  ghost predicate LeavesEntry<T>(s: State<T>, t: Tid, es: seq<Step<T>>, s': State<T>) {
    && Wf(s) && Possible(s, es) && s' == Exec(s, es)
    && Calls(es, t) == [Wait(t, WaitBlock(SyncBlock))]
    && t < |s'.pc| && s'.pc[t] == In(Waited(false)) && t in s'.cond.threads
  }

  /** How a thread that owns the guard comes to be listed: from every state, a `wait_block` whose park returns
      spuriously. */
  lemma SpuriousLeavesEntry<T>(s: State<T>, t: Tid)
    requires Wf(s) && t < |s.pc| && s.pc[t].In?
    ensures exists es, s' :: LeavesEntry(s, t, es, s')
  {
    hide Possible, Exec, Wf, Apply, Enabled, Calls;
    var call := Wait(t, WaitBlock(SyncBlock));
    var s0 := WaitsUntimed(s, t);
    OneStep(s, call);
    var release := FinishRelease(s0, t);
    ExecConcat(s, [call], release);
    var es := [call] + release;
    var back := ReturnsSpuriously(Exec(s, es), t);
    ExecConcat(s, es, back);
    assert OneCall(call, release + back, t);
    CallsOnce(call, release + back, t);
    assert es + back == [call] + (release + back);
    assert LeavesEntry(s, t, es + back, Exec(s, es + back));
  }

  lemma WaitsUntimed<T>(s: State<T>, t: Tid) returns (s': State<T>)
    requires Wf(s) && t < |s.pc| && s.pc[t].In?
    ensures Enabled(s, Wait(t, WaitBlock(SyncBlock)))
    ensures s' == Apply(s, Wait(t, WaitBlock(SyncBlock))) && Wf(s') && |s'.pc| == |s.pc|
    ensures s'.pc == s.pc[t := Release(Resume(OnThread(SyncBlock)))] && s'.cond.threads == s.cond.threads + [t]
  {
    s' := Apply(s, Wait(t, WaitBlock(SyncBlock)));
  }

  lemma ReturnsSpuriously<T>(s: State<T>, t: Tid) returns (es: seq<Step<T>>)
    requires Wf(s) && t < |s.pc| && s.pc[t] == CvPark(SyncBlock) && !s.lock.held
    ensures Possible(s, es) && NoCalls(es, t)
    ensures var s' := Exec(s, es); s'.pc[t] == In(Waited(false)) && s'.cond == s.cond
  {
    hide GoRelease, GoNotify, GoAwait, Possible, Exec, Wf;
    var wake: Step<T> := Spurious(t);
    OneStep(s, wake);
    ExecSnoc(s, [wake], Go(t));
    es := [wake] + [Go(t)];
  }

  ghost predicate OneCall<T>(e: Step<T>, es: seq<Step<T>>, t: Tid) {
    OwnCall(e, t) == [e] && forall i :: 0 <= i < |es| ==> OwnCall(es[i], t) == []
  }

  lemma {:induction false} CallsOnce<T>(e: Step<T>, es: seq<Step<T>>, t: Tid)
    requires OneCall(e, es, t)
    ensures Calls([e] + es, t) == [e]
  {
    if es == [] {
      assert [e][..0] == [] && [e] + es == [e];
    } else {
      CallsOnce(e, es[..|es| - 1], t);
      assert ([e] + es)[..|es|] == [e] + es[..|es| - 1];
    }
  }

  /** Exactly: with another thread outside, a timed wait can misreport if and only if its thread is listed when it
      registers. */
  lemma MisreportsIffListed<T>(s: State<T>, t: Tid, u: Tid, limit: nat, sync: Sync)
    requires Wf(s) && t < |s.pc| && s.pc[t].In? && u < |s.pc| && s.pc[u].Out?
    ensures t in s.cond.threads <==> exists es, s' :: Misreports(s, t, limit, sync, es, s')
  {
    hide Wf, TimedWait, Apply;
    if t in s.cond.threads {
      ListedMayMisreport(s, t, u, limit, sync);
    } else {
      forall es, s' | Misreports(s, t, limit, sync, es, s')
        ensures false
      {
        TimedExact(s, t, limit, sync, es, s');
      }
    }
  }

  // ------------------------------------------------------------ spinning waits

  /** Thread `t` waits on flag `id`; or the wait is over and it reports a timeout exactly if it withdrew the flag
      itself, and otherwise it returned on it. */
  ghost predicate SpinExact<T>(s: State<T>, t: Tid, id: Sig)
    requires t < |s.pc|
  {
    SpinWaits(s.pc[t], id)
    || (Reports(s.pc[t]) == Some(Waited(id in s.hist.expired)) && (id in s.hist.expired || id in s.hist.seen))
  }

  lemma SpinAwait<T>(s: State<T>, t: Tid, id: Sig)
    requires Wf(s) && t < |s.pc| && CanGo(s, t) && Awaits(s.pc[t]) && SpinWaits(s.pc[t], id) && SpinFlag(s, id)
    ensures var s' := GoAwait(s, t); |s'.pc| == |s.pc| && SpinExact(s', t, id)
  {
  }

  lemma SpinRelease<T>(s: State<T>, t: Tid, id: Sig)
    requires Wf(s) && t < |s.pc| && Releases(s.pc[t]) && SpinWaits(s.pc[t], id)
    ensures var s' := GoRelease(s, t); |s'.pc| == |s.pc| && SpinExact(s', t, id)
  {
  }

  lemma SpinAcquire<T>(s: State<T>, t: Tid)
    requires Wf(s) && t < |s.pc| && CanGo(s, t) && Acquires(s.pc[t])
    ensures var s' := GoAcquire(s, t);
            && |s'.pc| == |s.pc| && s'.hist == s.hist
            && (Reports(s.pc[t]).Some? ==> Reports(s'.pc[t]) == Reports(s.pc[t]))
  {
  }

  lemma OwnSpin<T>(s: State<T>, t: Tid, id: Sig)
    requires Wf(s) && t < |s.pc| && CanGo(s, t) && SpinFlag(s, id) && SpinExact(s, t, id)
    ensures |Advance(s, t).pc| == |s.pc| && SpinExact(Advance(s, t), t, id)
  {
    hide GoAcquire, GoRelease, GoAwait, GoNotify;
    if Acquires(s.pc[t]) {
      SpinAcquire(s, t);
    } else if Releases(s.pc[t]) {
      SpinRelease(s, t, id);
    } else {
      SpinAwait(s, t, id);
    }
  }

  lemma OtherSpin<T>(s: State<T>, s': State<T>, a: Tid, t: Tid, id: Sig)
    requires t < |s.pc| && a != t && Facts(s, s', a, id) && SpinFlag(s, id) && SpinExact(s, t, id)
    ensures |s'.pc| == |s.pc| && SpinExact(s', t, id)
  {
  }

  lemma SpinStep<T>(s: State<T>, e: Step<T>, t: Tid, id: Sig)
    requires Inv(s) && Enabled(s, e) && t < |s.pc| && OwnCall(e, t) == [] && SpinExact(s, t, id)
    ensures Wf(Apply(s, e)) && |Apply(s, e).pc| == |s.pc| && SpinExact(Apply(s, e), t, id)
  {
    hide Advance;
    WfStep(s, e);
    assert SpinFlag(s, id);
    if !e.Tick? && e.t != t {
      SpinsBelow(s);
      StepFacts(s, e, id);
      OtherSpin(s, Apply(s, e), e.t, t, id);
    } else if e.Go? {
      OwnSpin(s, t, id);
    } else {
      PlatformSpin(s, e, t, id);
    }
  }

  lemma PlatformSpin<T>(s: State<T>, e: Step<T>, t: Tid, id: Sig)
    requires Wf(s) && Enabled(s, e) && t < |s.pc| && SpinExact(s, t, id)
    requires e == Spurious(t) || e == Stray(t) || e.Tick?
    ensures |Apply(s, e).pc| == |s.pc| && SpinExact(Apply(s, e), t, id)
  {
    hide Advance;
  }

  /** In every run in which the thread makes no other call: a spinning wait that is back reports a timeout exactly if
      it withdrew its flag, and otherwise a notifier had taken and stored it. */
  lemma {:induction false} SpinExactRun<T>(s: State<T>, s': State<T>, t: Tid, id: Sig, es: seq<Step<T>>)
    requires Inv(s) && Meanwhile(s, s', t, es) && t < |s.pc| && SpinExact(s, t, id)
    ensures Inv(s') && t < |s'.pc|
    ensures s'.pc[t].In? ==> && s'.pc[t] == In(Waited(id in s'.hist.expired))
                             && (id in s'.hist.expired <==> id !in s'.hist.taken)
                             && (id !in s'.hist.expired ==> id in s'.rt.flags) && id < s'.rt.next
    decreases |es|
  {
    hide Apply, OwnCall;
    if es == [] {
      assert SpinFlag(s, id);
    } else {
      InvStep(s, es[0]);
      SpinStep(s, es[0], t, id);
      SpinExactRun(Apply(s, es[0]), s', t, id, es[1..]);
    }
  }

  lemma NamesGrow<T>(s: State<T>, e: Step<T>)
    requires Wf(s) && Enabled(s, e)
    ensures s.rt.next <= Apply(s, e).rt.next
  {
  }

  /** Names of flags and continuations are not used twice. */
  lemma {:induction false} NamesGrowRun<T>(s: State<T>, s': State<T>, t: Tid, es: seq<Step<T>>)
    requires Meanwhile(s, s', t, es)
    ensures s.rt.next <= s'.rt.next
    decreases |es|
  {
    hide Apply, OwnCall;
    if es != [] {
      WfStep(s, es[0]);
      NamesGrow(s, es[0]);
      NamesGrowRun(Apply(s, es[0]), s', t, es[1..]);
    }
  }

  // ------------------------------------------------------------ asynchronous waits

  /** A notifier has taken continuation `id`: it has been sent, or is about to be. */
  ghost predicate TaskTaken<T>(s: State<T>, id: Sig) {
    id in s.rt.fired || exists u :: 0 <= u < |s.pc| && id in Sends(s.pc[u])
  }

  /** `wait_async_timeout` at its deadline reports a timeout whether or not it was notified. So its answer is wrong, and
      that notification is lost, exactly when its continuation is no longer listed there. */
  lemma TaskTimeoutIgnores<T>(s: State<T>, t: Tid, id: Sig)
    requires Inv(s) && TaskInv(s) && t < |s.pc| && s.pc[t] == CvTaskRemove(id)
    ensures |Advance(s, t).pc| == |s.pc|
    ensures Advance(s, t).pc[t] == TaskEnter(None, Waited(true))
    ensures TaskTaken(s, id) <==> id !in s.cond.tasks
  {
    hide GoAcquire, GoRelease, GoNotify, Without, IndexOf;
    assert CvTaskReachable(s, id) && Entry(s, id) && TaskWaits(s.pc[t], id);
  }
}
