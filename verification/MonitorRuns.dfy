/** Whole runs of the monitor, and what its invariant means for a caller. */
module MonitorRuns {
  import opened Basics
  import opened Monitor
  import opened Handoff
  import opened MonitorSteps
  import opened MonitorSafety

  /** `es` is a run from `s`: each step is enabled where it is taken. */
  predicate Possible<T>(s: State<T>, es: seq<Step<T>>)
    requires Wf(s)
    decreases |es|
  {
    es == [] || (Enabled(s, es[0]) && (WfStep(s, es[0]); Possible(Apply(s, es[0]), es[1..])))
  }

  function Exec<T>(s: State<T>, es: seq<Step<T>>): (s': State<T>)
    requires Wf(s) && Possible(s, es)
    ensures Wf(s') && |s'.pc| == |s.pc|
    decreases |es|
  {
    if es == [] then s else (WfStep(s, es[0]); Exec(Apply(s, es[0]), es[1..]))
  }

  lemma EmptyRun<T>(s: State<T>)
    requires Wf(s)
    ensures Possible(s, []) && Exec(s, []) == s
  {
  }

  lemma {:induction false} ExecSnoc<T>(s: State<T>, es: seq<Step<T>>, e: Step<T>)
    requires Wf(s) && Possible(s, es) && Enabled(Exec(s, es), e)
    ensures Possible(s, es + [e]) && Exec(s, es + [e]) == Apply(Exec(s, es), e)
    decreases |es|
  {
    hide Apply, Enabled;
    if es == [] {
      WfStep(s, e);
      assert [e][1..] == [] && [] + [e] == [e];
    } else {
      WfStep(s, es[0]);
      ExecSnoc(Apply(s, es[0]), es[1..], e);
      assert (es + [e])[0] == es[0] && (es + [e])[1..] == es[1..] + [e];
    }
  }

  lemma {:induction false} ExecConcat<T>(s: State<T>, es: seq<Step<T>>, more: seq<Step<T>>)
    requires Wf(s) && Possible(s, es) && Possible(Exec(s, es), more)
    ensures Possible(s, es + more) && Exec(s, es + more) == Exec(Exec(s, es), more)
    decreases |es|
  {
    hide Apply, Enabled;
    if es == [] {
      assert [] + more == more;
    } else {
      WfStep(s, es[0]);
      ExecConcat(Apply(s, es[0]), es[1..], more);
      assert (es + more)[0] == es[0] && (es + more)[1..] == es[1..] + more;
    }
  }

  lemma {:induction false} ExecSplit<T>(s: State<T>, es: seq<Step<T>>, more: seq<Step<T>>)
    requires Wf(s) && Possible(s, es + more)
    ensures Possible(s, es) && Possible(Exec(s, es), more) && Exec(s, es + more) == Exec(Exec(s, es), more)
    decreases |es|
  {
    hide Apply, Enabled;
    if es == [] {
      assert [] + more == more;
    } else {
      WfStep(s, es[0]);
      assert (es + more)[0] == es[0] && (es + more)[1..] == es[1..] + more;
      ExecSplit(Apply(s, es[0]), es[1..], more);
    }
  }

  /** The calls thread `t` makes in a run: its own steps apart from those inside a call. */
  function Calls<T>(es: seq<Step<T>>, t: Tid): seq<Step<T>> {
    if es == [] then [] else Calls(es[..|es| - 1], t) + OwnCall(Last(es), t)
  }

  function OwnCall<T>(e: Step<T>, t: Tid): seq<Step<T>> {
    if IsBy(e, t) && !e.Go? && !e.Spurious? then [e] else []
  }

  lemma CallsSnoc<T>(es: seq<Step<T>>, e: Step<T>, t: Tid)
    ensures Calls(es + [e], t) == Calls(es, t) + OwnCall(e, t)
  {
    assert (es + [e])[..|es|] == es;
  }

  lemma {:induction false} CallsConcat<T>(es: seq<Step<T>>, more: seq<Step<T>>, t: Tid)
    ensures Calls(es + more, t) == Calls(es, t) + Calls(more, t)
    decreases |more|
  {
    if more == [] {
      assert es + more == es;
    } else {
      var less := more[..|more| - 1];
      CallsConcat(es, less, t);
      assert (es + more)[..|es + more| - 1] == es + less;
    }
  }

  /** The steps that are not the thread's own. */
  function Foreign<T>(es: seq<Step<T>>, t: Tid): seq<Step<T>> {
    if es == [] then [] else Foreign(es[..|es| - 1], t) + (if IsBy(Last(es), t) then [] else [Last(es)])
  }

  /** How often its park has returned spuriously. */
  function Spurts<T>(es: seq<Step<T>>, t: Tid): nat {
    if es == [] then 0 else Spurts(es[..|es| - 1], t) + Bit(Last(es) == Spurious(t))
  }

  lemma CountsSnoc<T>(es: seq<Step<T>>, e: Step<T>, t: Tid)
    ensures Foreign(es + [e], t) == Foreign(es, t) + (if IsBy(e, t) then [] else [e])
    ensures Spurts(es + [e], t) == Spurts(es, t) + Bit(e == Spurious(t))
  {
    assert (es + [e])[..|es|] == es;
  }

  lemma {:induction false} CountsGrow<T>(es: seq<Step<T>>, more: seq<Step<T>>, t: Tid)
    requires es <= more
    ensures |Foreign(es, t)| <= |Foreign(more, t)| && Spurts(es, t) <= Spurts(more, t)
    decreases |more|
  {
    if |more| > |es| {
      CountsGrow(es, more[..|more| - 1], t);
    } else {
      assert more == es;
    }
  }

  /** A run with no call of thread `t`, no spurious return and no step of anyone else has only its own next actions. */
  lemma {:induction false} OnlyGoes<T>(es: seq<Step<T>>, more: seq<Step<T>>, t: Tid)
    requires es <= more && Calls(more, t) == Calls(es, t)
    requires |Foreign(more, t)| == |Foreign(es, t)| && Spurts(more, t) == Spurts(es, t)
    ensures forall i :: |es| <= i < |more| ==> more[i] == Go(t)
    decreases |more|
  {
    if |more| > |es| {
      var less := more[..|more| - 1];
      CallsGrow(es, less, t);
      CountsGrow(es, less, t);
      OnlyGoes(es, less, t);
    }
  }

  lemma {:induction false} CountsConcat<T>(es: seq<Step<T>>, more: seq<Step<T>>, t: Tid)
    ensures Foreign(es + more, t) == Foreign(es, t) + Foreign(more, t)
    ensures Spurts(es + more, t) == Spurts(es, t) + Spurts(more, t)
    decreases |more|
  {
    if more == [] {
      assert es + more == es;
    } else {
      var less := more[..|more| - 1];
      CountsConcat(es, less, t);
      assert (es + more)[..|es + more| - 1] == es + less;
    }
  }

  lemma OneStepCounts<T>(e: Step<T>, t: Tid)
    ensures Calls([e], t) == OwnCall(e, t) && Foreign([e], t) == (if IsBy(e, t) then [] else [e])
    ensures Spurts([e], t) == Bit(e == Spurious(t))
  {
    assert [e][..0] == [];
    assert Calls<T>([], t) == [] && Foreign<T>([], t) == [] && Spurts<T>([], t) == 0;
  }

  /** The values that the lock held just before each store of thread `t`. */
  ghost function FoundIn<T>(s: State<T>, es: seq<Step<T>>, t: Tid): seq<T>
    requires Wf(s) && Possible(s, es)
    decreases |es|
  {
    if es == [] then []
    else
      WfStep(s, es[0]);
      (if es[0].Store? && es[0].t == t then [s.lock.value] else []) + FoundIn(Apply(s, es[0]), es[1..], t)
  }

  lemma {:induction false} FoundConcat<T>(s: State<T>, es: seq<Step<T>>, more: seq<Step<T>>, t: Tid)
    requires Wf(s) && Possible(s, es) && Possible(Exec(s, es), more)
    ensures Possible(s, es + more) && FoundIn(s, es + more, t) == FoundIn(s, es, t) + FoundIn(Exec(s, es), more, t)
    decreases |es|
  {
    hide Apply, Enabled;
    ExecConcat(s, es, more);
    if es == [] {
      assert [] + more == more;
    } else {
      WfStep(s, es[0]);
      FoundConcat(Apply(s, es[0]), es[1..], more, t);
      assert (es + more)[0] == es[0] && (es + more)[1..] == es[1..] + more;
    }
  }

  lemma {:induction false} FoundNothing<T>(s: State<T>, es: seq<Step<T>>, t: Tid)
    requires Wf(s) && Possible(s, es) && forall e :: e in Calls(es, t) ==> !e.Store?
    ensures FoundIn(s, es, t) == []
    decreases |es|
  {
    hide Apply, Enabled, Calls;
    if es != [] {
      WfStep(s, es[0]);
      assert es == [es[0]] + es[1..];
      CallsConcat([es[0]], es[1..], t);
      OneStepCounts(es[0], t);
      FoundNothing(Apply(s, es[0]), es[1..], t);
    }
  }

  /** In the run thread `t` makes no call: it goes on inside the one it is in, if any. */
  ghost predicate NoCalls<T>(es: seq<Step<T>>, t: Tid) {
    forall i :: 0 <= i < |es| ==> OwnCall(es[i], t) == []
  }

  /** `es` leads from `s` to `s'`, and in it thread `t` makes no call. */
  ghost predicate Meanwhile<T>(s: State<T>, s': State<T>, t: Tid, es: seq<Step<T>>) {
    Wf(s) && Possible(s, es) && Exec(s, es) == s' && NoCalls(es, t)
  }

  lemma {:induction false} SameCalls<T>(es: seq<Step<T>>, more: seq<Step<T>>, t: Tid)
    requires es <= more && Calls(more, t) == Calls(es, t)
    ensures NoCalls(more[|es|..], t)
    decreases |more|
  {
    CallsGrow(es, more, t);
    if |more| > |es| {
      var less := more[..|more| - 1];
      CallsGrow(es, less, t);
      SameCalls(es, less, t);
      assert more[|es|..] == less[|es|..] + [Last(more)];
    }
  }

  lemma {:induction false} CallsGrow<T>(es: seq<Step<T>>, more: seq<Step<T>>, t: Tid)
    requires es <= more
    ensures |Calls(es, t)| <= |Calls(more, t)|
    ensures |Calls(es, t)| == |Calls(more, t)| ==> Calls(es, t) == Calls(more, t)
    decreases |more|
  {
    if |more| > |es| {
      CallsGrow(es, more[..|more| - 1], t);
    } else {
      assert more == es;
    }
  }

  lemma InitInv<T>(n: nat, value: T)
    ensures Inv(Init(n, value))
  {
  }

  lemma {:induction false} InvRun<T>(s: State<T>, es: seq<Step<T>>)
    requires Inv(s) && Possible(s, es)
    ensures Inv(Exec(s, es))
    decreases |es|
  {
    hide Apply;
    if es != [] {
      InvStep(s, es[0]);
      WfStep(s, es[0]);
      InvRun(Apply(s, es[0]), es[1..]);
    }
  }

  /** The invariant holds in every state any run reaches, from a new mutex and condition variable. */
  lemma InvReachable<T>(n: nat, value: T, es: seq<Step<T>>)
    requires Possible(Init(n, value), es)
    ensures Inv(Exec(Init(n, value), es))
  {
    InitInv(n, value);
    InvRun(Init(n, value), es);
  }

  // ------------------------------------------------------------ the mutex

  /** `data_lock` is set exactly when a guard exists, and at most one does, whichever of `try_lock`,
      the spinning, blocking and asynchronous calls, their timed forms and the waits made it. */
  lemma MutualExclusion<T>(n: nat, value: T, es: seq<Step<T>>)
    requires Possible(Init(n, value), es)
    ensures var s := Exec(Init(n, value), es);
            && (s.lock.held <==> exists t :: 0 <= t < |s.pc| && Holds(s.pc[t]))
            && forall t, u :: 0 <= t < |s.pc| && 0 <= u < |s.pc| && Holds(s.pc[t]) && Holds(s.pc[u]) ==> t == u
  {
    InvReachable(n, value, es);
  }

  predicate HeldByAnother<T>(s: State<T>, t: Tid) {
    s.lock.held && exists u :: 0 <= u < |s.pc| && u != t && Holds(s.pc[u])
  }

  /** Between a thread's acquisition and its release, no step of another thread changes the value. */
  lemma GuardedValue<T>(s: State<T>, e: Step<T>, t: Tid)
    requires Wf(s) && Exclusive(s) && Enabled(s, e) && t < |s.pc| && Holds(s.pc[t]) && !IsBy(e, t)
    ensures |Apply(s, e).pc| == |s.pc| && Holds(Apply(s, e).pc[t]) && Apply(s, e).lock.value == s.lock.value
  {
    hide Advance;
    WfStep(s, e);
    if !e.Tick? {
      StepBounded(s, e);
    }
    if !e.Store? {
      ValueKept(s, e);
    }
  }

  /** Thread `u` will, by its own next actions alone, free the lock, empty the list of blocked threads
      or unpark `t`. */
  predicate Rescues(p: Pc, t: Tid) {
    Holds(p) || OwesThreads(p) || t in Unparks(p)
  }

  /** No lost wake-up: a thread parked in `lock_block` or `lock_block_timeout` has its token, or
      another thread holds the guard, owes the list a drain, or is about to unpark it. Spurious
      returns, tokens consumed elsewhere, spinning acquirers and abandoned entries change nothing. */
  lemma NoLostWakeup<T>(n: nat, value: T, es: seq<Step<T>>, t: Tid)
    requires Possible(Init(n, value), es)
    ensures var s := Exec(Init(n, value), es);
            t < |s.pc| && s.pc[t].BlockPark? && !s.rt.token[t]
            ==> exists u :: 0 <= u < |s.pc| && u != t && Rescues(s.pc[u], t)
  {
    InvReachable(n, value, es);
    var s := Exec(Init(n, value), es);
    if t < |s.pc| && s.pc[t].BlockPark? && !s.rt.token[t] {
      ParkedIsRescued(s, t);
    }
  }

  /** Thread 0 takes a new lock. */
  lemma FirstEnters<T>(value: T) returns (es: seq<Step<T>>)
    ensures Possible(Init(2, value), es)
    ensures var s' := Exec(Init(2, value), es); s'.lock.held && s'.pc == [In(Fresh), Out] && s'.rt == Init(2, value).rt
  {
    hide Possible, Exec, GoRelease, GoAwait, GoNotify;
    var s := Init(2, value);
    EmptyRun(s);
    ExecSnoc(s, [], Lock(0, Blocking, None));
    es := [] + [Lock(0, Blocking, None)];
    ExecSnoc(s, es, Go(0));
    es := es + [Go(0)];
  }

  /** Such a thread is there: it finds the lock held. */
  lemma ParkedIsReached<T>(value: T)
    ensures exists es :: Possible(Init(2, value), es) && !Exec(Init(2, value), es).rt.token[1]
                         && Exec(Init(2, value), es).pc == [In(Fresh), BlockPark(None, Fresh)]
  {
    hide Possible, Exec, GoRelease, GoAwait, GoNotify;
    var s := Init(2, value);
    var es := FirstEnters(value);
    ExecSnoc(s, es, Lock(1, Blocking, None));
    es := es + [Lock(1, Blocking, None)];
    ExecSnoc(s, es, Go(1));
    es := es + [Go(1)];
    assert Possible(s, es) && Exec(s, es).pc == [In(Fresh), BlockPark(None, Fresh)];
  }

  lemma ParkedIsRescued<T>(s: State<T>, t: Tid)
    requires Inv(s) && t < |s.pc| && s.pc[t].BlockPark? && !s.rt.token[t]
    ensures exists u :: 0 <= u < |s.pc| && u != t && Rescues(s.pc[u], t)
  {
    assert ThreadReachable(s, t);
    if t in s.lock.threads {
      if s.lock.held {
        var u :| 0 <= u < |s.pc| && Holds(s.pc[u]);
        assert Rescues(s.pc[u], t);
      } else {
        var u :| 0 <= u < |s.pc| && OwesThreads(s.pc[u]);
        assert Rescues(s.pc[u], t);
      }
    } else {
      var u :| 0 <= u < |s.pc| && t in Unparks(s.pc[u]);
      assert Rescues(s.pc[u], t);
    }
  }

  /** The same for a task that awaits its continuation in `lock_async` or `lock_async_timeout`. */
  lemma NoLostTaskWakeup<T>(n: nat, value: T, es: seq<Step<T>>, t: Tid, id: Sig)
    requires Possible(Init(n, value), es)
    ensures var s := Exec(Init(n, value), es);
            t < |s.pc| && LockAwaits(s.pc[t], id) && id !in s.rt.fired
            ==> exists u :: 0 <= u < |s.pc| && u != t && (Holds(s.pc[u]) || OwesTasks(s.pc[u]) || id in Sends(s.pc[u]))
  {
    InvReachable(n, value, es);
    var s := Exec(Init(n, value), es);
    if t < |s.pc| && LockAwaits(s.pc[t], id) && id !in s.rt.fired {
      AwaitedIsRescued(s, t, id);
    }
  }

  lemma AwaitedIsRescued<T>(s: State<T>, t: Tid, id: Sig)
    requires Inv(s) && t < |s.pc| && LockAwaits(s.pc[t], id) && id !in s.rt.fired
    ensures exists u :: 0 <= u < |s.pc| && u != t && (Holds(s.pc[u]) || OwesTasks(s.pc[u]) || id in Sends(s.pc[u]))
  {
    assert TaskReachable(s, id);
    if id in s.lock.tasks {
      if s.lock.held {
        var u :| 0 <= u < |s.pc| && Holds(s.pc[u]);
      } else {
        var u :| 0 <= u < |s.pc| && OwesTasks(s.pc[u]);
      }
    } else {
      var u :| 0 <= u < |s.pc| && id in Sends(s.pc[u]);
    }
  }

  // ------------------------------------------------------------ spinning waits

  /** Flags a notifier has taken whose wait has not returned. */
  ghost function Outstanding<T>(s: State<T>): set<Sig> {
    set x | x in s.hist.taken && SpinWaited(s, x)
  }

  /** Conservation: the flags `notify_one` and `notify_all` took are those whose wait returned as
      notified plus those whose wait is still to return, and none was reported as a timeout. */
  lemma SpinConservation<T>(n: nat, value: T, es: seq<Step<T>>)
    requires Possible(Init(n, value), es)
    ensures var s := Exec(Init(n, value), es);
            && s.hist.taken == s.hist.seen + Outstanding(s)
            && |s.hist.taken| == |s.hist.seen| + |Outstanding(s)|
            && s.hist.taken !! s.hist.expired
  {
    InvReachable(n, value, es);
    var s := Exec(Init(n, value), es);
    forall x: nat
      ensures x in s.hist.taken <==> x in s.hist.seen || x in Outstanding(s)
      ensures !(x in s.hist.seen && x in Outstanding(s)) && !(x in s.hist.taken && x in s.hist.expired)
    {
      assert SpinFlag(s, x);
    }
    assert s.hist.taken == s.hist.seen + Outstanding(s);
    assert s.hist.seen !! Outstanding(s);
  }

  /** The step on which a spinning wait settles its outcome: it reports a timeout exactly when it
      removed its own flag from the list, and otherwise a notifier had taken and stored that flag. */
  lemma SpinReply<T>(s: State<T>, t: Tid, id: Sig)
    requires Inv(s) && t < |s.pc| && CanGo(s, t)
    requires Awaits(s.pc[t]) && SpinWaits(s.pc[t], id) && !SpinWaits(Apply(s, Go(t)).pc[t], id)
    ensures var s' := Apply(s, Go(t));
            exists sync, timedOut ::
              && s'.pc[t] == Relock(sync, timedOut)
              && (timedOut <==> id in s.cond.spins && id !in s'.cond.spins)
              && (timedOut <==> id !in s.hist.taken)
              && (!timedOut ==> id in s.rt.flags)
  {
    assert SpinFlag(s, id);
    var s' := Apply(s, Go(t));
    var sync := s.pc[t].sync;
    if s.pc[t].CvSpinRemove? {
      WithoutFacts(s.cond.spins, id);
      assert s'.pc[t] == Relock(sync, true);
    } else {
      assert s'.pc[t] == Relock(sync, false);
    }
  }

  /** A taken flag reaches its waiter: it is stored, or the notifier that took it still has to. */
  lemma TakenIsStored<T>(n: nat, value: T, es: seq<Step<T>>, id: Sig)
    requires Possible(Init(n, value), es)
    ensures var s := Exec(Init(n, value), es);
            id in s.hist.taken && id !in s.rt.flags ==> Due(id, s.pc, Stores)
  {
    InvReachable(n, value, es);
    assert SpinFlag(Exec(Init(n, value), es), id);
  }
}
