/** What one whole call of `notify_all` achieves while every other thread goes on. */
module MonitorNotify {
  import opened Basics
  import opened Monitor
  import opened Handoff
  import opened MonitorSteps
  import opened MonitorSafety
  import opened MonitorRuns
  import opened MonitorEntries

  /** `es` takes thread `t` from inside a `notify_one`, or with `all` a `notify_all`, to its return, among other
      threads' steps. */
  ghost predicate Within<T>(s: State<T>, es: seq<Step<T>>, t: Tid, all: bool)
    requires Wf(s) && Possible(s, es) && t < |s.pc|
    decreases |es|
  {
    if es == [] then Ready(s.pc[t])
    else Notifies(s.pc[t]) && s.pc[t].all == all && (WfStep(s, es[0]); Within(Apply(s, es[0]), es[1..], t, all))
  }

  /** How many of the three lists a `notify_all` at `p` has taken. */
  function Taken(p: Pc): nat {
    if p.NSpins? then 0 else if p.NStore? || p.NThreads? then 1 else if p.NUnpark? || p.NTasks? then 2 else 3
  }

  /** A waiter `x` that was registered when the call began, in whichever of the three lists, with
      `regs` registrations of thread `x` by then: once its list is taken it is listed no more, and what entries
      thread `x` has are of registrations made since. */
  ghost predicate Served<T>(s: State<T>, p: Pc, x: nat, spin: bool, thread: bool, task: bool, regs: nat)
    requires Wf(s)
  {
    && (spin ==> (x in s.cond.spins || x in s.hist.taken || x in s.hist.expired)
                 && (Taken(p) > 0 ==> x !in s.cond.spins))
    && (thread ==> x < |s.pc| && regs <= s.hist.regs[x]
                   && (Taken(p) > 1 ==> Entries(s, x) + regs <= s.hist.regs[x]))
    && (task ==> Delivered(x, x in s.rt.fired, x in s.cond.tasks, s.pc, Sends) && x < s.rt.next
                 && (Taken(p) > 2 ==> x !in s.cond.tasks))
  }

  /** A step of thread `t`, inside `notify_all`, that goes on to the next list has emptied this one. */
  ghost predicate Empties<T>(s: State<T>, s': State<T>, t: Tid)
    requires t < |s.pc|
  {
    && |s'.pc| == |s.pc|
    && (Taken(s.pc[t]) == 0 ==> s'.cond.spins == [] && Taken(s'.pc[t]) == 1)
    && (Taken(s.pc[t]) == 1 && Taken(s'.pc[t]) != 1 ==> s'.cond.threads == [] && Taken(s'.pc[t]) == 2)
    && (Taken(s.pc[t]) == 2 && Taken(s'.pc[t]) != 2 ==> s'.cond.tasks == [] && Taken(s'.pc[t]) == 3)
    && (Taken(s.pc[t]) == 3 ==> Taken(s'.pc[t]) == 3)
  }

  lemma TakesList<T>(s: State<T>, t: Tid)
    requires Wf(s) && t < |s.pc| && Notifies(s.pc[t]) && s.pc[t].all
    ensures Empties(s, Advance(s, t), t)
  {
    hide GoAcquire, GoRelease, GoAwait;
  }

  /** Thread `a` moves; `t` is in `notify_all`. */
  lemma ServedKept<T>(s: State<T>, s': State<T>, a: Tid, t: Tid, x: nat,
                      spin: bool, thread: bool, task: bool, regs: nat)
    requires Wf(s) && Wf(s') && t < |s.pc| && Facts(s, s', a, x) && SpinFlag(s, x)
    requires x < |s.pc| ==> EntryFacts(s, s', a, x)
    requires Empties(s, s', t) || s'.pc[t] == s.pc[t]
    requires Served(s, s.pc[t], x, spin, thread, task, regs)
    ensures Served(s', s'.pc[t], x, spin, thread, task, regs)
  {
    if thread {
      EntriesGrow(s, s', a, x);
    }
    if task {
      DeliveredKept(x, x in s.rt.fired, x in s.cond.tasks, s.pc,
                    x in s'.rt.fired, x in s'.cond.tasks, s'.pc, Sends, a);
    }
  }

  lemma ServedStep<T>(s: State<T>, e: Step<T>, t: Tid, x: nat, spin: bool, thread: bool, task: bool, regs: nat)
    requires Inv(s) && Enabled(s, e) && t < |s.pc| && Notifies(s.pc[t]) && s.pc[t].all
    requires Served(s, s.pc[t], x, spin, thread, task, regs)
    ensures Wf(Apply(s, e)) && |Apply(s, e).pc| == |s.pc|
    ensures Served(Apply(s, e), Apply(s, e).pc[t], x, spin, thread, task, regs)
  {
    hide Advance, Apply, Entries, Empties;
    WfStep(s, e);
    assert SpinFlag(s, x);
    if e.Tick? {
      ServedTick(s, e, t, x, spin, thread, task, regs);
    } else {
      SpinsBelow(s);
      StepFacts(s, e, x);
      if x < |s.pc| { StepEntries(s, e, x); }
      NotifierStays(s, e, t);
      ServedKept(s, Apply(s, e), e.t, t, x, spin, thread, task, regs);
    }
  }

  lemma ServedTick<T>(s: State<T>, e: Step<T>, t: Tid, x: nat, spin: bool, thread: bool, task: bool, regs: nat)
    requires Wf(s) && e.Tick? && t < |s.pc| && Served(s, s.pc[t], x, spin, thread, task, regs)
    ensures Wf(Apply(s, e)) && |Apply(s, e).pc| == |s.pc|
    ensures Served(Apply(s, e), Apply(s, e).pc[t], x, spin, thread, task, regs)
  {
    hide Advance;
  }

  /** The notifier takes its next list, or is left alone. */
  lemma NotifierStays<T>(s: State<T>, e: Step<T>, t: Tid)
    requires Wf(s) && Enabled(s, e) && !e.Tick? && t < |s.pc| && Notifies(s.pc[t]) && s.pc[t].all
    requires Wf(Apply(s, e)) && |Apply(s, e).pc| == |s.pc| && Bounded(s, Apply(s, e), e.t)
    ensures Empties(s, Apply(s, e), t) || Apply(s, e).pc[t] == s.pc[t]
  {
    hide Advance;
    if e.t == t && e.Go? {
      TakesList(s, t);
    }
  }

  lemma {:induction false} ServedRun<T>(s: State<T>, es: seq<Step<T>>, t: Tid, x: nat,
                                        spin: bool, thread: bool, task: bool, regs: nat)
    requires Inv(s) && Possible(s, es) && t < |s.pc| && Within(s, es, t, true)
    requires Served(s, s.pc[t], x, spin, thread, task, regs)
    ensures var s' := Exec(s, es); Ready(s'.pc[t]) && Served(s', s'.pc[t], x, spin, thread, task, regs)
    decreases |es|
  {
    hide Apply;
    if es != [] {
      InvStep(s, es[0]);
      WfStep(s, es[0]);
      ServedStep(s, es[0], t, x, spin, thread, task, regs);
      ServedRun(Apply(s, es[0]), es[1..], t, x, spin, thread, task, regs);
    }
  }

  /** When `notify_all` returns, no spin flag listed at its start is still listed: each was stored, or
      withdrawn by its own waiter at a timeout, or another notifier took it and is about to store it. */
  lemma NotifyAllSpins<T>(s: State<T>, es: seq<Step<T>>, t: Tid, x: Sig)
    requires Inv(s) && Possible(s, es) && t < |s.pc| && s.pc[t].NSpins? && Within(s, es, t, true)
    requires x in s.cond.spins
    ensures var s' := Exec(s, es);
            && x !in s'.cond.spins
            && (x in s'.rt.flags || x in s'.hist.expired
                || exists u :: 0 <= u < |s'.pc| && u != t && x in Stores(s'.pc[u]))
  {
    hide Apply, Within, Possible, Exec;
    ServedRun(s, es, t, x, true, false, false, 0);
    InvRun(s, es);
    var s' := Exec(s, es);
    assert SpinFlag(s', x);
    if x in s'.hist.taken && x !in s'.rt.flags {
      var u :| 0 <= u < |s'.pc| && x in Stores(s'.pc[u]);
      assert u != t;
    }
  }

  /** No entry of any thread from before the call is left when it returns: the entries a thread has then are of
      registrations it made since. A thread still in the wait it was in has its token, or another thread is about
      to unpark it. */
  lemma NotifyAllThreads<T>(s: State<T>, es: seq<Step<T>>, t: Tid, x: Tid)
    requires Inv(s) && Possible(s, es) && t < |s.pc| && s.pc[t].NSpins? && Within(s, es, t, true) && x < |s.pc|
    ensures var s' := Exec(s, es);
            && s.hist.regs[x] <= s'.hist.regs[x]
            && multiset(s'.cond.threads)[x] <= s'.hist.regs[x] - s.hist.regs[x]
            && (s'.hist.regs[x] == s.hist.regs[x]
                ==> && x !in s'.cond.threads
                    && (Armed(s'.pc[x]) && !s'.rt.token[x]
                        ==> exists u :: 0 <= u < |s'.pc| && u != t && x in Unparks(s'.pc[u])))
  {
    hide Apply, Within, Possible, Exec;
    ServedRun(s, es, t, x, false, true, false, s.hist.regs[x]);
    InvRun(s, es);
    var s' := Exec(s, es);
    if s'.hist.regs[x] == s.hist.regs[x] {
      EntriesIn(s', x);
      if Armed(s'.pc[x]) && !s'.rt.token[x] {
        assert WaiterReachable(s', x);
        var u :| 0 <= u < |s'.pc| && x in Unparks(s'.pc[u]);
        assert u != t;
      }
    }
  }

  /** No continuation listed at its start is still listed; each was sent, or another thread is about
      to send it. */
  lemma NotifyAllTasks<T>(s: State<T>, es: seq<Step<T>>, t: Tid, x: Sig)
    requires Inv(s) && Possible(s, es) && t < |s.pc| && s.pc[t].NSpins? && Within(s, es, t, true)
    requires x in s.cond.tasks
    ensures var s' := Exec(s, es);
            && x !in s'.cond.tasks
            && (x in s'.rt.fired || exists u :: 0 <= u < |s'.pc| && u != t && x in Sends(s'.pc[u]))
  {
    hide Apply, Within, Possible, Exec;
    assert CvTaskReachable(s, x);
    ServedRun(s, es, t, x, false, false, true, 0);
    var s' := Exec(s, es);
    if x !in s'.rt.fired {
      var u :| 0 <= u < |s'.pc| && x in Sends(s'.pc[u]);
      assert u != t;
    }
  }
}
