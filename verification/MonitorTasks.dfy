/** Continuations of asynchronous waits: a listed one is unsent and has its one waiter. */
module MonitorTasks {
  import opened Basics
  import opened Monitor
  import opened MonitorSteps

  ghost predicate TaskWaited<T>(s: State<T>, x: Sig) {
    exists u :: 0 <= u < |s.pc| && TaskWaits(s.pc[u], x)
  }

  ghost predicate Named<T>(s: State<T>, x: Sig) {
    x in s.cond.tasks || x in s.lock.tasks || x in s.rt.fired
    || exists u :: 0 <= u < |s.pc| && (x in Sends(s.pc[u]) || TaskWaits(s.pc[u], x))
  }

  ghost predicate Entry<T>(s: State<T>, x: Sig) {
    && (Named(s, x) ==> x < s.rt.next)
    && (forall u, v :: 0 <= u < |s.pc| && 0 <= v < |s.pc| && TaskWaits(s.pc[u], x) && TaskWaits(s.pc[v], x) ==> u == v)
    && (x in s.cond.tasks
        ==> && x !in s.lock.tasks && x !in s.rt.fired && TaskWaited(s, x)
            && forall u :: 0 <= u < |s.pc| ==> x !in Sends(s.pc[u]))
  }

  ghost predicate TaskInv<T>(s: State<T>) {
    Wf(s) && NoDup(s.cond.tasks) && forall x :: Entry(s, x)
  }

  /** Continuation `x`: where it is listed, who has yet to send it, who waits for it. */
  ghost predicate TaskFacts<T>(s: State<T>, s': State<T>, t: Tid, x: Sig)
    requires t < |s.pc| && t < |s'.pc|
  {
    TaskListFacts(s, s', t, x) && TaskSendFacts(s, s', t, x)
  }

  ghost predicate TaskListFacts<T>(s: State<T>, s': State<T>, t: Tid, x: Sig)
    requires t < |s.pc| && t < |s'.pc|
  {
    && s.rt.next <= s'.rt.next
    && (x in s'.cond.tasks && x !in s.cond.tasks
        ==> x == s.rt.next < s'.rt.next && TaskWaits(s'.pc[t], x) && s'.lock.tasks == s.lock.tasks
            && s'.rt.fired == s.rt.fired && Sends(s'.pc[t]) == Sends(s.pc[t]))
    && (x in s'.lock.tasks && x !in s.lock.tasks
        ==> x == s.rt.next < s'.rt.next && s'.cond.tasks == s.cond.tasks)
  }

  ghost predicate TaskSendFacts<T>(s: State<T>, s': State<T>, t: Tid, x: Sig)
    requires t < |s.pc| && t < |s'.pc|
  {
    && (x in Sends(s'.pc[t]) && x !in Sends(s.pc[t])
        ==> x in s.lock.tasks || (x in s.cond.tasks && x !in s'.cond.tasks))
    && (x in s'.rt.fired && x !in s.rt.fired
        ==> x in Sends(s.pc[t]) || (x in s.cond.tasks && x !in s'.cond.tasks))
    && (TaskWaits(s'.pc[t], x) && !TaskWaits(s.pc[t], x) ==> x == s.rt.next < s'.rt.next)
    && (TaskWaits(s.pc[t], x) && !TaskWaits(s'.pc[t], x) ==> x in s.rt.fired || x !in s'.cond.tasks)
  }

  lemma AcquireTaskFacts<T>(s: State<T>, t: Tid, x: Sig)
    requires Wf(s) && t < |s.pc| && CanGo(s, t) && Acquires(s.pc[t])
    ensures var s' := GoAcquire(s, t); |s'.pc| == |s.pc| && TaskFacts(s, s', t, x) && s'.cond == s.cond
  {
  }

  lemma ReleaseTaskFacts<T>(s: State<T>, t: Tid, x: Sig)
    requires Wf(s) && t < |s.pc| && Releases(s.pc[t])
    ensures var s' := GoRelease(s, t); |s'.pc| == |s.pc| && TaskFacts(s, s', t, x) && s'.cond == s.cond
  {
  }

  lemma AwaitTaskList<T>(s: State<T>, t: Tid, x: Sig)
    requires Wf(s) && t < |s.pc| && CanGo(s, t) && Awaits(s.pc[t]) && NoDup(s.cond.tasks)
    ensures var s' := GoAwait(s, t); |s'.pc| == |s.pc| && TaskListFacts(s, s', t, x) && NoDup(s'.cond.tasks)
  {
    if s.pc[t].CvTaskRemove? && s.pc[t].id in s.cond.tasks {
      WithoutFacts(s.cond.tasks, s.pc[t].id);
    }
  }

  lemma AwaitTaskSend<T>(s: State<T>, t: Tid, x: Sig)
    requires Wf(s) && t < |s.pc| && CanGo(s, t) && Awaits(s.pc[t]) && NoDup(s.cond.tasks)
    ensures var s' := GoAwait(s, t); |s'.pc| == |s.pc| && TaskSendFacts(s, s', t, x)
  {
    if !s.pc[t].CvTaskRemove? {
      AwaitBefore(s, t);
      AwaitKeepsTask(s, t, x);
    } else if s.pc[t].id in s.cond.tasks {
      WithoutFacts(s.cond.tasks, s.pc[t].id);
    }
  }

  lemma AwaitBefore<T>(s: State<T>, t: Tid)
    requires Wf(s) && t < |s.pc| && CanGo(s, t) && Awaits(s.pc[t]) && !s.pc[t].CvTaskRemove?
    ensures var s' := GoAwait(s, t);
            && |s'.pc| == |s.pc| && Sends(s'.pc[t]) == [] && s'.rt.fired == s.rt.fired
            && s'.cond.tasks == s.cond.tasks && s'.rt.next == s.rt.next
  {
    hide Without, IndexOf;
  }

  lemma AwaitKeepsTask<T>(s: State<T>, t: Tid, x: Sig)
    requires Wf(s) && t < |s.pc| && CanGo(s, t) && Awaits(s.pc[t]) && !s.pc[t].CvTaskRemove?
    ensures var s' := GoAwait(s, t);
            |s'.pc| == |s.pc| && (TaskWaits(s'.pc[t], x) == TaskWaits(s.pc[t], x) || x in s.rt.fired)
  {
    hide Without, IndexOf;
  }

  lemma NotifyTaskList<T>(s: State<T>, t: Tid, x: Sig)
    requires Wf(s) && t < |s.pc| && Notifies(s.pc[t]) && NoDup(s.cond.tasks)
    ensures var s' := GoNotify(s, t); |s'.pc| == |s.pc| && TaskListFacts(s, s', t, x) && NoDup(s'.cond.tasks)
  {
  }

  lemma NotifyTaskSend<T>(s: State<T>, t: Tid, x: Sig)
    requires Wf(s) && t < |s.pc| && Notifies(s.pc[t]) && !s.pc[t].NTasks?
    ensures var s' := GoNotify(s, t); |s'.pc| == |s.pc| && TaskSendFacts(s, s', t, x)
  {
    if !s.pc[t].NSend? {
      NotifyBefore(s, t);
    }
  }

  lemma NotifyBefore<T>(s: State<T>, t: Tid)
    requires Wf(s) && t < |s.pc| && Notifies(s.pc[t]) && !s.pc[t].NTasks? && !s.pc[t].NSend?
    ensures var s' := GoNotify(s, t);
            && |s'.pc| == |s.pc| && Sends(s'.pc[t]) == [] && s'.rt.fired == s.rt.fired && Pending(s'.pc[t]).None?
            && s'.cond.tasks == s.cond.tasks && s'.rt.next == s.rt.next
  {
  }

  lemma NotifyTaskTake<T>(s: State<T>, t: Tid, x: Sig)
    requires Wf(s) && t < |s.pc| && s.pc[t].NTasks? && NoDup(s.cond.tasks)
    ensures var s' := GoNotify(s, t); |s'.pc| == |s.pc| && TaskSendFacts(s, s', t, x)
  {
  }

  lemma CallTaskFacts<T>(s: State<T>, e: Step<T>, x: Sig)
    requires Wf(s) && Enabled(s, e) && !e.Go? && !e.Tick?
    requires NoDup(s.cond.tasks) && Below(s.cond.tasks, s.rt.next)
    ensures var s' := Apply(s, e); |s'.pc| == |s.pc| && TaskFacts(s, s', e.t, x) && NoDup(s'.cond.tasks)
  {
    hide Advance, Register;
    if e.Wait? {
      RegisterTaskFacts(s, e.t, e.req, x);
    }
  }

  lemma RegisterTaskFacts<T>(s: State<T>, t: Tid, req: Request, x: Sig)
    requires Wf(s) && t < |s.pc| && s.pc[t].In?
    requires NoDup(s.cond.tasks) && Below(s.cond.tasks, s.rt.next)
    ensures var s' := Register(s, t, req); |s'.pc| == |s.pc| && TaskFacts(s, s', t, x) && NoDup(s'.cond.tasks)
  {
  }

  lemma StepTaskFacts<T>(s: State<T>, e: Step<T>, x: Sig)
    requires Wf(s) && Enabled(s, e) && !e.Tick?
    requires NoDup(s.cond.tasks) && Below(s.cond.tasks, s.rt.next)
    ensures var s' := Apply(s, e); |s'.pc| == |s.pc| && TaskFacts(s, s', e.t, x) && NoDup(s'.cond.tasks)
  {
    hide GoAcquire, GoRelease, GoAwait, GoNotify;
    if !e.Go? {
      CallTaskFacts(s, e, x);
    } else if Acquires(s.pc[e.t]) {
      AcquireTaskFacts(s, e.t, x);
    } else if Releases(s.pc[e.t]) {
      ReleaseTaskFacts(s, e.t, x);
    } else if Awaits(s.pc[e.t]) {
      AwaitTaskList(s, e.t, x);
      AwaitTaskSend(s, e.t, x);
    } else {
      NotifyTaskList(s, e.t, x);
      if s.pc[e.t].NTasks? {
        NotifyTaskTake(s, e.t, x);
      } else {
        NotifyTaskSend(s, e.t, x);
      }
    }
  }

  lemma EntryKept<T>(s: State<T>, s': State<T>, t: Tid, x: Sig)
    requires Bounded(s, s', t) && TaskFacts(s, s', t, x) && Entry(s, x)
    ensures Entry(s', x)
  {
    if Named(s', x) && !Named(s, x) {
      assert x == s.rt.next < s'.rt.next;
    }
    if x in s'.cond.tasks {
      if x in s.cond.tasks {
        var u :| 0 <= u < |s.pc| && TaskWaits(s.pc[u], x);
        assert TaskWaits(s'.pc[u], x);
      } else {
        assert !Named(s, x);
        assert TaskWaits(s'.pc[t], x);
      }
    }
  }

  lemma TaskStep<T>(s: State<T>, e: Step<T>)
    requires TaskInv(s) && Enabled(s, e)
    ensures TaskInv(Apply(s, e))
  {
    hide Apply;
    WfStep(s, e);
    forall i | 0 <= i < |s.cond.tasks|
      ensures s.cond.tasks[i] < s.rt.next
    {
      assert Entry(s, s.cond.tasks[i]) && Named(s, s.cond.tasks[i]);
    }
    if e.Tick? {
      TickTasks(s, e);
    } else {
      StepBounded(s, e);
      StepTaskFacts(s, e, 0);
      forall x: nat
        ensures Entry(Apply(s, e), x)
      {
        assert Entry(s, x);
        StepTaskFacts(s, e, x);
        EntryKept(s, Apply(s, e), e.t, x);
      }
    }
  }

  lemma TickTasks<T>(s: State<T>, e: Step<T>)
    requires TaskInv(s) && e.Tick?
    ensures TaskInv(Apply(s, e))
  {
    var s' := Apply(s, e);
    forall x: nat
      ensures Entry(s', x)
    {
      assert Entry(s, x) && (Named(s', x) ==> Named(s, x)) && (TaskWaited(s, x) ==> TaskWaited(s', x));
    }
  }

  lemma NoTasks<T>(n: nat, value: T)
    ensures TaskInv(Monitor.Init(n, value))
  {
  }
}
