/** What one thread's own actions come to when no other thread moves: the release of the mutex, a
    re-acquisition of a free lock, and notifications. Runs built of these are the witnesses of what can happen. */
module MonitorOwn {
  import opened Basics
  import opened Monitor
  import opened MonitorSteps
  import opened MonitorRuns

  /** Only next actions of thread `t`. */
  predicate OwnOnly<T>(es: seq<Step<T>>, t: Tid) {
    forall i :: 0 <= i < |es| ==> es[i] == Go(t)
  }

  lemma OneStep<T>(s: State<T>, e: Step<T>)
    requires Wf(s) && Enabled(s, e)
    ensures Possible(s, [e]) && Exec(s, [e]) == Apply(s, e)
  {
    hide Apply, Enabled;
    WfStep(s, e);
    assert [e][1..] == [];
  }

  /** `s'` is `s` after thread `t`'s whole release from where it is: the lock is free and its lists are empty;
      of the tokens and continuations only those listed, or already taken by `t`, are new. */
  ghost predicate Released<T>(s: State<T>, s': State<T>, t: Tid)
    requires t < |s.pc| && Releases(s.pc[t])
  {
    && s'.pc == s.pc[t := Proceed(s.pc[t].after)]
    && s'.cond == s.cond && s'.hist == s.hist && s'.rt.clock == s.rt.clock && s'.rt.next == s.rt.next
    && s'.rt.flags == s.rt.flags && s'.lock.value == s.lock.value
    && s'.lock.held == (s.lock.held && !s.pc[t].Release?)
    && |s'.rt.token| == |s.rt.token|
    && (forall x :: 0 <= x < |s.rt.token| && s'.rt.token[x]
                    ==> s.rt.token[x] || x in Unparks(s.pc[t]) || x in s.lock.threads)
    && (forall x :: x in s'.rt.fired ==> x in s.rt.fired || x in Sends(s.pc[t]) || x in s.lock.tasks)
  }

  /** Actions to the end of the release. */
  function ToGo<T>(s: State<T>, t: Tid): nat
    requires t < |s.pc| && Releases(s.pc[t])
  {
    match s.pc[t]
    case Release(_) => 5 + |s.lock.threads| + |s.lock.tasks|
    case TakeThreads(_) => 4 + |s.lock.threads| + |s.lock.tasks|
    case WakeThreads(ws, _) => 3 + |ws| + |s.lock.tasks|
    case TakeTasks(_) => 2 + |s.lock.tasks|
    case WakeTasks(gs, _) => 1 + |gs|
  }

  /** One action of the release: the last, or one that leaves the rest of it the same. */
  ghost predicate ReleaseFacts<T>(s: State<T>, s': State<T>, t: Tid)
    requires t < |s.pc| && Releases(s.pc[t])
  {
    && |s'.pc| == |s.pc| && s'.pc == s.pc[t := s'.pc[t]]
    && s'.cond == s.cond && s'.hist == s.hist && s'.rt.clock == s.rt.clock && s'.rt.next == s.rt.next
    && s'.rt.flags == s.rt.flags && s'.lock.value == s.lock.value
    && s'.lock.held == (s.lock.held && !s.pc[t].Release?)
    && |s'.rt.token| == |s.rt.token|
    && (forall x :: 0 <= x < |s.rt.token| && s'.rt.token[x] ==> s.rt.token[x] || x in Unparks(s.pc[t]))
    && (forall x :: x in s'.rt.fired ==> x in s.rt.fired || x in Sends(s.pc[t]))
    && (if Releases(s'.pc[t])
        then && s'.pc[t].after == s.pc[t].after && !s'.pc[t].Release? && ToGo(s', t) < ToGo(s, t)
             && (forall x :: x in s'.lock.threads ==> x in s.lock.threads)
             && (forall x :: x in s'.lock.tasks ==> x in s.lock.tasks)
             && (forall x :: x in Unparks(s'.pc[t]) ==> x in Unparks(s.pc[t]) || x in s.lock.threads)
             && (forall x :: x in Sends(s'.pc[t]) ==> x in Sends(s.pc[t]) || x in s.lock.tasks)
        else s'.pc[t] == Proceed(s.pc[t].after))
  }

  lemma ReleaseStep<T>(s: State<T>, t: Tid)
    requires Wf(s) && t < |s.pc| && Releases(s.pc[t])
    ensures ReleaseFacts(s, GoRelease(s, t), t)
  {
  }

  /** Alone, a release runs to its end. */
  lemma {:induction false} FinishRelease<T>(s: State<T>, t: Tid) returns (es: seq<Step<T>>)
    requires Wf(s) && t < |s.pc| && Releases(s.pc[t])
    ensures Possible(s, es) && OwnOnly(es, t) && Released(s, Exec(s, es), t)
    decreases ToGo(s, t)
  {
    hide GoRelease, Wf, Proceed;
    var s1 := GoRelease(s, t);
    ReleaseStep(s, t);
    OneStep(s, Go(t));
    assert Enabled(s, Go(t)) && Apply(s, Go(t)) == s1;
    if Releases(s1.pc[t]) {
      var rest := FinishRelease(s1, t);
      es := [Go(t)] + rest;
      ExecConcat(s, [Go(t)], rest);
    } else {
      es := [Go(t)];
    }
  }

  // ------------------------------------------------------------ notify_one

  /** From where `es` leads, thread `u`'s next action in a notification leads on. */
  lemma Goes<T>(s: State<T>, es: seq<Step<T>>, u: Tid) returns (more: seq<Step<T>>)
    requires Wf(s) && Possible(s, es) && OwnOnly(es, u)
    requires u < |Exec(s, es).pc| && Notifies(Exec(s, es).pc[u])
    ensures Possible(s, more) && OwnOnly(more, u) && Exec(s, more) == GoNotify(Exec(s, es), u)
    ensures Wf(GoNotify(Exec(s, es), u)) && |GoNotify(Exec(s, es), u).pc| == |s.pc|
  {
    hide GoNotify, GoAcquire, GoRelease, GoAwait;
    ExecSnoc(s, es, Go(u));
    more := es + [Go(u)];
  }

  /** `s` after thread `u`'s `notify_one` from its start: it took the spin flag registered last. */
  function AfterSpin<T>(s: State<T>, u: Tid): State<T>
    requires u < |s.pc| && s.cond.spins != []
  {
    var x := Last(s.cond.spins);
    At(s, u, Out).(cond := s.cond.(spins := s.cond.spins[..|s.cond.spins| - 1]),
                   rt := s.rt.(flags := s.rt.flags + {x}), hist := s.hist.(taken := s.hist.taken + {x}))
  }

  /** The same when no flag is listed: it took the thread registered last. */
  function AfterThread<T>(s: State<T>, u: Tid): State<T>
    requires Wf(s) && u < |s.pc| && s.cond.threads != []
  {
    var x := Last(s.cond.threads);
    At(s, u, Out).(cond := s.cond.(threads := s.cond.threads[..|s.cond.threads| - 1]),
                   rt := s.rt.(token := s.rt.token[x := true]),
                   hist := s.hist.(popped := s.hist.popped[x := true], pops := s.hist.pops + 1))
  }

  /** `notify_one` looks at the spin flags. */
  lemma PopsSpin<T>(s: State<T>, u: Tid)
    requires Wf(s) && u < |s.pc| && s.pc[u] == NSpins(false, false)
    ensures s.cond.spins == [] ==> GoNotify(s, u) == At(s, u, NThreads(false, false))
    ensures s.cond.spins != []
            ==> var x := Last(s.cond.spins);
                GoNotify(s, u) == At(s, u, NStore([x], false, false))
                  .(cond := s.cond.(spins := s.cond.spins[..|s.cond.spins| - 1]),
                    hist := s.hist.(taken := s.hist.taken + {x}))
  {
  }

  /** It signals the one it took. */
  lemma GivesSignal<T>(s: State<T>, u: Tid, x: nat)
    requires Wf(s) && u < |s.pc|
    ensures s.pc[u] == NStore([x], false, false)
            ==> GoNotify(s, u) == At(s, u, NStore([], false, false)).(rt := s.rt.(flags := s.rt.flags + {x}))
    ensures s.pc[u] == NUnpark([x], false, false)
            ==> x < |s.rt.token|
                && GoNotify(s, u) == At(s, u, NUnpark([], false, false)).(rt := s.rt.(token := s.rt.token[x := true]))
  {
    assert [x][1..] == [];
    assert s.pc[u] == NUnpark([x], false, false) ==> Unparks(s.pc[u])[0] == x;
  }

  lemma Leaves<T>(s: State<T>, u: Tid)
    requires Wf(s) && u < |s.pc| && (s.pc[u] == NStore([], false, false) || s.pc[u] == NUnpark([], false, false))
    ensures GoNotify(s, u) == At(s, u, Out)
  {
  }

  lemma TakesSpin<T>(s: State<T>, u: Tid) returns (es: seq<Step<T>>)
    requires Wf(s) && u < |s.pc| && s.pc[u] == NSpins(false, false) && s.cond.spins != []
    ensures Possible(s, es) && OwnOnly(es, u) && Exec(s, es) == AfterSpin(s, u)
  {
    hide GoNotify, Possible, Exec, Wf;
    EmptyRun(s);
    PopsSpin(s, u);
    es := Goes(s, [], u);
    GivesSignal(Exec(s, es), u, Last(s.cond.spins));
    es := Goes(s, es, u);
    Leaves(Exec(s, es), u);
    es := Goes(s, es, u);
  }

  lemma TakesThread<T>(s: State<T>, u: Tid) returns (es: seq<Step<T>>)
    requires Wf(s) && u < |s.pc| && s.pc[u] == NSpins(false, false) && s.cond.spins == [] && s.cond.threads != []
    ensures Possible(s, es) && OwnOnly(es, u) && Exec(s, es) == AfterThread(s, u)
  {
    hide GoNotify, Possible, Exec;
    EmptyRun(s);
    PopsSpin(s, u);
    es := Goes(s, [], u);
    var s1 := Exec(s, es);
    var more := TakesListed(s1, u);
    ExecConcat(s, es, more);
    es := es + more;
  }

  lemma TakesListed<T>(s: State<T>, u: Tid) returns (es: seq<Step<T>>)
    requires Wf(s) && u < |s.pc| && s.pc[u] == NThreads(false, false) && s.cond.threads != []
    ensures Possible(s, es) && OwnOnly(es, u) && Exec(s, es) == AfterThread(s, u)
  {
    hide GoNotify, Possible, Exec;
    EmptyRun(s);
    PopsThread(s, u);
    es := Goes(s, [], u);
    GivesSignal(Exec(s, es), u, Last(s.cond.threads));
    es := Goes(s, es, u);
    Leaves(Exec(s, es), u);
    es := Goes(s, es, u);
  }

  /** `notify_one` looks at the threads. */
  lemma PopsThread<T>(s: State<T>, u: Tid)
    requires Wf(s) && u < |s.pc| && s.pc[u] == NThreads(false, false) && s.cond.threads != []
    ensures var x := Last(s.cond.threads);
            x < |s.hist.popped| && GoNotify(s, u) == At(s, u, NUnpark([x], false, false))
              .(cond := s.cond.(threads := s.cond.threads[..|s.cond.threads| - 1]),
                hist := s.hist.(popped := s.hist.popped[x := true], pops := s.hist.pops + 1))
  {
  }

  /** Only steps of thread `u`. */
  predicate By<T>(es: seq<Step<T>>, u: Tid) {
    forall i :: 0 <= i < |es| ==> IsBy(es[i], u)
  }

  /** `s'` is `s` after notifications of a thread that is outside again: lock, threads listed and their marks are
      as they were. */
  ghost predicate Beside<T>(s: State<T>, s': State<T>) {
    && s'.pc == s.pc && s'.lock == s.lock && s'.rt.clock == s.rt.clock
    && s'.cond.threads == s.cond.threads && s'.hist.popped == s.hist.popped
  }

  /** As many calls of `notify_one` as there are spin flags. */
  lemma {:induction false} DrainsSpins<T>(s: State<T>, u: Tid) returns (es: seq<Step<T>>)
    requires Wf(s) && u < |s.pc| && s.pc[u].Out?
    ensures Possible(s, es) && By(es, u) && Beside(s, Exec(s, es)) && Exec(s, es).cond.spins == []
    decreases |s.cond.spins|
  {
    hide Possible, Exec, Wf, Apply, Enabled;
    EmptyRun(s);
    es := [];
    if s.cond.spins != [] {
      var begin := Notify(u, false);
      Begins(s, u);
      OneStep(s, begin);
      var s1 := Apply(s, begin);
      var one := TakesSpin(s1, u);
      ExecConcat(s, [begin], one);
      var s2 := Exec(s1, one);
      assert s2.pc == s.pc;
      var rest := DrainsSpins(s2, u);
      ExecConcat(s, [begin] + one, rest);
      es := [begin] + one + rest;
    }
  }

  lemma Begins<T>(s: State<T>, u: Tid)
    requires Wf(s) && u < |s.pc| && s.pc[u].Out?
    ensures Enabled(s, Notify(u, false)) && Apply(s, Notify(u, false)) == At(s, u, NSpins(false, false))
    ensures Wf(At(s, u, NSpins(false, false)))
  {
  }

  /** A thread that is outside takes the entry made last, once it has taken all spin flags. */
  lemma NotifiesThread<T>(s: State<T>, u: Tid) returns (es: seq<Step<T>>)
    requires Wf(s) && u < |s.pc| && s.pc[u].Out? && s.cond.threads != []
    ensures Possible(s, es) && By(es, u)
    ensures var s' := Exec(s, es);
            var x := Last(s.cond.threads);
            && x < |s.hist.popped| && s'.pc == s.pc && s'.lock == s.lock && s'.rt.clock == s.rt.clock
            && s'.cond.threads == s.cond.threads[..|s.cond.threads| - 1]
            && s'.hist.popped == s.hist.popped[x := true]
  {
    hide Possible, Exec, Wf, Apply, Enabled;
    var drain := DrainsSpins(s, u);
    var s1 := Exec(s, drain);
    Begins(s1, u);
    var begin := Notify(u, false);
    OneStep(s1, begin);
    var s2 := Apply(s1, begin);
    var take := TakesThread(s2, u);
    ListedBelow(s2);
    assert Exec(s2, take).pc == s.pc;
    ExecConcat(s, drain, [begin]);
    ExecConcat(s, drain + [begin], take);
    es := drain + [begin] + take;
  }

  lemma ListedBelow<T>(s: State<T>)
    requires Wf(s)
    ensures s.cond.threads != [] ==> Last(s.cond.threads) < |s.pc| == |s.hist.popped|
  {
  }

  // ------------------------------------------------------------ notify_all

  /** `s'` is `s` after thread `t`'s whole `notify_all` from where it is. */
  ghost predicate Told<T>(s: State<T>, s': State<T>, t: Tid)
    requires t < |s.pc| && Notifies(s.pc[t])
  {
    && s'.pc == s.pc[t := Return(s.pc[t].inside)] && s'.lock == s.lock && s'.rt.clock == s.rt.clock
    && |s'.rt.token| == |s.rt.token|
    && forall x :: 0 <= x < |s.rt.token| && s'.rt.token[x]
                   ==> s.rt.token[x] || x in Unparks(s.pc[t]) || x in s.cond.threads
  }

  /** Actions to its end. */
  function ToTell<T>(s: State<T>, t: Tid): nat
    requires t < |s.pc| && Notifies(s.pc[t])
  {
    var n, k := |s.cond.threads|, |s.cond.tasks|;
    match s.pc[t]
    case NSpins(_, _) => 6 + |s.cond.spins| + n + k
    case NStore(ids, _, _) => 5 + |ids| + n + k
    case NThreads(_, _) => 4 + n + k
    case NUnpark(ws, _, _) => 3 + |ws| + k
    case NTasks(_, _) => 2 + k
    case NSend(gs, _, _) => 1 + |gs|
  }

  /** One action of it: the last, or one that leaves the rest of it the same. */
  ghost predicate TellFacts<T>(s: State<T>, s': State<T>, t: Tid)
    requires t < |s.pc| && Notifies(s.pc[t])
  {
    && |s'.pc| == |s.pc| && s'.pc == s.pc[t := s'.pc[t]] && s'.lock == s.lock && s'.rt.clock == s.rt.clock
    && |s'.rt.token| == |s.rt.token|
    && (forall x :: 0 <= x < |s.rt.token| && s'.rt.token[x] ==> s.rt.token[x] || x in Unparks(s.pc[t]))
    && (if Notifies(s'.pc[t])
        then && s'.pc[t].all && s'.pc[t].inside == s.pc[t].inside && ToTell(s', t) < ToTell(s, t)
             && (forall x :: x in s'.cond.threads ==> x in s.cond.threads)
             && (forall x :: x in Unparks(s'.pc[t]) ==> x in Unparks(s.pc[t]) || x in s.cond.threads)
        else s'.pc[t] == Return(s.pc[t].inside))
  }

  lemma TellStep<T>(s: State<T>, t: Tid)
    requires Wf(s) && t < |s.pc| && Notifies(s.pc[t]) && s.pc[t].all
    ensures TellFacts(s, GoNotify(s, t), t)
  {
  }

  /** Alone, a `notify_all` runs to its end. */
  lemma {:induction false} FinishTelling<T>(s: State<T>, t: Tid) returns (es: seq<Step<T>>)
    requires Wf(s) && t < |s.pc| && Notifies(s.pc[t]) && s.pc[t].all
    ensures Possible(s, es) && OwnOnly(es, t) && Told(s, Exec(s, es), t)
    decreases ToTell(s, t)
  {
    hide GoNotify, Wf;
    EmptyRun(s);
    var one := Goes(s, [], t);
    var s1 := Exec(s, one);
    TellStep(s, t);
    es := one;
    if Notifies(s1.pc[t]) {
      var rest := FinishTelling(s1, t);
      ExecConcat(s, one, rest);
      es := one + rest;
    }
  }

  // ------------------------------------------------------------ a wait that times out

  /** Next actions of thread `t`, and the clock. */
  predicate OwnOrClock<T>(es: seq<Step<T>>, t: Tid) {
    forall i :: 0 <= i < |es| ==> es[i] == Go(t) || es[i].Tick?
  }

  /** `es` passes the deadline, and thread `t`'s wait returns with the lock and reports a timeout. */
  ghost predicate TimesOut<T>(s: State<T>, t: Tid, es: seq<Step<T>>)
    requires Wf(s) && t < |s.pc|
  {
    && Possible(s, es) && OwnOrClock(es, t)
    && var s' := Exec(s, es); s'.pc == s.pc[t := In(Waited(true))] && s'.lock.value == s.lock.value
  }

  /** The clock passes `limit`. */
  lemma Later<T>(s: State<T>, limit: nat) returns (s1: State<T>, es: seq<Step<T>>)
    requires Wf(s)
    ensures s1 == s.(rt := s.rt.(clock := s.rt.clock + limit)) && Wf(s1)
    ensures Possible(s, es) && Exec(s, es) == s1 && forall t :: OwnOrClock(es, t)
  {
    var tick: Step<T> := Tick(limit);
    OneStep(s, tick);
    s1, es := Apply(s, tick), [tick];
  }

  /** Thread `t` itself goes on. */
  lemma GoesOn<T>(s: State<T>, es: seq<Step<T>>, t: Tid) returns (more: seq<Step<T>>)
    requires Wf(s) && Possible(s, es) && OwnOrClock(es, t)
    requires t < |Exec(s, es).pc| && CanGo(Exec(s, es), t)
    ensures Possible(s, more) && OwnOrClock(more, t) && Exec(s, more) == Advance(Exec(s, es), t)
    ensures Wf(Advance(Exec(s, es), t)) && |Advance(Exec(s, es), t).pc| == |s.pc|
  {
    hide Advance;
    ExecSnoc(s, es, Go(t));
    more := es + [Go(t)];
  }

  /** A blocked wait whose thread is listed. */
  lemma ExpiresListed<T>(s: State<T>, t: Tid, limit: nat, sync: Sync) returns (es: seq<Step<T>>)
    requires Wf(s) && t < |s.pc| && s.pc[t] == CvClock(limit, sync) && !s.lock.held && t in s.cond.threads
    ensures TimesOut(s, t, es) && Exec(s, es).hist == s.hist
  {
    hide GoRelease, GoNotify, Possible, Exec, Wf, Without, IndexOf;
    var s1;
    s1, es := Later(s, limit);
    es := GoesOn(s, es, t);
    es := GoesOn(s, es, t);
    es := GoesOn(s, es, t);
  }

  /** A spinning wait whose flag is listed and not stored. */
  lemma ExpiresSpinning<T>(s: State<T>, t: Tid, id: Sig, limit: nat, sync: Sync) returns (es: seq<Step<T>>)
    requires Wf(s) && t < |s.pc| && s.pc[t] == CvSpin(id, Some(limit), sync) && !s.lock.held
    requires id in s.cond.spins && id !in s.rt.flags
    ensures TimesOut(s, t, es)
  {
    hide GoRelease, GoNotify, Possible, Exec, Wf, Without, IndexOf;
    var s1;
    s1, es := Later(s, limit);
    es := GoesOn(s, es, t);
    es := GoesOn(s, es, t);
    es := GoesOn(s, es, t);
    es := GoesOn(s, es, t);
  }

  /** An asynchronous wait whose continuation is not sent. */
  lemma ExpiresTask<T>(s: State<T>, t: Tid, id: Sig, limit: nat) returns (es: seq<Step<T>>)
    requires Wf(s) && t < |s.pc| && s.pc[t] == CvPoll(id, Some(limit)) && !s.lock.held && id !in s.rt.fired
    ensures TimesOut(s, t, es)
  {
    hide GoRelease, GoNotify, Possible, Exec, Wf, Without, IndexOf;
    var s1;
    s1, es := Later(s, limit);
    es := GoesOn(s, es, t);
    es := GoesOn(s, es, t);
    es := GoesOn(s, es, t);
    es := GoesOn(s, es, t);
  }
}
