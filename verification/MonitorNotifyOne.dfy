/** What one whole call of `notify_one` achieves while every other thread goes on: it takes one waiter at most, the one
    registered last in the first list that is not empty when it looks, and signals it; and it takes none only if it
    saw each list empty. */
module MonitorNotifyOne {
  import opened Basics
  import opened Monitor
  import opened MonitorSteps
  import opened MonitorRuns
  import opened MonitorNotify

  /** The three lists of a condition variable, in the order in which a notification looks at them. */
  datatype Place = Spins | Threads | Tasks

  function Listed(c: CondState, l: Place): seq<nat> {
    match l
    case Spins => c.spins
    case Threads => c.threads
    case Tasks => c.tasks
  }

  /** `c` with list `l` replaced. */
  function With(c: CondState, l: Place, q: seq<nat>): CondState {
    match l
    case Spins => c.(spins := q)
    case Threads => c.(threads := q)
    case Tasks => c.(tasks := q)
  }

  function Rank(l: Place): nat { if l.Spins? then 0 else if l.Threads? then 1 else 2 }

  /** Waiter `x` of list `l` has its signal. */
  predicate Signalled<T>(s: State<T>, l: Place, x: nat) {
    match l
    case Spins => x in s.rt.flags
    case Threads => x < |s.rt.token| && s.rt.token[x]
    case Tasks => x in s.rt.fired
  }

  /** The state after the first `i` steps. */
  function StateAt<T>(s: State<T>, es: seq<Step<T>>, i: nat): (s': State<T>)
    requires Wf(s) && Possible(s, es) && i <= |es|
    ensures Wf(s') && |s'.pc| == |s.pc|
    decreases |es|
  {
    if i == 0 then s else (WfStep(s, es[0]); StateAt(Apply(s, es[0]), es[1..], i - 1))
  }

  lemma {:induction false} StateAtIs<T>(s: State<T>, es: seq<Step<T>>, i: nat)
    requires Wf(s) && Possible(s, es) && i <= |es|
    ensures Possible(s, es[..i]) && StateAt(s, es, i) == Exec(s, es[..i])
    decreases |es|
  {
    hide Apply, Enabled;
    if i > 0 {
      WfStep(s, es[0]);
      StateAtIs(Apply(s, es[0]), es[1..], i - 1);
      assert es[..i][0] == es[0] && es[..i][1..] == es[1..][..i - 1];
    }
  }

  lemma AfterFirst<T>(s: State<T>, es: seq<Step<T>>)
    requires Wf(s) && Possible(s, es) && es != []
    ensures StateAt(s, es, 0) == s && StateAt(s, es, 1) == Apply(s, es[0])
  {
    hide Apply, Enabled;
    WfStep(s, es[0]);
    assert StateAt(Apply(s, es[0]), es[1..], 0) == Apply(s, es[0]);
  }

  /** At its own step `j` thread `t` found list `l` empty. */
  ghost predicate Saw<T>(s: State<T>, es: seq<Step<T>>, t: Tid, l: Place, j: nat)
    requires Wf(s) && Possible(s, es) && j < |es|
  {
    es[j] == Go(t) && Listed(StateAt(s, es, j).cond, l) == []
  }

  /** At its own step `i` thread `t` took the last entry of list `l`, and no other. */
  ghost predicate Took<T>(s: State<T>, es: seq<Step<T>>, t: Tid, l: Place, i: nat)
    requires Wf(s) && Possible(s, es) && i < |es|
  {
    var c := StateAt(s, es, i).cond;
    es[i] == Go(t) && Listed(c, l) != []
    && StateAt(s, es, i + 1).cond == With(c, l, Listed(c, l)[..|Listed(c, l)| - 1])
  }

  /** Its own step `j` leaves all lists alone. */
  ghost predicate Leaves<T>(s: State<T>, es: seq<Step<T>>, t: Tid, j: nat)
    requires Wf(s) && Possible(s, es) && j < |es|
  {
    es[j] == Go(t) ==> StateAt(s, es, j + 1).cond == StateAt(s, es, j).cond
  }

  /** At its own step `j` it signalled waiter `x` of list `l`. */
  ghost predicate Gave<T>(s: State<T>, es: seq<Step<T>>, t: Tid, l: Place, x: nat, j: nat)
    requires Wf(s) && Possible(s, es) && j < |es|
  {
    es[j] == Go(t) && Signalled(StateAt(s, es, j + 1), l, x)
  }

  /** From list `first` on: nobody is taken, and each list was seen empty. */
  ghost predicate Nobody<T>(s: State<T>, es: seq<Step<T>>, t: Tid, first: Place)
    requires Wf(s) && Possible(s, es)
  {
    && (forall j :: 0 <= j < |es| ==> Leaves(s, es, t, j))
    && forall l: Place :: Rank(first) <= Rank(l) ==> exists j :: 0 <= j < |es| && Saw(s, es, t, l, j)
  }

  /** Or exactly one is, from list `l` at step `i`, is signalled after that, and each list before it had been seen
      empty. */
  ghost predicate Somebody<T>(s: State<T>, es: seq<Step<T>>, t: Tid, first: Place, l: Place, i: nat)
    requires Wf(s) && Possible(s, es) && i < |es|
  {
    && (forall j :: 0 <= j < |es| && j != i ==> Leaves(s, es, t, j))
    && Took(s, es, t, l, i) && Rank(first) <= Rank(l)
    && (exists j :: i < j < |es| && Gave(s, es, t, l, Last(Listed(StateAt(s, es, i).cond, l)), j))
    && forall k: Place :: Rank(first) <= Rank(k) < Rank(l) ==> exists j :: 0 <= j < i && Saw(s, es, t, k, j)
  }

  ghost predicate OneAtMost<T>(s: State<T>, es: seq<Step<T>>, t: Tid, first: Place)
    requires Wf(s) && Possible(s, es)
  {
    Nobody(s, es, t, first) || exists l, i :: 0 <= i < |es| && Somebody(s, es, t, first, l, i)
  }

  // ------------------------------------------------------------ one action

  /** `notify_one` is about to look at list `l`. */
  predicate Looks(p: Pc, l: Place) {
    match l
    case Spins => p.NSpins? && !p.all
    case Threads => p.NThreads? && !p.all
    case Tasks => p.NTasks? && !p.all
  }

  /** It has taken `x` from list `l` and has yet to signal it. */
  predicate Has(p: Pc, l: Place, x: nat) {
    match l
    case Spins => p.NStore? && !p.all && p.ids == [x]
    case Threads => p.NUnpark? && !p.all && p.ws == [x]
    case Tasks => p.NSend? && !p.all && p.gs == [x]
  }

  /** It has signalled, and returns next. */
  predicate Spent(p: Pc) {
    (p.NStore? && !p.all && p.ids == []) || (p.NUnpark? && !p.all && p.ws == []) || (p.NSend? && !p.all && p.gs == [])
  }

  /** A look: the last entry is taken, or the list is empty and the next one is looked at. */
  lemma Look<T>(s: State<T>, t: Tid, l: Place)
    requires Wf(s) && t < |s.pc| && Looks(s.pc[t], l)
    ensures var s', q := GoNotify(s, t), Listed(s.cond, l);
            && |s'.pc| == |s.pc|
            && (if q != [] then s'.cond == With(s.cond, l, q[..|q| - 1]) && Has(s'.pc[t], l, Last(q))
                else s'.cond == s.cond && (match l
                                           case Spins => Looks(s'.pc[t], Threads)
                                           case Threads => Looks(s'.pc[t], Tasks)
                                           case Tasks => Ready(s'.pc[t])))
  {
  }

  lemma Give<T>(s: State<T>, t: Tid, l: Place, x: nat)
    requires Wf(s) && t < |s.pc| && Has(s.pc[t], l, x)
    ensures var s' := GoNotify(s, t);
            |s'.pc| == |s.pc| && s'.cond == s.cond && Spent(s'.pc[t]) && Signalled(s', l, x)
  {
    assert [x][1..] == [];
    if l.Threads? {
      assert Below(Unparks(s.pc[t]), |s.pc|) && Unparks(s.pc[t])[0] == x;
    }
  }

  lemma Return<T>(s: State<T>, t: Tid)
    requires Wf(s) && t < |s.pc| && Spent(s.pc[t])
    ensures var s' := GoNotify(s, t); |s'.pc| == |s.pc| && s'.cond == s.cond && Ready(s'.pc[t])
  {
  }

  /** A step that is not the notifier's next action leaves it where it is. */
  lemma Elsewhere<T>(s: State<T>, e: Step<T>, t: Tid)
    requires Wf(s) && Enabled(s, e) && t < |s.pc| && Notifies(s.pc[t]) && e != Go(t)
    ensures |Apply(s, e).pc| == |s.pc| && Apply(s, e).pc[t] == s.pc[t]
  {
    hide Advance;
    WfStep(s, e);
    if !e.Tick? {
      StepBounded(s, e);
    }
  }

  // ------------------------------------------------------------ the call

  /** What holds of the rest of a run holds of the run, one step later. */
  lemma Later<T>(s: State<T>, es: seq<Step<T>>, t: Tid, j: nat)
    requires Wf(s) && Possible(s, es) && es != [] && j < |es| - 1
    requires Wf(Apply(s, es[0])) && Possible(Apply(s, es[0]), es[1..])
    ensures Leaves(s, es, t, j + 1) == Leaves(Apply(s, es[0]), es[1..], t, j)
    ensures forall l :: Saw(s, es, t, l, j + 1) == Saw(Apply(s, es[0]), es[1..], t, l, j)
    ensures forall l :: Took(s, es, t, l, j + 1) == Took(Apply(s, es[0]), es[1..], t, l, j)
    ensures forall l, x :: Gave(s, es, t, l, x, j + 1) == Gave(Apply(s, es[0]), es[1..], t, l, x, j)
  {
    hide Apply, Enabled;
  }

  lemma LeavesAll<T>(s: State<T>, es: seq<Step<T>>, t: Tid, from: nat)
    requires Wf(s) && Possible(s, es) && es != [] && from <= 1
    requires Wf(Apply(s, es[0])) && Possible(Apply(s, es[0]), es[1..])
    requires forall j :: 0 <= j < |es| - 1 ==> Leaves(Apply(s, es[0]), es[1..], t, j)
    requires from == 0 ==> Leaves(s, es, t, 0)
    ensures forall j :: from <= j < |es| ==> Leaves(s, es, t, j)
  {
    hide Leaves, Apply, Enabled;
    forall j | from <= j < |es|
      ensures Leaves(s, es, t, j)
    {
      if j > 0 { Later(s, es, t, j - 1); }
    }
  }

  /** After its signal a `notify_one` only returns. */
  lemma {:induction false} Rests<T>(s: State<T>, es: seq<Step<T>>, t: Tid)
    requires Wf(s) && Possible(s, es) && t < |s.pc| && Within(s, es, t, false) && (Spent(s.pc[t]) || Ready(s.pc[t]))
    ensures forall j :: 0 <= j < |es| ==> Leaves(s, es, t, j)
    decreases |es|
  {
    hide Apply, Enabled, GoNotify;
    if es != [] {
      var s1 := Apply(s, es[0]);
      WfStep(s, es[0]);
      AfterFirst(s, es);
      if es[0] == Go(t) {
        NotifierGoes(s, t);
        Return(s, t);
      } else {
        Elsewhere(s, es[0], t);
      }
      Rests(s1, es[1..], t);
      LeavesAll(s, es, t, 0);
    }
  }

  lemma NotifierGoes<T>(s: State<T>, t: Tid)
    requires Wf(s) && t < |s.pc| && Notifies(s.pc[t])
    ensures Enabled(s, Go(t)) && Apply(s, Go(t)) == GoNotify(s, t)
  {
  }

  /** With a waiter in hand it takes no other, and signals that one. */
  lemma {:induction false} Gives<T>(s: State<T>, es: seq<Step<T>>, t: Tid, l: Place, x: nat) returns (g: nat)
    requires Wf(s) && Possible(s, es) && t < |s.pc| && Within(s, es, t, false) && Has(s.pc[t], l, x)
    ensures forall j :: 0 <= j < |es| ==> Leaves(s, es, t, j)
    ensures g < |es| && Gave(s, es, t, l, x, g)
    decreases |es|
  {
    hide Apply, Enabled, GoNotify;
    var s1 := Apply(s, es[0]);
    WfStep(s, es[0]);
    AfterFirst(s, es);
    if es[0] == Go(t) {
      NotifierGoes(s, t);
      Give(s, t, l, x);
      Rests(s1, es[1..], t);
      g := 0;
    } else {
      Elsewhere(s, es[0], t);
      var h := Gives(s1, es[1..], t, l, x);
      Later(s, es, t, h);
      g := h + 1;
    }
    LeavesAll(s, es, t, 0);
  }

  /** A step of another thread, or of the platform, before the call goes on. */
  lemma Delays<T>(s: State<T>, es: seq<Step<T>>, t: Tid, first: Place)
    requires Wf(s) && Possible(s, es) && es != [] && es[0] != Go(t)
    requires Wf(Apply(s, es[0])) && Possible(Apply(s, es[0]), es[1..])
    requires OneAtMost(Apply(s, es[0]), es[1..], t, first)
    ensures OneAtMost(s, es, t, first)
  {
    hide Apply, Enabled, Leaves, Saw, Took, Gave;
    assert Leaves(s, es, t, 0) by { StepsAside(s, es, t); }
    if Nobody(Apply(s, es[0]), es[1..], t, first) {
      LaterNobody(s, es, t, first);
    } else {
      var l, i :| 0 <= i < |es| - 1 && Somebody(Apply(s, es[0]), es[1..], t, first, l, i);
      LaterSomebody(s, es, t, first, first, l, i);
    }
  }

  lemma StepsAside<T>(s: State<T>, es: seq<Step<T>>, t: Tid)
    requires Wf(s) && Possible(s, es) && es != [] && es[0] != Go(t)
    ensures Leaves(s, es, t, 0)
  {
  }

  lemma LaterNobody<T>(s: State<T>, es: seq<Step<T>>, t: Tid, first: Place)
    requires Wf(s) && Possible(s, es) && es != []
    requires Wf(Apply(s, es[0])) && Possible(Apply(s, es[0]), es[1..])
    requires Nobody(Apply(s, es[0]), es[1..], t, first) && Leaves(s, es, t, 0)
    ensures Nobody(s, es, t, first)
  {
    hide Apply, Enabled, Leaves, Saw;
    LeavesAll(s, es, t, 0);
    forall l: Place | Rank(first) <= Rank(l)
      ensures exists j :: 0 <= j < |es| && Saw(s, es, t, l, j)
    {
      var j :| 0 <= j < |es| - 1 && Saw(Apply(s, es[0]), es[1..], t, l, j);
      Later(s, es, t, j);
      assert Saw(s, es, t, l, j + 1);
    }
  }

  /** `was`: the list that the first step found empty, or `first` again if it was not a look. */
  lemma LaterSomebody<T>(s: State<T>, es: seq<Step<T>>, t: Tid, was: Place, first: Place, l: Place, i: nat)
    requires Wf(s) && Possible(s, es) && es != [] && i < |es| - 1
    requires Wf(Apply(s, es[0])) && Possible(Apply(s, es[0]), es[1..])
    requires Somebody(Apply(s, es[0]), es[1..], t, first, l, i) && Leaves(s, es, t, 0)
    requires was == first || (Saw(s, es, t, was, 0) && Rank(first) == Rank(was) + 1)
    ensures Somebody(s, es, t, was, l, i + 1)
  {
    hide Apply, Enabled, Leaves, Saw, Gave;
    forall j | 0 <= j < |es| && j != i + 1
      ensures Leaves(s, es, t, j)
    {
      if j > 0 { Later(s, es, t, j - 1); }
    }
    Later(s, es, t, i);
    var x := Last(Listed(StateAt(Apply(s, es[0]), es[1..], i).cond, l));
    var g :| i < g < |es| - 1 && Gave(Apply(s, es[0]), es[1..], t, l, x, g);
    Later(s, es, t, g);
    assert Gave(s, es, t, l, x, g + 1);
    forall k: Place | Rank(was) <= Rank(k) < Rank(l)
      ensures exists j :: 0 <= j < i + 1 && Saw(s, es, t, k, j)
    {
      if Rank(first) <= Rank(k) {
        var j :| 0 <= j < i && Saw(Apply(s, es[0]), es[1..], t, k, j);
        Later(s, es, t, j);
        assert Saw(s, es, t, k, j + 1);
      } else {
        assert Saw(s, es, t, k, 0);
      }
    }
  }

  /** An empty list: on to the next. */
  lemma Passes<T>(s: State<T>, es: seq<Step<T>>, t: Tid, l: Place, next: Place)
    requires Wf(s) && Possible(s, es) && es != [] && es[0] == Go(t) && Listed(s.cond, l) == []
    requires Rank(next) == Rank(l) + 1
    requires Wf(Apply(s, es[0])) && Possible(Apply(s, es[0]), es[1..]) && Apply(s, es[0]).cond == s.cond
    requires OneAtMost(Apply(s, es[0]), es[1..], t, next)
    ensures OneAtMost(s, es, t, l)
  {
    hide Apply, Enabled, Took, Gave;
    AfterFirst(s, es);
    assert Leaves(s, es, t, 0) && Saw(s, es, t, l, 0);
    if Nobody(Apply(s, es[0]), es[1..], t, next) {
      SeesNobody(s, es, t, l, next);
    } else {
      var k, i :| 0 <= i < |es| - 1 && Somebody(Apply(s, es[0]), es[1..], t, next, k, i);
      LaterSomebody(s, es, t, l, next, k, i);
    }
  }

  lemma SeesNobody<T>(s: State<T>, es: seq<Step<T>>, t: Tid, l: Place, next: Place)
    requires Wf(s) && Possible(s, es) && es != [] && Rank(next) == Rank(l) + 1
    requires Wf(Apply(s, es[0])) && Possible(Apply(s, es[0]), es[1..])
    requires Nobody(Apply(s, es[0]), es[1..], t, next) && Leaves(s, es, t, 0) && Saw(s, es, t, l, 0)
    ensures Nobody(s, es, t, l)
  {
    hide Apply, Enabled, Leaves, Saw;
    LeavesAll(s, es, t, 0);
    forall k: Place | Rank(l) <= Rank(k)
      ensures exists j :: 0 <= j < |es| && Saw(s, es, t, k, j)
    {
      if k == l {
        assert Saw(s, es, t, k, 0);
      } else {
        var j :| 0 <= j < |es| - 1 && Saw(Apply(s, es[0]), es[1..], t, k, j);
        Later(s, es, t, j);
        assert Saw(s, es, t, k, j + 1);
      }
    }
  }

  /** Thread `t` takes the last entry of list `l`, or passes it. */
  lemma Picks<T>(s: State<T>, es: seq<Step<T>>, t: Tid, l: Place)
    requires Wf(s) && Possible(s, es) && t < |s.pc| && Within(s, es, t, false) && Looks(s.pc[t], l)
    requires es != [] && es[0] == Go(t) && Listed(s.cond, l) != []
    ensures OneAtMost(s, es, t, l)
  {
    hide Apply, Enabled, GoNotify, Leaves, Gave;
    WfStep(s, es[0]);
    AfterFirst(s, es);
    NotifierGoes(s, t);
    Look(s, t, l);
    var x := Last(Listed(s.cond, l));
    var g := Gives(Apply(s, es[0]), es[1..], t, l, x);
    Later(s, es, t, g);
    LeavesAll(s, es, t, 1);
    assert Gave(s, es, t, l, x, g + 1);
    assert Somebody(s, es, t, l, l, 0);
  }

  /** The last list is empty: the call returns. */
  lemma NoneLeft<T>(s: State<T>, es: seq<Step<T>>, t: Tid)
    requires Wf(s) && Possible(s, es) && es != [] && es[0] == Go(t) && Listed(s.cond, Tasks) == []
    requires Wf(Apply(s, es[0])) && Possible(Apply(s, es[0]), es[1..]) && Apply(s, es[0]).cond == s.cond
    requires forall j :: 0 <= j < |es| - 1 ==> Leaves(Apply(s, es[0]), es[1..], t, j)
    ensures OneAtMost(s, es, t, Tasks)
  {
    hide Apply, Enabled;
    AfterFirst(s, es);
    LeavesAll(s, es, t, 0);
    assert Saw(s, es, t, Tasks, 0);
  }

  lemma {:induction false} OneFrom<T>(s: State<T>, es: seq<Step<T>>, t: Tid, l: Place)
    requires Wf(s) && Possible(s, es) && t < |s.pc| && Within(s, es, t, false) && Looks(s.pc[t], l)
    ensures OneAtMost(s, es, t, l)
    decreases |es|
  {
    hide Apply, Enabled, GoNotify, OneAtMost, Leaves;
    var s1 := Apply(s, es[0]);
    WfStep(s, es[0]);
    if es[0] != Go(t) {
      Elsewhere(s, es[0], t);
      OneFrom(s1, es[1..], t, l);
      Delays(s, es, t, l);
    } else if Listed(s.cond, l) != [] {
      Picks(s, es, t, l);
    } else {
      NotifierGoes(s, t);
      Look(s, t, l);
      if l.Tasks? {
        Rests(s1, es[1..], t);
        NoneLeft(s, es, t);
      } else {
        var next := if l.Spins? then Threads else Tasks;
        OneFrom(s1, es[1..], t, next);
        Passes(s, es, t, l, next);
      }
    }
  }

  /** `notify_one`, from its call to its return and among any steps of other threads: either it took nobody, and saw
      the lists of spin flags, threads and continuations each empty; or it took exactly one waiter, the one registered
      last in its list, having seen the lists before that one empty, and signalled it. */
  lemma NotifyOneTakesOne<T>(s: State<T>, es: seq<Step<T>>, t: Tid)
    requires Wf(s) && Possible(s, es) && t < |s.pc| && s.pc[t].NSpins? && Within(s, es, t, false)
    ensures Nobody(s, es, t, Spins) || exists l, i :: 0 <= i < |es| && Somebody(s, es, t, Spins, l, i)
  {
    hide Nobody, Somebody, Apply, Enabled;
    OneFrom(s, es, t, Spins);
  }

  // ------------------------------------------------------------ any run in which the call returns

  /** From inside a notification of thread `t`: the call to its return, and what happens after, in which `t` begins
      no other call. */
  ghost predicate Returns<T>(s: State<T>, s': State<T>, t: Tid, all: bool, call: seq<Step<T>>, rest: seq<Step<T>>) {
    && Wf(s) && t < |s.pc| && Possible(s, call) && Within(s, call, t, all)
    && Meanwhile(Exec(s, call), s', t, rest)
  }

  lemma NotifierMoves<T>(s: State<T>, t: Tid)
    requires Wf(s) && t < |s.pc| && Notifies(s.pc[t])
    ensures var s' := GoNotify(s, t);
            |s'.pc| == |s.pc| && (Ready(s'.pc[t]) || (Notifies(s'.pc[t]) && s'.pc[t].all == s.pc[t].all))
  {
  }

  /** A run that ends with thread `t` back from its notification has the whole call as its beginning. */
  lemma {:induction false} ReturnsWithin<T>(s: State<T>, s': State<T>, t: Tid, all: bool, es: seq<Step<T>>)
    requires Meanwhile(s, s', t, es) && t < |s.pc| && Ready(s'.pc[t])
    requires Ready(s.pc[t]) || (Notifies(s.pc[t]) && s.pc[t].all == all)
    ensures exists call, rest :: es == call + rest && Returns(s, s', t, all, call, rest)
    decreases |es|
  {
    hide Apply, Enabled, GoNotify, OwnCall;
    if Ready(s.pc[t]) {
      assert [] + es == es && Returns(s, s', t, all, [], es);
    } else {
      var s1 := Apply(s, es[0]);
      WfStep(s, es[0]);
      if es[0] == Go(t) {
        NotifierGoes(s, t);
        NotifierMoves(s, t);
      } else {
        Elsewhere(s, es[0], t);
      }
      ReturnsWithin(s1, s', t, all, es[1..]);
      var call, rest :| es[1..] == call + rest && Returns(s1, s', t, all, call, rest);
      var longer := [es[0]] + call;
      assert longer[0] == es[0] && longer[1..] == call && es == longer + rest;
      assert Returns(s, s', t, all, longer, rest);
    }
  }
}
