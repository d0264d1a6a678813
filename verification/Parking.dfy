/** `park`, `park_timeout` and `unpark` on wasm: one 32-bit word a thread, with `Atomics.compareExchange`,
    `Atomics.store`, `Atomics.wait` and `Atomics.notify` (section 25.4 of ECMA-262).

    The machine has the thread that owns the word and any number of unparkers. `Atomics.wait` compares
    and goes to sleep in one atomic step; `Atomics.notify` wakes the owner if it is asleep.
 */
module Parking {

  datatype OwnerPc =
    | Awake
    | Exchange(timed: bool)    // compareExchange(1, 0)
    | Waiting(timed: bool)     // about to call Atomics.wait
    | Asleep(timed: bool)      // inside Atomics.wait
    | Clearing                 // store(0), then return

  datatype UnparkerPc = Outside | Stored   // between store(1) and notify

  /** `returned[u]`: the owner has returned from a park since unparker `u`'s latest store.
      `stored[u]`: unparker `u` has stored at least once. Both are history. */
  datatype Word = Word(
    word: nat, owner: OwnerPc, unparkers: seq<UnparkerPc>, stored: seq<bool>, returned: seq<bool>)

  datatype WordStep =
    | Park(timed: bool)
    | OwnerGo
    | Timeout
    | Store(u: nat)
    | Notify(u: nat)

  predicate Wf(s: Word) { |s.unparkers| == |s.stored| == |s.returned| }

  function Init(n: nat): (s: Word)
    ensures Wf(s)
  {
    Word(0, Awake, seq(n, i => Outside), seq(n, i => false), seq(n, i => false))
  }

  predicate Enabled(s: Word, e: WordStep)
    requires Wf(s)
  {
    match e
    case Park(_) => s.owner.Awake?
    case OwnerGo => s.owner.Exchange? || s.owner.Waiting? || s.owner.Clearing?
    case Timeout => s.owner.Asleep? && s.owner.timed
    case Store(u) => u < |s.unparkers| && s.unparkers[u].Outside?
    case Notify(u) => u < |s.unparkers| && s.unparkers[u].Stored?
  }

  /** The park returns. */
  function Return(s: Word, word: nat): Word {
    s.(word := word, owner := Awake, returned := seq(|s.returned|, i => true))
  }

  function Apply(s: Word, e: WordStep): Word
    requires Wf(s) && Enabled(s, e)
  {
    match e
    case Park(timed) => s.(owner := Exchange(timed))
    case OwnerGo =>
      (match s.owner
       case Exchange(timed) => if s.word == 1 then Return(s, 0) else s.(owner := Waiting(timed))
       case Waiting(timed) =>
         // "not-equal": the untimed form clears the word all the same, the timed form returns at once
         if s.word == 0 then s.(owner := Asleep(timed)) else if timed then Return(s, s.word) else s.(owner := Clearing)
       case Clearing => Return(s, 0))
    case Timeout => Return(s, s.word)
    case Store(u) =>
      s.(word := 1, unparkers := s.unparkers[u := Stored],
         stored := s.stored[u := true], returned := s.returned[u := false])
    case Notify(u) =>
      var s1 := s.(unparkers := s.unparkers[u := Outside]);
      if s.owner.Asleep? then s1.(owner := Clearing) else s1
  }

  /** The owner sleeps on a set word only while some unparker is between its store and its notify; and
      a store stays in the word until the owner returns from a park. */
  ghost predicate Inv(s: Word) {
    && Wf(s)
    && s.word <= 1
    && (s.owner.Asleep? && s.word == 1 ==> exists u :: 0 <= u < |s.unparkers| && s.unparkers[u].Stored?)
    && (forall u :: 0 <= u < |s.stored| && s.stored[u] && !s.returned[u] ==> s.word == 1)
  }

  lemma InvStep(s: Word, e: WordStep)
    requires Inv(s) && Enabled(s, e)
    ensures Inv(Apply(s, e))
  {
    var s' := Apply(s, e);
    if s'.owner.Asleep? && s'.word == 1 && e.Store? {
      assert s'.unparkers[e.u].Stored?;
    }
  }

  predicate Possible(s: Word, es: seq<WordStep>)
    requires Wf(s)
    decreases |es|
  {
    es == [] || (Enabled(s, es[0]) && Possible(Apply(s, es[0]), es[1..]))
  }

  function Exec(s: Word, es: seq<WordStep>): (s': Word)
    requires Wf(s) && Possible(s, es)
    ensures Wf(s')
    decreases |es|
  {
    if es == [] then s else Exec(Apply(s, es[0]), es[1..])
  }

  lemma {:induction false} InvRun(s: Word, es: seq<WordStep>)
    requires Inv(s) && Possible(s, es)
    ensures Inv(Exec(s, es))
    decreases |es|
  {
    hide Apply;
    if es != [] {
      InvStep(s, es[0]);
      InvRun(Apply(s, es[0]), es[1..]);
    }
  }

  /** No unpark is lost. Once a call of `unpark` has stored, the word is set or the owner has returned
      from a park since; and when no unparker is between its two actions, an owner asleep has returned
      since every unpark there was. */
  lemma NoLostUnpark(n: nat, es: seq<WordStep>, u: nat)
    requires Possible(Init(n), es)
    ensures var s := Exec(Init(n), es);
            u < |s.stored| && s.stored[u]
            ==> && (s.word == 1 || s.returned[u])
                && (s.owner.Asleep? && (forall v :: 0 <= v < |s.unparkers| ==> s.unparkers[v].Outside?)
                    ==> s.returned[u])
  {
    InvRun(Init(n), es);
  }

  // ------------------------------------------------------------ the token

  /** The token as the other machines use it, and whether the owner is in a park. */
  datatype Token = Token(present: bool, parked: bool)

  function TokenOf(s: Word): Token { Token(s.word == 1, !s.owner.Awake?) }

  /** `unpark` sets the token. */
  predicate Unparks(a: Token, b: Token) { b == a.(present := true) }

  /** A park returns by the token, which it clears. */
  predicate Consumes(a: Token, b: Token) { a.parked && a.present && b == Token(false, false) }

  /** A park returns without it: spuriously, or because its time is up. */
  predicate ReturnsWithout(a: Token, b: Token) { a.parked && b == a.(parked := false) }

  predicate Enters(a: Token, b: Token) { !a.parked && b == a.(parked := true) }

  /** Every step on the word is one step on the token, or none: the store is the unpark, and the notify
      needs no step of its own. */
  lemma WordRefinesToken(s: Word, e: WordStep)
    requires Inv(s) && Enabled(s, e)
    ensures var a, b := TokenOf(s), TokenOf(Apply(s, e));
            match e
            case Park(_) => Enters(a, b)
            case Store(_) => Unparks(a, b)
            case Notify(_) => a == b
            case Timeout => ReturnsWithout(a, b)
            case OwnerGo => a == b || Consumes(a, b) || ReturnsWithout(a, b)
  {
  }

  /** And none is missing: with the token set and no unparker between its two actions, a park in
      progress returns by the owner's own actions, two at the most. */
  lemma TokenEndsPark(s: Word) returns (es: seq<WordStep>)
    requires Inv(s) && !s.owner.Awake? && s.word == 1
    requires forall v :: 0 <= v < |s.unparkers| ==> s.unparkers[v].Outside?
    ensures |es| <= 2 && (forall i :: 0 <= i < |es| ==> es[i] == OwnerGo)
    ensures Possible(s, es) && Exec(s, es).owner.Awake?
  {
    es := [OwnerGo];
    var s1 := Apply(s, OwnerGo);
    assert es[1..] == [] && Possible(s1, []);
    if !s1.owner.Awake? {
      es := [OwnerGo, OwnerGo];
      assert es[1..] == [OwnerGo] && [OwnerGo][1..] == [];
      var s2 := Apply(s1, OwnerGo);
      assert Possible(s2, []) && Possible(s1, [OwnerGo]);
      assert Exec(s1, [OwnerGo]) == Exec(s2, []);
    }
  }

  // ------------------------------------------------------------ the functions themselves

  /** What `Atomics.wait` reports, or that a park has not returned by the end of the schedule. */
  datatype ParkResult = Ok | NotEqual | TimedOut | Sleeping

  /** What may happen between two actions: steps of the unparkers, and, to a sleeper, the end of its time. */
  datatype Beat = Beat(others: seq<WordStep>, timeUp: bool)

  /** Time-ups in a schedule. */
  function TimeUps(beats: seq<Beat>): nat {
    if beats == [] then 0 else (if beats[0].timeUp then 1 else 0) + TimeUps(beats[1..])
  }

  function AfterOne(beats: seq<Beat>): seq<Beat> { if beats == [] then [] else beats[1..] }

  /** The owner's actions in a run, and those of unparker `u`. */
  function OwnerSteps(es: seq<WordStep>): seq<WordStep> {
    if es == [] then []
    else
      var e := es[|es| - 1];
      OwnerSteps(es[..|es| - 1]) + (if e.Store? || e.Notify? then [] else [e])
  }

  function StepsOf(es: seq<WordStep>, u: nat): seq<WordStep> {
    if es == [] then []
    else
      var e := es[|es| - 1];
      StepsOf(es[..|es| - 1], u) + (if e == Store(u) || e == Notify(u) then [e] else [])
  }

  lemma {:induction false} ExecSnoc(s: Word, es: seq<WordStep>, e: WordStep)
    requires Wf(s) && Possible(s, es) && Enabled(Exec(s, es), e)
    ensures Possible(s, es + [e]) && Exec(s, es + [e]) == Apply(Exec(s, es), e)
    decreases |es|
  {
    hide Apply, Enabled;
    if es == [] {
      KeepsWf(s, e);
      assert [e][1..] == [] && [] + [e] == [e];
    } else {
      KeepsWf(s, es[0]);
      ExecSnoc(Apply(s, es[0]), es[1..], e);
      assert (es + [e])[0] == es[0] && (es + [e])[1..] == es[1..] + [e];
    }
  }

  lemma KeepsWf(s: Word, e: WordStep)
    requires Wf(s) && Enabled(s, e)
    ensures Wf(Apply(s, e)) && |Apply(s, e).unparkers| == |s.unparkers|
  {
  }

  lemma StepsSnoc(es: seq<WordStep>, e: WordStep, u: nat)
    ensures OwnerSteps(es + [e]) == OwnerSteps(es) + (if e.Store? || e.Notify? then [] else [e])
    ensures StepsOf(es + [e], u) == StepsOf(es, u) + (if e == Store(u) || e == Notify(u) then [e] else [])
  {
    assert (es + [e])[..|es|] == es;
  }

  /** Why a park returned: the token was there; the word was set before it slept; it was notified; its time was up. */
  predicate HadToken(s: Word, e: WordStep) { e.OwnerGo? && s.owner.Exchange? && s.word == 1 }

  predicate WasUnequal(s: Word, e: WordStep) { e.OwnerGo? && s.owner.Waiting? && s.word != 0 }

  predicate WasNotified(s: Word, e: WordStep) { e.Notify? && s.owner.Asleep? }

  predicate WasLate(s: Word, e: WordStep) { e.Timeout? && s.owner.Asleep? }

  predicate Because(s: Word, e: WordStep, r: ParkResult) {
    match r
    case Ok => HadToken(s, e) || WasNotified(s, e)
    case NotEqual => WasUnequal(s, e)
    case TimedOut => WasLate(s, e)
    case Sleeping => true
  }

  /** The owner's actions in a park that ends with `r`: the exchange; the comparison; the store of 0, except that the
      timed form does without it when it was not notified. */
  predicate Acted(steps: seq<WordStep>, timed: bool, r: ParkResult) {
    match r
    case Ok => steps == [Park(timed), OwnerGo] || steps == [Park(timed), OwnerGo, OwnerGo, OwnerGo]
    case NotEqual => steps == [Park(timed), OwnerGo, OwnerGo] + (if timed then [] else [OwnerGo])
    case TimedOut => timed && steps == [Park(timed), OwnerGo, OwnerGo, Timeout]
    case Sleeping => steps == [Park(timed), OwnerGo, OwnerGo]
  }

  /** The word, as an array of one element, and the threads around it. `trace` is the run so far. */
  class ParkingPlace {
    const i32: array<int>
    var owner: OwnerPc
    var unparkers: seq<UnparkerPc>
    var stored: seq<bool>
    var returned: seq<bool>
    var schedule: seq<Beat>
    ghost var trace: seq<WordStep>
    ghost const origin: Word

    constructor (n: nat, beats: seq<Beat>)
      ensures Valid() && fresh(i32) && owner.Awake? && |unparkers| == n && schedule == beats && trace == []
    {
      i32 := new int[1](i => 0);
      owner, schedule, trace, origin := Awake, beats, [], Init(n);
      unparkers, stored, returned := seq(n, i => Outside), seq(n, i => false), seq(n, i => false);
    }

    /** The fields are in the state that the run recorded in `trace` leads to. */
    ghost predicate Valid()
      reads this, i32
    {
      && i32.Length == 1 && i32[0] >= 0
      && origin == Init(|origin.unparkers|) && Possible(origin, trace) && View() == Exec(origin, trace)
    }

    function View(): Word
      reads this, i32
      requires i32.Length == 1 && i32[0] >= 0
    {
      Word(i32[0], owner, unparkers, stored, returned)
    }

    lemma Sound()
      requires Valid()
      ensures Inv(View())
    {
      InvRun(Init(|origin.unparkers|), trace);
    }

    /** The run records, at index `at`, step `e` taken in state `s`. */
    ghost predicate Recorded(at: nat, e: WordStep, s: Word)
      reads this
    {
      at < |trace| && trace[at] == e && Wf(origin) && Possible(origin, trace[..at]) && s == Exec(origin, trace[..at])
    }

    /** The step `e` has been taken in state `s`. */
    ghost method Record(e: WordStep, s: Word)
      requires i32.Length == 1 && i32[0] >= 0 && origin == Init(|origin.unparkers|)
      requires Possible(origin, trace) && s == Exec(origin, trace) && Enabled(s, e) && View() == Apply(s, e)
      modifies `trace
      ensures Valid() && trace == old(trace) + [e] && Recorded(old(|trace|), e, s)
      ensures OwnerSteps(trace) == OwnerSteps(old(trace)) + (if e.Store? || e.Notify? then [] else [e])
    {
      hide Apply, Enabled;
      ExecSnoc(origin, trace, e);
      StepsSnoc(trace, e, 0);
      assert (trace + [e])[..|trace|] == trace;
      trace := trace + [e];
    }

    /** Since index `from` a step has been taken that explains why a park returns `r`. */
    ghost predicate Explained(from: nat, r: ParkResult)
      reads this
    {
      exists at, e, s :: from <= at && Recorded(at, e, s) && Because(s, e, r)
    }

    twostate lemma StillExplained(new from: nat, new r: ParkResult)
      requires old(Explained(from, r)) && old(trace) <= trace
      ensures Explained(from, r)
    {
      hide Possible, Exec, Because;
      var at, e, s :| from <= at && old(Recorded(at, e, s)) && Because(s, e, r);
      assert trace[..at] == old(trace)[..at];
      assert Recorded(at, e, s);
    }

    /** Only unparkers have acted; the owner, if it was asleep, may have been woken. */
    twostate predicate Paused()
      reads this, i32
    {
      && old(Valid()) && Valid() && |unparkers| == old(|unparkers|)
      && old(trace) <= trace && OwnerSteps(trace) == OwnerSteps(old(trace)) && (old(i32[0]) == 1 ==> i32[0] == 1)
      && (owner == old(owner) || (old(owner.Asleep?) && owner.Clearing? && Explained(old(|trace|), Ok)))
    }

    /** One step of an unparker. */
    method Other(e: WordStep)
      requires Valid() && (e.Store? || e.Notify?) && Enabled(View(), e)
      modifies this, i32
      ensures Paused() && schedule == old(schedule)
    {
      hide Possible, Exec, OwnerSteps;
      Sound();
      ghost var s := View();
      InvStep(s, e);
      var s' := Apply(View(), e);
      i32[0], owner, unparkers, stored, returned := s'.word, s'.owner, s'.unparkers, s'.stored, s'.returned;
      assert View() == Apply(s, e);
      Record(e, s);
      assert owner != old(owner) ==> Because(s, e, Ok);
    }

    /** The next beat, as far as it is not the owner's doing. */
    method NextBeat() returns (timeUp: bool)
      requires Valid() && schedule != []
      modifies this, i32
      ensures Paused() && schedule == old(schedule)[1..] && timeUp == old(schedule)[0].timeUp
    {
      hide Possible, Exec, OwnerSteps, Apply, Enabled, Recorded, Because;
      var b := schedule[0];
      schedule := schedule[1..];
      var i := 0;
      while i < |b.others|
        invariant i <= |b.others| && Paused() && schedule == old(schedule)[1..]
      {
        var e := b.others[i];
        ReadsWell();
        if (e.Store? || e.Notify?) && Enabled(View(), e) {
          ghost var was := owner;
          label before:
          Other(e);
          if was != old(owner) { StillExplained@before(old(|trace|), Ok); }
        }
        i := i + 1;
      }
      return b.timeUp;
    }

    lemma ReadsWell()
      requires Valid()
      ensures i32.Length == 1 && i32[0] >= 0 && Wf(View())
    {
      Sound();
    }

    method Others()
      requires Valid()
      modifies this, i32
      ensures Paused() && schedule == AfterOne(old(schedule))
    {
      if schedule != [] {
        var _ := NextBeat();
      }
    }

    /** The owner's next action: it leaves the word at `word`, is then at `q`, and has returned if awake. */
    method Go(word: nat, q: OwnerPc)
      requires Valid() && Wf(View()) && Enabled(View(), OwnerGo)
      requires Apply(View(), OwnerGo).word == word && Apply(View(), OwnerGo).owner == q
      modifies this, i32
      ensures Valid() && View() == Apply(old(View()), OwnerGo) && schedule == old(schedule)
      ensures trace == old(trace) + [OwnerGo] && OwnerSteps(trace) == OwnerSteps(old(trace)) + [OwnerGo]
      ensures Recorded(old(|trace|), OwnerGo, old(View()))
    {
      hide Possible, Exec, OwnerSteps;
      ghost var s := View();
      i32[0], owner := word, q;
      if q.Awake? { returned := seq(|returned|, i => true); }
      assert View() == Apply(s, OwnerGo);
      Record(OwnerGo, s);
    }

    /** `Atomics.wait` from the moment it has compared: it ends by a notify, or, if timed, with the first beat by whose
        end its time is up. */
    method Sleep() returns (r: ParkResult)
      requires Valid() && owner.Asleep?
      modifies this, i32
      ensures Valid() && |unparkers| == old(|unparkers|) && old(trace) <= trace
      ensures r.Sleeping? || Explained(old(|trace|), r)
      ensures match r
              case Ok => owner.Clearing? && OwnerSteps(trace) == OwnerSteps(old(trace))
              case TimedOut =>
                && old(owner.timed) && owner.Awake? && OwnerSteps(trace) == OwnerSteps(old(trace)) + [Timeout]
                && TimeUps(schedule) < TimeUps(old(schedule)) && forall u :: 0 <= u < |returned| ==> returned[u]
              case Sleeping =>
                && schedule == [] && owner == old(owner) && OwnerSteps(trace) == OwnerSteps(old(trace))
                && (owner.timed ==> TimeUps(old(schedule)) == 0)
              case NotEqual => false
    {
      hide Possible, Exec, OwnerSteps, Apply, Enabled, Valid, Recorded, Because;
      while owner.Asleep?
        invariant Valid() && |unparkers| == old(|unparkers|) && old(trace) <= trace
        invariant OwnerSteps(trace) == OwnerSteps(old(trace))
        invariant if owner.Asleep?
                  then owner == old(owner) && (owner.timed ==> TimeUps(schedule) == TimeUps(old(schedule)))
                  else owner.Clearing? && Explained(old(|trace|), Ok)
        invariant TimeUps(schedule) <= TimeUps(old(schedule))
        decreases |schedule|
      {
        if schedule == [] { return Sleeping; }
        var timeUp := NextBeat();
        if timeUp && owner.Asleep? && owner.timed {
          WakeLate();
          return TimedOut;
        }
      }
      return Ok;
    }

    /** `Atomics.wait` returns "timed-out". */
    method WakeLate()
      requires Valid() && owner.Asleep? && owner.timed
      modifies this, i32
      ensures Valid() && owner.Awake? && (forall u :: 0 <= u < |returned| ==> returned[u])
      ensures |unparkers| == old(|unparkers|) && schedule == old(schedule) && old(trace) <= trace
      ensures OwnerSteps(trace) == OwnerSteps(old(trace)) + [Timeout] && Explained(old(|trace|), TimedOut)
    {
      hide Possible, Exec, OwnerSteps;
      ReadsWell();
      ghost var s := View();
      owner, returned := Awake, seq(|returned|, i => true);
      assert View() == Apply(s, Timeout);
      Record(Timeout, s);
      assert Because(s, Timeout, TimedOut);
    }

    /** The call of `park` or `park_timeout`. */
    method Begin(timed: bool)
      requires Valid() && owner.Awake?
      modifies this, i32
      ensures Valid() && owner == Exchange(timed) && i32[0] == old(i32[0]) && |unparkers| == old(|unparkers|)
      ensures schedule == old(schedule) && old(trace) <= trace
      ensures OwnerSteps(trace) == OwnerSteps(old(trace)) + [Park(timed)]
    {
      hide Possible, Exec, OwnerSteps;
      ReadsWell();
      ghost var s := View();
      owner := Exchange(timed);
      assert View() == Apply(s, Park(timed));
      Record(Park(timed), s);
    }

    /** `compareExchange(1, 0)`. */
    method TakeToken(timed: bool) returns (had: bool)
      requires Valid() && owner == Exchange(timed)
      modifies this, i32
      ensures Valid() && had == (old(i32[0]) == 1) && |unparkers| == old(|unparkers|) && schedule == old(schedule)
      ensures old(trace) <= trace && OwnerSteps(trace) == OwnerSteps(old(trace)) + [OwnerGo]
      ensures if had then owner.Awake? && i32[0] == 0 && forall u :: 0 <= u < |returned| ==> returned[u]
              else owner == Waiting(timed) && i32[0] == old(i32[0])
      ensures had ==> Explained(old(|trace|), Ok)
    {
      hide Possible, Exec, OwnerSteps;
      ReadsWell();
      ghost var s := View();
      had := i32[0] == 1;
      if had {
        Go(0, Awake);
        assert Because(s, OwnerGo, Ok);
      } else {
        Go(i32[0], Waiting(timed));
      }
    }

    /** The comparison in `Atomics.wait`, with which the owner falls asleep if the word is 0. */
    method Compare(timed: bool) returns (equal: bool)
      requires Valid() && owner == Waiting(timed)
      modifies this, i32
      ensures Valid() && equal == (old(i32[0]) == 0) && |unparkers| == old(|unparkers|) && schedule == old(schedule)
      ensures old(trace) <= trace && OwnerSteps(trace) == OwnerSteps(old(trace)) + [OwnerGo] && i32[0] == old(i32[0])
      ensures owner == if equal then Asleep(timed) else if timed then Awake else Clearing
      ensures !equal ==> Explained(old(|trace|), NotEqual)
      ensures owner.Awake? ==> i32[0] == 1 && forall u :: 0 <= u < |returned| ==> returned[u]
    {
      hide Possible, Exec, OwnerSteps;
      ReadsWell();
      Sound();
      ghost var s := View();
      equal := i32[0] == 0;
      Go(i32[0], if equal then Asleep(timed) else if timed then Awake else Clearing);
      assert !equal ==> Because(s, OwnerGo, NotEqual);
    }

    /** `store(0)`, and the park returns. */
    method Clear()
      requires Valid() && owner.Clearing?
      modifies this, i32
      ensures Valid() && owner.Awake? && i32[0] == 0 && |unparkers| == old(|unparkers|)
      ensures forall u :: 0 <= u < |returned| ==> returned[u]
      ensures schedule == old(schedule) && old(trace) <= trace
      ensures OwnerSteps(trace) == OwnerSteps(old(trace)) + [OwnerGo]
    {
      hide Possible, Exec, OwnerSteps;
      ReadsWell();
      Go(0, Awake);
    }

    /** An owner asleep on a set word has an unparker that has yet to notify. */
    lemma SleepsRightly()
      requires Valid()
      ensures i32.Length == 1
      ensures owner.Asleep? && i32[0] == 1 ==> exists u :: 0 <= u < |unparkers| && unparkers[u].Stored?
    {
      Sound();
    }

    /** `park_wait_at_addr`. It returns "ok" or "not-equal", with the token consumed and for the reason that this
        result stands for; and it sleeps on only while its word is clear or an unparker has yet to notify. */
    method ParkWaitAtAddr() returns (r: ParkResult)
      requires Valid() && owner.Awake?
      modifies this, i32
      ensures Valid() && old(trace) <= trace && !r.TimedOut? && (old(i32[0]) == 1 ==> r.Ok?)
      ensures exists steps :: OwnerSteps(trace) == OwnerSteps(old(trace)) + steps && Acted(steps, false, r)
      ensures r.Sleeping? || Explained(old(|trace|), r)
      ensures !r.Sleeping? ==> owner.Awake? && i32[0] == 0 && forall u :: 0 <= u < |returned| ==> returned[u]
      ensures r.Sleeping? ==> schedule == [] && owner == Asleep(false)
                              && (i32[0] == 1 ==> exists u :: 0 <= u < |unparkers| && unparkers[u].Stored?)
    {
      hide Possible, Exec, OwnerSteps, Apply, Enabled, Valid, Recorded, Because;
      Begin(false);
      Others();
      var had := TakeToken(false);
      if had {
        ghost var steps := [Park(false), OwnerGo];
        assert OwnerSteps(trace) == OwnerSteps(old(trace)) + steps && Acted(steps, false, Ok);
        return Ok;
      }
      Others();
      r := Wait();
      if r.Sleeping? {
        SleepsRightly();
        ghost var steps := [Park(false), OwnerGo, OwnerGo];
        assert OwnerSteps(trace) == OwnerSteps(old(trace)) + steps && Acted(steps, false, r);
        return;
      }
      ghost var why := |trace|;
      label woken:
      Others();
      StillExplained@woken(old(|trace|), r);
      label clearing:
      Clear();
      StillExplained@clearing(old(|trace|), r);
      ghost var steps := [Park(false), OwnerGo, OwnerGo, OwnerGo];
      assert OwnerSteps(trace) == OwnerSteps(old(trace)) + steps && Acted(steps, false, r);
    }

    /** `Atomics.wait` without a limit, up to where it returns. */
    method Wait() returns (r: ParkResult)
      requires Valid() && owner == Waiting(false)
      modifies this, i32
      ensures Valid() && old(trace) <= trace && |unparkers| == old(|unparkers|)
      ensures r.Ok? || r.NotEqual? || r.Sleeping?
      ensures OwnerSteps(trace) == OwnerSteps(old(trace)) + [OwnerGo]
      ensures if r.Sleeping? then owner == Asleep(false) && schedule == []
              else owner.Clearing? && Explained(old(|trace|), r)
    {
      hide Possible, Exec, OwnerSteps, Apply, Enabled, Valid, Recorded, Because;
      var equal := Compare(false);
      if !equal { return NotEqual; }
      r := Sleep();
    }

    /** `park_wait_timeout_at_addr`. Unlike the untimed form it leaves the token alone unless it was woken
        by a notify. It reports "timed-out" only after a beat by whose end its time was up, and sleeps on only if there
        was none since it fell asleep, one beat after its call and one after its exchange. */
    method ParkWaitTimeoutAtAddr() returns (r: ParkResult)
      requires Valid() && owner.Awake?
      modifies this, i32
      ensures Valid() && old(trace) <= trace && (old(i32[0]) == 1 ==> r.Ok?)
      ensures exists steps :: OwnerSteps(trace) == OwnerSteps(old(trace)) + steps && Acted(steps, true, r)
      ensures r.Sleeping? || Explained(old(|trace|), r)
      ensures !r.Sleeping? ==> owner.Awake? && forall u :: 0 <= u < |returned| ==> returned[u]
      ensures r.Ok? ==> i32[0] == 0
      ensures r.NotEqual? ==> i32[0] == 1
      ensures r.TimedOut? ==> TimeUps(schedule) < TimeUps(AfterOne(AfterOne(old(schedule))))
      ensures r.Sleeping? ==> schedule == [] && owner == Asleep(true)
                              && TimeUps(AfterOne(AfterOne(old(schedule)))) == 0
                              && (i32[0] == 1 ==> exists u :: 0 <= u < |unparkers| && unparkers[u].Stored?)
    {
      hide Possible, Exec, OwnerSteps, Apply, Enabled, Valid, Recorded, Because, TimeUps;
      Begin(true);
      Others();
      var had := TakeToken(true);
      if had {
        ghost var steps := [Park(true), OwnerGo];
        assert OwnerSteps(trace) == OwnerSteps(old(trace)) + steps && Acted(steps, true, Ok);
        return Ok;
      }
      Others();
      var equal := Compare(true);
      ghost var steps := [Park(true), OwnerGo, OwnerGo];
      if !equal {
        assert OwnerSteps(trace) == OwnerSteps(old(trace)) + steps && Acted(steps, true, NotEqual);
        return NotEqual;
      }
      r := SleepTimed();
      SleepsRightly();
      steps := steps + (if r.Ok? then [OwnerGo] else if r.TimedOut? then [Timeout] else []);
      assert OwnerSteps(trace) == OwnerSteps(old(trace)) + steps && Acted(steps, true, r);
    }

    /** The rest of the timed form, from its falling asleep. */
    method SleepTimed() returns (r: ParkResult)
      requires Valid() && owner == Asleep(true)
      modifies this, i32
      ensures Valid() && old(trace) <= trace && |unparkers| == old(|unparkers|)
      ensures r.Sleeping? || Explained(old(|trace|), r)
      ensures match r
              case Ok => owner.Awake? && i32[0] == 0 && OwnerSteps(trace) == OwnerSteps(old(trace)) + [OwnerGo]
              case TimedOut =>
                && owner.Awake? && OwnerSteps(trace) == OwnerSteps(old(trace)) + [Timeout]
                && TimeUps(schedule) < TimeUps(old(schedule))
              case Sleeping =>
                && schedule == [] && owner == Asleep(true) && OwnerSteps(trace) == OwnerSteps(old(trace))
                && TimeUps(old(schedule)) == 0
              case NotEqual => false
      ensures !r.Sleeping? ==> forall u :: 0 <= u < |returned| ==> returned[u]
    {
      hide Possible, Exec, OwnerSteps, Apply, Enabled, Valid, Recorded, Because, TimeUps;
      r := Sleep();
      if r.Ok? {
        label woken:
        Others();
        StillExplained@woken(old(|trace|), r);
        label clearing:
        Clear();
        StillExplained@clearing(old(|trace|), r);
      }
    }

    /** Between the two actions of unparker `u`: anything the owner and the other unparkers do. */
    method BeatOf(u: nat)
      requires Valid() && u < |unparkers|
      modifies this, i32
      ensures Valid() && |unparkers| == old(|unparkers|) && unparkers[u] == old(unparkers[u])
      ensures u < old(|stored|) && old(stored[u]) ==> u < |stored| && stored[u]
      ensures old(trace) <= trace && StepsOf(trace, u) == StepsOf(old(trace), u)
    {
      hide Possible, Exec, StepsOf;
      if schedule == [] { return; }
      var b := schedule[0];
      schedule := schedule[1..];
      var i := 0;
      while i < |b.others|
        invariant i <= |b.others| && Valid() && |unparkers| == old(|unparkers|)
        invariant unparkers[u] == old(unparkers[u])
        invariant u < old(|stored|) && old(stored[u]) ==> u < |stored| && stored[u]
        invariant old(trace) <= trace && StepsOf(trace, u) == StepsOf(old(trace), u)
      {
        var e := b.others[i];
        ReadsWell();
        if Enabled(View(), e) && e != Store(u) && e != Notify(u) { Anyone(e, u); }
        i := i + 1;
      }
    }

    /** One step that is not of unparker `u`. */
    method Anyone(e: WordStep, u: nat)
      requires Valid() && Wf(View()) && Enabled(View(), e) && e != Store(u) && e != Notify(u) && u < |unparkers|
      modifies this, i32
      ensures Valid() && |unparkers| == old(|unparkers|) && unparkers[u] == old(unparkers[u])
      ensures u < old(|stored|) && old(stored[u]) ==> u < |stored| && stored[u]
      ensures trace == old(trace) + [e] && StepsOf(trace, u) == StepsOf(old(trace), u)
    {
      hide Possible, Exec, OwnerSteps, StepsOf;
      Sound();
      ghost var s := View();
      InvStep(s, e);
      var s' := Apply(View(), e);
      i32[0], owner, unparkers, stored, returned := s'.word, s'.owner, s'.unparkers, s'.stored, s'.returned;
      assert View() == Apply(s, e);
      Record(e, s);
      StepsSnoc(old(trace), e, u);
    }

    /** `park_notify_at_addr`: the store and then the notify, and no other step of this unparker. When it returns, the
        token is set or the owner has returned from a park since it was; and an owner that was asleep at the notify is
        on its way out. */
    method ParkNotifyAtAddr(u: nat)
      requires Valid() && u < |unparkers| && unparkers[u].Outside?
      modifies this, i32
      ensures Valid() && |unparkers| == old(|unparkers|) && unparkers[u].Outside?
      ensures old(trace) <= trace && StepsOf(trace, u) == StepsOf(old(trace), u) + [Store(u), Notify(u)]
      ensures |stored| == |returned| == |unparkers| && stored[u] && (i32[0] == 1 || returned[u]) && !owner.Asleep?
    {
      hide Possible, Exec, StepsOf;
      BeatOf(u);
      StoreToken(u);
      BeatOf(u);
      NotifyOwner(u);
      ReadsWell();
      Sound();
    }

    /** `Atomics.store(i32, index, 1)`. */
    method StoreToken(u: nat)
      requires Valid() && u < |unparkers| && unparkers[u].Outside?
      modifies this, i32
      ensures Valid() && |unparkers| == old(|unparkers|) && unparkers[u].Stored? && u < |stored| && stored[u]
      ensures trace == old(trace) + [Store(u)] && StepsOf(trace, u) == StepsOf(old(trace), u) + [Store(u)]
    {
      hide Possible, Exec, OwnerSteps, StepsOf;
      ReadsWell();
      ghost var s := View();
      i32[0], unparkers, stored, returned := 1, unparkers[u := Stored], stored[u := true], returned[u := false];
      assert View() == Apply(s, Store(u));
      Record(Store(u), s);
      StepsSnoc(old(trace), Store(u), u);
    }

    /** `Atomics.notify(i32, index, 1)`. */
    method NotifyOwner(u: nat)
      requires Valid() && u < |unparkers| && unparkers[u].Stored?
      modifies this, i32
      ensures Valid() && |unparkers| == old(|unparkers|) && unparkers[u].Outside? && !owner.Asleep?
      ensures stored == old(stored)
      ensures trace == old(trace) + [Notify(u)] && StepsOf(trace, u) == StepsOf(old(trace), u) + [Notify(u)]
    {
      hide Possible, Exec, OwnerSteps, StepsOf;
      ReadsWell();
      ghost var s := View();
      unparkers := unparkers[u := Outside];
      if owner.Asleep? { owner := Clearing; }
      assert View() == Apply(s, Notify(u));
      Record(Notify(u), s);
      StepsSnoc(old(trace), Notify(u), u);
    }
  }
}
