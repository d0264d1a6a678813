/** The states that the theorems about the channel speak of are there: two threads, of which thread 0 has the receiver
    and thread 1 the one sender, come to each of them. */
module ChannelScenes {
  import opened Basics
  import opened Monitor
  import opened Channel
  import opened ChannelDelivery
  import opened ChannelRuns
  import opened ChannelProgress
  import opened ChannelKinds
  import opened ChannelLive
  import opened ChannelOwn
  import opened ChannelClosing
  import opened ChannelStale

  /** No receive of the run but of kind `k`. */
  predicate OnlyKind<M>(ops: seq<Op<M>>, k: Kind) {
    forall i :: 0 <= i < |ops| && ops[i].Recv? ==> ops[i].k == k
  }

  /** `before` leads to `c`, in which thread 0 is about to wait by kind `k` for the first time, and thread 1 has the
      only sender. */
  ghost predicate FirstWait<M>(before: seq<Op<M>>, c: Chan<M>, k: Kind) {
    && BeforeDrop(2, 0, before, c, 0, k, 1) && AboutToWait(2, 0, before, c, 0, k, 1) && OnlyKind(before, k)
    && Sized(c) && c.mon.pc[0].In? && NothingLeft(c.mon, 0) && c.mon.cond.threads == [] && c.mon.cond.spins == []
    && c.mon.rt.clock == 0 && c.mon.lock.value == [] && c.active && c.mon.pc[1].Out? && c.mon.lock.threads == []
    && c.mon.rt.next !in c.mon.rt.flags && c.cl == [RecvWait(k), Idle] && c.receiver == Some(0) && c.handles == [0, 1]
  }

  ghost predicate FromInit<M>(before: seq<Op<M>>, c: Chan<M>) {
    Runs(Channel.Init<M>(2, 0), before) && c == Outcome(Channel.Init<M>(2, 0), before)
  }

  /** Thread 0 gives its sender away and begins to receive. */
  lemma ComesToLock<M>(k: Kind) returns (before: seq<Op<M>>, c: Chan<M>)
    requires k.By? && (k.dl.Some? ==> k.dl.value > 0)
    ensures FromInit(before, c) && OnlyKind(before, k) && Sized(c)
    ensures c.cl == [RecvLock(k), Idle] && c.handles == [0, 1] && c.senderCount == 1
    ensures c.active && c.receiver == Some(0)
    ensures var m: State<seq<M>> := Monitor.Init(2, []);
            c.mon == m.(lock := m.lock.(held := true), pc := c.mon.pc, hist := c.mon.hist)
    ensures c.mon.pc[0].In? && c.mon.pc[1].Out?
  {
    hide Runs, Outcome, Apply;
    var c0 := Channel.Init<M>(2, 0);
    Nothing(c0);
    before := Then(c0, [], GiveSender(0, 1));
    var c1 := Outcome(c0, before);
    var more := Locks(c1, 0, k);
    OutcomeConcat(c0, before, more);
    before := before + more;
    c := Outcome(c1, more);
  }

  lemma ComesToFirstWait<M>(k: Kind) returns (before: seq<Op<M>>, c: Chan<M>)
    requires k.By? && (k.dl.Some? ==> k.dl.value > 0)
    ensures FirstWait(before, c, k)
  {
    hide Runs, Outcome, Channel.Init;
    var first, c1 := ComesToLock<M>(k);
    var more := Counts(c1, 0, k);
    OutcomeConcat(Channel.Init<M>(2, 0), first, more);
    before := first + more;
    c := Outcome(c1, more);
  }

  // ------------------------------------------------------------ the drop of the last sender

  /** The window is reached with nothing left over; there a receive without a limit strands. */
  lemma StrandIsReached<M(!new)>(k: Kind)
    requires NoLimit(k)
    ensures exists before, c, ops :: InWindow<M>(2, 0, before, c, 0, k) && Sized(c) && |c.cl| > 0
                                     && Strands(c, 0, k, ops)
  {
    hide BeforeDrop, AboutToWait, InWindow, Strands, Runs, Outcome;
    var before, c := ComesToFirstWait<M>(k);
    DropOpensWindow(2, 0, before, c, 0, k, 1);
    var ops, d :| Drops(2, 0, before, c, 0, k, 1, ops, d);
    LastDropMayStrand(2, 0, before + ops, d, 0, k);
    assert k.how.Blocking? ==> NothingLeft(d.mon, 0);
    var strands :| Strands(d, 0, k, strands);
    assert InWindow(2, 0, before + ops, d, 0, k);
  }

  /** An unpark from elsewhere leaves a token. */
  lemma StrayLeaves<M>(before: seq<Op<M>>, c: Chan<M>, k: Kind) returns (d: Chan<M>)
    requires InWindow(2, 0, before, c, 0, k) && Sized(c)
    ensures InWindow(2, 0, before + [Inner(Stray(0))], d, 0, k) && Sized(d) && |d.cl| > 0 && d.mon.rt.token[0]
  {
    hide Runs, Outcome;
    var more := Then(Channel.Init<M>(2, 0), before, Inner(Stray(0)));
    d := Outcome(Channel.Init<M>(2, 0), more);
  }

  /** It is reached with a token left over, too. */
  lemma LeftoverIsReached<M>()
    ensures exists before, c :: InWindow<M>(2, 0, before, c, 0, PLAIN) && Sized(c) && |c.cl| > 0
                                && !NothingLeft(c.mon, 0)
  {
    hide BeforeDrop, AboutToWait, InWindow, Runs, Outcome;
    var before, c := ComesToFirstWait<M>(PLAIN);
    DropOpensWindow(2, 0, before, c, 0, PLAIN, 1);
    var ops, d :| Drops(2, 0, before, c, 0, PLAIN, 1, ops, d);
    var e := StrayLeaves(before + ops, d, PLAIN);
  }

  /** Outside the window: the receiver waits when the last sender comes to its list, and has its wake-up to come when
      the list is taken. */
  ghost predicate Wakeful<M>(before: seq<Op<M>>, c: Chan<M>, c': Chan<M>) {
    && OutsideWindow(2, 0, before, c, 1, 0) && LeadsOn(c, 1, [], c') && Wf(c'.mon) && |c'.mon.pc| > 0
    && Unsignalled(c'.mon, 0)
  }

  const SPINS := By(Spinning, None)

  /** The receiver spins in its wait. */
  ghost predicate InSpin<M>(ops: seq<Op<M>>, c: Chan<M>) {
    && FromInit(ops, c) && Sized(c) && c.cl == [RecvWaiting(SPINS), Idle] && c.mon.pc[1].Out? && c.handles == [0, 1]
    && c.senderCount == 1 && c.mon.pc[0].CvSpin? && c.mon.pc[0].id !in c.mon.rt.flags
  }

  lemma ComesToSpin<M>() returns (ops: seq<Op<M>>, c: Chan<M>)
    ensures InSpin(ops, c)
  {
    hide BeforeDrop, AboutToWait, Runs, Outcome, Channel.Init;
    var first, c1 := ComesToFirstWait<M>(SPINS);
    IsFromInit(first, c1, SPINS);
    var more := ComesToWait(c1, 0, SPINS);
    OutcomeConcat(Channel.Init<M>(2, 0), first, more);
    ops := first + more;
    c := Outcome(c1, more);
  }

  lemma DropsWhileSpinning<M>(c: Chan<M>)
    requires Sized(c) && c.cl == [RecvWaiting(SPINS), Idle] && c.mon.pc[1].Out? && c.handles == [0, 1]
    requires c.senderCount == 1 && c.mon.pc[0].CvSpin? && c.mon.pc[0].id !in c.mon.rt.flags
    ensures Can(c, DropSender(1)) && Sized(Next(c, DropSender(1))) && Can(Next(c, DropSender(1)), Act(1, SyncBlock))
    ensures var d := Next(Next(c, DropSender(1)), Act(1, SyncBlock));
            && Sized(d) && d.senderCount == 0 && d.cl == [RecvWaiting(SPINS), LastReturn]
            && d.mon.pc == [c.mon.pc[0], NSpins(true, false)] && d.mon.rt == c.mon.rt
  {
    hide Next, Can;
    DropBegins(c, 1);
    SizedStep(c, DropSender(1));
  }

  /** The drop of the last sender begins. */
  lemma DropMeetsWait<M>() returns (before: seq<Op<M>>, c: Chan<M>)
    ensures OutsideWindow(2, 0, before, c, 1, 0) && Sized(c) && |c.cl| == 2
    ensures c.mon.pc[1] == NSpins(true, false) && c.mon.pc[0].CvSpin? && c.mon.pc[0].id !in c.mon.rt.flags
  {
    hide Runs, Outcome, Channel.Init, Next, Can;
    var c0 := Channel.Init<M>(2, 0);
    var ops, c1 := ComesToSpin<M>();
    DropsWhileSpinning(c1);
    before := Then(c0, ops, DropSender(1));
    before := Then(c0, before, Act(1, SyncBlock));
    c := Outcome(c0, before);
  }

  lemma WakefulIsReached<M>()
    ensures exists before, c: Chan<M>, c' :: Wakeful(before, c, c')
  {
    hide OutsideWindow, Runs, Outcome, Next, Apply;
    var before, c := DropMeetsWait<M>();
    TakesFlag(c);
    Nothing(c);
    var last := Then(c, [], Inner(Go(1)));
    assert last == [Inner(Go(1))] + [];
    assert Wakeful(before, c, Outcome(c, last));
  }

  lemma IsFromInit<M>(before: seq<Op<M>>, c: Chan<M>, k: Kind)
    requires FirstWait(before, c, k)
    ensures FromInit(before, c) && c.senderCount == 1
  {
  }

  lemma TakesFlag<M>(d: Chan<M>)
    requires Sized(d) && |d.cl| == 2 && d.mon.pc[1] == NSpins(true, false) && d.mon.pc[0].CvSpin?
    requires d.mon.pc[0].id !in d.mon.rt.flags
    ensures Can(d, Inner(Go(1))) && Sized(Next(d, Inner(Go(1)))) && Unsignalled(Next(d, Inner(Go(1))).mon, 0)
  {
  }

  // ------------------------------------------------------------ a message in the queue

  /** A message can be lost: a receive of the kind is about to wait with an old entry in its way. */
  lemma LossIsReached<M>(k: Kind, m: M)
    requires k.By? && (k.how.Tasking? || (k.how.Blocking? && k.dl.Some?)) && (k.dl.Some? ==> k.dl.value > 0)
    ensures exists before, c, ops :: AboutToWait<M>(2, 0, before, c, 0, k, 1) && Sized(c) && |c.cl| > 0
                                     && Loses(c, 0, ops)
  {
    hide BeforeDrop, AboutToWait, Loses, Unhindered, Runs, Outcome;
    var before, c := ComesToFirstWait<M>(PLAIN);
    OldEntryIsReached(2, 0, before, c, 0, k, 1, m);
    var ops, d :| LeavesOld(2, 0, before, 0, k, 1, ops, d);
    LosesIffHindered(2, 0, before + ops, d, 0, k, 1, m);
    var loses :| Loses(d, 0, loses);
    assert AboutToWait(2, 0, before + ops, d, 0, k, 1);
  }

  /** `recv_block` has come to its park in an orderly run. */
  ghost predicate Parked<M>(ops: seq<Op<M>>, c: Chan<M>) {
    && Reached(2, 0, ops, c) && FromInit(ops, c) && Sized(c) && c.cl == [RecvWaiting(PLAIN), Idle]
    && c.mon.pc == [CvPark(SyncBlock), Out] && Unsignalled(c.mon, 0) && !c.mon.lock.held && c.active
    && c.handles == [0, 1] && c.mon.cond.threads == [0] && c.mon.cond.spins == [] && OnlyKind(ops, PLAIN)
    && c.mon.lock.value == []
  }

  lemma ComesToPark<M>() returns (ops: seq<Op<M>>, c: Chan<M>)
    ensures Parked(ops, c)
  {
    hide BeforeDrop, AboutToWait, Runs, Outcome, Channel.Init, Reached;
    var c0 := Channel.Init<M>(2, 0);
    var before, c1 := ComesToFirstWait<M>(PLAIN);
    IsFromInit(before, c1, PLAIN);
    var more := ComesToWait(c1, 0, PLAIN);
    OutcomeConcat(c0, before, more);
    ops := before + more;
    c := Outcome(c1, more);
    KindsAreOrderly(2, 0, ops, true);
  }

  /** The state of `NoLostMessage` is reached: a message is queued and the receiver not yet signalled. */
  lemma UnsignalledIsReached<M>(m: M)
    ensures exists ops, c :: Reached<M>(2, 0, ops, c) && Sized(c) && |c.cl| > 0 && Unsignalled(c.mon, 0)
                             && c.mon.lock.value == [m]
  {
    hide Runs, Outcome, Channel.Init, Reached;
    var ops, c := ComesToPark<M>();
    var more := SendLocks(c, 1, m);
    var c1 := Outcome(c, more);
    var push := SendPushes(c1, 1, m, |c.log.pushed|);
    OutcomeConcat(c, more, push);
    OutcomeConcat(Channel.Init<M>(2, 0), ops, more + push);
    KindsAreOrderly(2, 0, ops + (more + push), true);
    assert Reached(2, 0, ops + (more + push), Outcome(c1, push));
  }

  /** The state of `OldestIsDelivered` is reached: the send is over, and the receive has its message to come. */
  lemma DeliveryIsReached<M>(m: M)
    ensures exists ops, c :: Reached<M>(2, 0, ops, c) && Sized(c) && Quiet(c, 0) && c.mon.lock.value == [m]
                             && InReceive(c, 0, PLAIN)
  {
    hide Runs, Outcome, Channel.Init, Reached;
    var ops, c := ComesToPark<M>();
    var more := SendsAlone(c, 1, m);
    OutcomeConcat(Channel.Init<M>(2, 0), ops, more);
    KindsAreOrderly(2, 0, ops + more, true);
    assert Reached(2, 0, ops + more, Outcome(c, more));
  }

  /** The state of `RestIsDelivered` is reached: a receive is under way and nobody can act. */
  lemma RestIsReached<M>()
    ensures exists ops, c :: Reached<M>(2, 0, ops, c) && Sized(c) && |c.cl| > 0 && !c.cl[0].Idle? && !SomeoneActs(c)
  {
    hide Runs, Outcome, Channel.Init, Reached;
    var ops, c := ComesToPark<M>();
    assert !SomeoneActs(c);
  }
}
