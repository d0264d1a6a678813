/** Two conditions on the kinds of receives a program uses, either of which keeps every run orderly: no `recv_block`; or
    no timed blocking and no asynchronous receive. */
module ChannelKinds {
  import opened Basics
  import opened Monitor
  import opened MonitorSafety
  import opened MonitorTimed
  import opened Channel
  import opened ChannelSafety
  import opened ChannelDelivery
  import opened ChannelRuns
  import opened ChannelProgress

  /** With `plain`, the receives that block have no limit and none is asynchronous; otherwise none is `recv_block`. */
  predicate Allowed(plain: bool, k: Kind) {
    k.Trying? || k.how.Spinning? || (if plain then k.how.Blocking? && k.dl.None? else k.how.Tasking? || k.dl.Some?)
  }

  predicate HasKind<M>(x: Client<M>) { x.RecvLock? || x.RecvCount? || x.RecvWait? || x.RecvWaiting? }

  ghost predicate KindInv<M>(c: Chan<M>, plain: bool) {
    && ChanInv(c) && (plain || TimedInv(c.mon))
    && forall t :: 0 <= t < |c.cl| && HasKind(c.cl[t]) ==> Allowed(plain, c.cl[t].k)
  }

  lemma KindStays<M>(c: Chan<M>, op: Op<M>, t: Tid)
    requires Sized(c) && Can(c, op) && t < |c.cl| && |Next(c, op).cl| == |c.cl| && HasKind(Next(c, op).cl[t])
    ensures op == Recv(t, Next(c, op).cl[t].k) || (HasKind(c.cl[t]) && Next(c, op).cl[t].k == c.cl[t].k)
  {
    hide Apply, Call;
  }

  /** Without `recv_block` there is no untimed wait on the condition variable. */
  lemma StaysTimed<M>(c: Chan<M>, op: Op<M>)
    requires KindInv(c, false) && Can(c, op) && Underlying(c, op).Some?
    ensures !Untimed(Underlying(c, op).value)
  {
    hide Inv, Apply, TimedInv, Ledger, ClientInv;
  }

  /** A registration finds the list of threads empty. */
  lemma NobodyListed<M>(c: Chan<M>, t: Tid)
    requires KindInv(c, false) && t < |c.cl| && c.cl[t].RecvWait?
    ensures c.mon.cond.threads == []
  {
    hide Inv, Ledger;
    assert ClientInv(c, t);
    forall u | u in c.mon.cond.threads
      ensures IsWaiting(c.mon.pc[u])
    {
      assert u < |c.mon.pc| && Listed(c.mon, u);
    }
    forall u | 0 <= u < |c.cl|
      ensures !IsWaiting(c.mon.pc[u])
    {
      assert ClientInv(c, u);
    }
    HasFirst(c.mon.cond.threads);
  }

  lemma HasFirst(q: seq<nat>)
    ensures q == [] || exists x :: x in q
  {
    if q != [] {
      assert q[0] in q;
    }
  }

  lemma KindStep<M>(c: Chan<M>, op: Op<M>, plain: bool)
    requires KindInv(c, plain) && Can(c, op) && (op.Recv? ==> Allowed(plain, op.k))
    ensures Permitted(c, op) && KindInv(Next(c, op), plain) && |Next(c, op).cl| == |c.cl|
  {
    hide Inv, Apply, TimedInv, Ledger, Call, ClientInv, Turn, Open;
    ChanStep(c, op);
    forall t | 0 <= t < |c.cl| && HasKind(Next(c, op).cl[t])
      ensures Allowed(plain, Next(c, op).cl[t].k)
    {
      KindStays(c, op, t);
    }
    if !plain && Underlying(c, op).Some? {
      StaysTimed(c, op);
      TimedStep(c.mon, Underlying(c, op).value);
    }
    if op.Act? && c.cl[op.t].RecvWait? && !plain {
      NobodyListed(c, op.t);
    }
  }

  lemma {:induction false} KindRun<M>(c: Chan<M>, ops: seq<Op<M>>, plain: bool)
    requires KindInv(c, plain) && Runs(c, ops)
    requires forall i :: 0 <= i < |ops| && ops[i].Recv? ==> Allowed(plain, ops[i].k)
    ensures Orderly(c, ops)
    decreases |ops|
  {
    hide Next, Allowed, Permitted, Inv, TimedInv, Ledger, ClientInv;
    if ops != [] {
      KindStep(c, ops[0], plain);
      KindRun(Next(c, ops[0]), ops[1..], plain);
    }
  }

  /** Every run from a new channel that uses receives of one of the two mixes is orderly, whatever threads own the
      receiver: so `ChannelProgress.NoLostMessage` and `ChannelProgress.OldestIsDelivered` hold of it. */
  lemma KindsAreOrderly<M>(n: nat, first: Tid, ops: seq<Op<M>>, plain: bool)
    requires first < n && Runs(Channel.Init<M>(n, first), ops)
    requires forall i :: 0 <= i < |ops| && ops[i].Recv? ==> Allowed(plain, ops[i].k)
    ensures Reached(n, first, ops, Outcome(Channel.Init<M>(n, first), ops))
  {
    hide KindInv, Next, Allowed, Orderly, Channel.Init;
    KindInit<M>(n, first, plain);
    KindRun(Channel.Init<M>(n, first), ops, plain);
  }

  lemma KindInit<M>(n: nat, first: Tid, plain: bool)
    requires first < n
    ensures KindInv(Channel.Init<M>(n, first), plain)
  {
    hide Inv, Ledger, ClientInv;
    var c := Channel.Init<M>(n, first);
    ChanInit<M>(n, first);
    assert Owed(c.mon) == {};
  }
}
