/** What becomes of the value of a send: it is pushed, or handed back in `SendError`, never both. */
module ChannelSends {
  import opened Basics
  import opened Monitor
  import opened Channel
  import opened ChannelRuns

  /** The client still has to push `m` or to hand it back. */
  predicate Unsettled<M(==)>(x: Client<M>, m: M) {
    (x.SendCheck? || x.SendLock? || x.SendPush? || x.RejectUnlock? || x.RejectReturn?) && x.m == m
  }

  /** How many do. */
  function Held<M(==)>(cl: seq<Client<M>>, m: M): nat {
    if cl == [] then 0 else Bit(Unsettled(cl[0], m)) + Held(cl[1..], m)
  }

  lemma {:induction false} HeldUpdate<M>(cl: seq<Client<M>>, t: nat, x: Client<M>, m: M)
    requires t < |cl|
    ensures Held(cl[t := x], m) + Bit(Unsettled(cl[t], m)) == Held(cl, m) + Bit(Unsettled(x, m))
  {
    if t == 0 {
      assert cl[0 := x][1..] == cl[1..];
    } else {
      HeldUpdate(cl[1..], t - 1, x, m);
      assert cl[t := x][1..] == cl[1..][t - 1 := x];
    }
  }

  lemma {:induction false} NoneHeld<M>(cl: seq<Client<M>>, m: M)
    requires forall t :: 0 <= t < |cl| ==> cl[t].Idle?
    ensures Held(cl, m) == 0
  {
    if cl != [] {
      NoneHeld(cl[1..], m);
    }
  }

  /** `m` as often as it was given to a send has been pushed, has been handed back, or is still with its
      send. */
  ghost predicate Accounted<M>(c: Chan<M>, m: M) {
    multiset(c.log.begun)[m] == multiset(c.log.pushed)[m] + multiset(c.log.rejected)[m] + Held(c.cl, m)
  }

  /** One turn of an operation settles its value at most once. */
  ghost predicate Settles<M>(c: Chan<M>, d: Chan<M>, t: Tid, m: M) {
    && t < |c.cl| && t < |d.cl| && d.cl == c.cl[t := d.cl[t]]
    && d.log.begun == c.log.begun
    && (if d.log.pushed == c.log.pushed && d.log.rejected == c.log.rejected
        then Unsettled(d.cl[t], m) == Unsettled(c.cl[t], m)
        else !Unsettled(d.cl[t], m)
             && (|| (d.log.pushed == c.log.pushed + [Value(c.cl[t], m)] && d.log.rejected == c.log.rejected)
                 || (d.log.rejected == c.log.rejected + [Value(c.cl[t], m)] && d.log.pushed == c.log.pushed))
             && (Value(c.cl[t], m) == m) == Unsettled(c.cl[t], m))
  }

  function Value<M>(x: Client<M>, m: M): M {
    if x.SendCheck? || x.SendPush? || x.RejectReturn? then x.m else m
  }

  lemma TurnSettles<M>(c: Chan<M>, t: Tid, m: M)
    requires Sized(c) && t < |c.cl| && CallDone(c.cl[t], c.mon.pc[t])
    ensures Settles(c, Turn(c, t), t, m)
  {
  }

  lemma SettlingAccounts<M>(c: Chan<M>, d: Chan<M>, t: Tid, m: M)
    requires Settles(c, d, t, m) && Accounted(c, m)
    ensures Accounted(d, m)
  {
    HeldUpdate(c.cl, t, d.cl[t], m);
  }

  /** The start of an operation: a send has its value in hand. */
  lemma OpenGives<M>(c: Chan<M>, op: Op<M>, m: M)
    requires Sized(c) && Can(c, op) && !op.Act? && !op.Inner?
    ensures var d := Open(c, op);
            && op.t < |c.cl| && d.cl == c.cl[op.t := d.cl[op.t]]
            && d.log.pushed == c.log.pushed && d.log.rejected == c.log.rejected
            && d.log.begun == c.log.begun + (if op.Send? then [op.m] else [])
            && !Unsettled(c.cl[op.t], m) && Unsettled(d.cl[op.t], m) == (op.Send? && op.m == m)
  {
    hide Underlying;
  }

  lemma OpenAccounts<M>(c: Chan<M>, op: Op<M>, m: M)
    requires Sized(c) && Can(c, op) && !op.Act? && !op.Inner? && Accounted(c, m)
    ensures Accounted(Open(c, op), m)
  {
    hide Can, Open;
    OpenGives(c, op, m);
    HeldUpdate(c.cl, op.t, Open(c, op).cl[op.t], m);
  }

  lemma AccountedStep<M>(c: Chan<M>, op: Op<M>, m: M)
    requires Sized(c) && Can(c, op) && Accounted(c, m)
    ensures Accounted(Next(c, op), m)
  {
    hide Turn, Open, Apply;
    if op.Act? {
      TurnSettles(c, op.t, m);
      SettlingAccounts(c, Turn(c, op.t), op.t, m);
    } else if !op.Inner? {
      OpenAccounts(c, op, m);
    }
  }

  lemma {:induction false} AccountedRun<M>(c: Chan<M>, ops: seq<Op<M>>, m: M)
    requires Sized(c) && Runs(c, ops) && Accounted(c, m)
    ensures Accounted(Outcome(c, ops), m)
    decreases |ops|
  {
    hide Next, Can, Accounted;
    if ops != [] {
      SizedStep(c, ops[0]);
      AccountedStep(c, ops[0], m);
      AccountedRun(Next(c, ops[0]), ops[1..], m);
    }
  }

  /** A value handed back in `SendError` is in neither the log nor the queue. In every reachable state the
      values of all sends begun are, each as often as it was sent, the values received, queued, handed back
      and still with their sends; so a value that was given to one send only is in one of these places. */
  lemma HandedBackIsNotQueued<M>(n: nat, first: Tid, ops: seq<Op<M>>, m: M)
    requires first < n && Runs(Channel.Init<M>(n, first), ops)
    ensures var c := Outcome(Channel.Init<M>(n, first), ops);
            && multiset(c.log.begun)[m] == multiset(c.log.received)[m] + multiset(c.mon.lock.value)[m]
                                           + multiset(c.log.rejected)[m] + Held(c.cl, m)
            && (m in c.log.rejected && multiset(c.log.begun)[m] == 1
                ==> m !in c.log.received && m !in c.mon.lock.value && Held(c.cl, m) == 0)
  {
    var c0 := Channel.Init<M>(n, first);
    NoneHeld(c0.cl, m);
    AccountedRun(c0, ops, m);
    Conservation(n, first, ops);
    var c := Outcome(c0, ops);
    assert m in c.log.rejected <==> m in multiset(c.log.rejected);
    assert m in c.log.received <==> m in multiset(c.log.received);
    assert m in c.mon.lock.value <==> m in multiset(c.mon.lock.value);
  }
}
