/** The two arguments every lock of the library rests on, over any machine whose threads have
    program counters of type `P`.

    A waiter list is guarded by "enqueue if busy": an entry is pushed only in a section of the list's
    spinlock that saw the lock busy. A release is "clear, then drain": the releaser first makes the lock free and
    then owes the list a drain. `Covered` says that entries never sit on a free lock that nobody is
    about to drain; `Delivered` says that an entry taken off a list is never dropped. Both are
    stated for one step of thread `t`, from program counters `pc` to `pc'`.
 */
module Handoff {

  /** A nonempty list, or a thread that has found the lock busy and is about to push to it, implies a busy
      lock or a releaser that owes the list a drain. */
  ghost predicate Covered<P>(busy: bool, waiting: bool, pc: seq<P>, owes: P -> bool, pushes: P -> bool) {
    waiting || (exists u :: 0 <= u < |pc| && pushes(pc[u])) ==> busy || exists u :: 0 <= u < |pc| && owes(pc[u])
  }

  /** No thread is between its failed attempt and its push: where the two are one action. */
  predicate Never<P>(p: P) { false }

  /** Only thread `t` moved. */
  ghost predicate Moved<P>(pc: seq<P>, pc': seq<P>, t: nat) {
    t < |pc| && |pc'| == |pc| && forall u :: 0 <= u < |pc| && u != t ==> pc'[u] == pc[u]
  }

  /** The lock may become free between a failed attempt and its push: the push needs only the attempt. */
  lemma CoveredKept<P>(busy: bool, waiting: bool, pc: seq<P>, busy': bool, waiting': bool, pc': seq<P>,
                       owes: P -> bool, pushes: P -> bool, t: nat)
    requires Covered(busy, waiting, pc, owes, pushes) && Moved(pc, pc', t)
    requires pushes(pc'[t]) && !pushes(pc[t]) ==> busy'             // fail only if busy
    requires waiting' ==> waiting || pushes(pc[t]) || busy'         // push only after a failure
    requires busy && !busy' ==> owes(pc'[t])                        // clear before drain
    requires owes(pc[t]) && !owes(pc'[t])                           // a drain takes everything
             ==> !waiting' && forall u :: 0 <= u < |pc'| ==> !pushes(pc'[u])
    ensures Covered(busy', waiting', pc', owes, pushes)
  {
    if !busy' && (waiting' || exists u :: 0 <= u < |pc'| && pushes(pc'[u])) {
      if waiting' && !waiting {
        assert pushes(pc[t]);
      } else if !waiting' {
        var u :| 0 <= u < |pc'| && pushes(pc'[u]);
        assert pushes(pc[u]);
      }
      if busy {
        assert owes(pc'[t]);
      } else {
        var u :| 0 <= u < |pc| && owes(pc[u]);
        assert owes(pc'[u]);
      }
    }
  }

  /** Some thread has taken `x` off a list and has yet to signal it. */
  ghost predicate Due<P>(x: nat, pc: seq<P>, takes: P -> seq<nat>) {
    exists u :: 0 <= u < |pc| && x in takes(pc[u])
  }

  /** Waiter `x` is signalled, listed, or about to be signalled. */
  ghost predicate Delivered<P>(x: nat, signalled: bool, listed: bool, pc: seq<P>, takes: P -> seq<nat>) {
    signalled || listed || Due(x, pc, takes)
  }

  lemma DeliveredKept<P>(x: nat, signalled: bool, listed: bool, pc: seq<P>,
                         signalled': bool, listed': bool, pc': seq<P>, takes: P -> seq<nat>, t: nat)
    requires Delivered(x, signalled, listed, pc, takes) && Moved(pc, pc', t)
    requires signalled ==> signalled'
    requires listed && !listed' ==> signalled' || x in takes(pc'[t])
    requires x in takes(pc[t]) && x !in takes(pc'[t]) ==> signalled'
    ensures Delivered(x, signalled', listed', pc', takes)
  {
    if !signalled' && !listed' {
      if listed {
        assert x in takes(pc'[t]);
      } else {
        var u :| 0 <= u < |pc| && x in takes(pc[u]);
        assert x in takes(pc'[u]);
      }
    }
  }
}
