/** The audit on states the scheduler can actually be in. */
module AuditMeets {
  import opened Lists
  import opened Kernel
  import opened Inheritance
  import opened Links
  import opened Invariant
  import opened Audit
  import opened Runs

  /** What the audit sees of a started scheduler with these links. */
  function SnapshotOf(k: K, next: seq<nat>, head: seq<nat>, tail: seq<nat>): (s: Snapshot)
    requires Sized(k) && |next| == N(k) && |head| == |tail| == |k.q|
    ensures Shaped(s)
  {
    Snapshot(k.state, next, k.prio, k.ident, head[..LEVELS], tail[..LEVELS], k.current,
             match k.pending
             case None => None
             case Some(ticket) => Some(Switch(ticket.previous, Target(ticket.target, ticket.targetIdent))),
             true)
  }

  /** Where each ready task is, leaving the wait queues out. */
  ghost function ReadyHomes(k: K): (home: seq<Option<nat>>)
    requires Sized(k)
    ensures |home| == N(k)
    ensures forall t :: 0 <= t < N(k) ==> home[t] == if k.state[t] == Ready then Home(k, t) else None
  {
    seq(N(k), t requires 0 <= t < N(k) => if k.state[t] == Ready then Home(k, t) else None)
  }

  lemma ReadySpelled(k: K, next: seq<nat>, head: seq<nat>, tail: seq<nat>)
    requires Core(k) && |next| == N(k) && |head| == |tail| == |k.q| && Linked(next, head, tail, k.q)
    ensures Spelled(SnapshotOf(k, next, head, tail), k.q[..LEVELS], ReadyHomes(k))
  {
    hide WaitSorted, Ledger, Effective, Acyclic, Chain;
    var s, q, home := SnapshotOf(k, next, head, tail), k.q[..LEVELS], ReadyHomes(k);
    forall l, i | 0 <= l < |q| && 0 <= i < |q[l]| ensures q[l][i] < |home| && home[q[l][i]] == Some(l) {
      assert Homes(k)[k.q[l][i]] == Some(l);
    }
    forall t | 0 <= t < |home| && home[t].Some? ensures home[t].value < |q| && t in q[home[t].value] {
      assert Homes(k)[t] == home[t];
    }
  }

  /** In every reachable state the audit is clean, except between the timer throttling the
      running task and the trap: there nobody runs and no ticket is pending, and it says so. */
  lemma AuditOfReachable(k: K, next: seq<nat>, head: seq<nat>, tail: seq<nat>)
    requires Inv(k) && |next| == N(k) && |head| == |tail| == |k.q| && Linked(next, head, tail, k.q)
    ensures Sound(SnapshotOf(k, next, head, tail)) <==> k.pending.Some? || k.state[k.current] == Running
  {
    hide Mid, Effective, Acyclic, Rest, Linked, Spelled;
    var s := SnapshotOf(k, next, head, tail);
    ReadySpelled(k, next, head, tail);
    forall t | 0 <= t < N(k) ensures OwnedBy(s, t, ReadyHomes(k)[t].Some?) {
    }
    assert AllOwned(s, ReadyHomes(k));
  }
}
