/** Every critical section keeps the invariant. */
module Preserved {
  import opened Lists
  import Budget
  import opened Kernel
  import opened Inheritance
  import opened Chains
  import opened Invariant
  import opened Steps
  import opened MutexSteps

  /** Waiting tasks are neither idle nor the target of a ticket. */
  lemma WaitersAside(k: K)
    requires Inv(k)
    ensures forall t :: 0 <= t < N(k) && k.waitSem[t].Some? ==> t != IDLE && !IsTarget(k, t)
    ensures forall t :: 0 <= t < N(k) && k.waitMtx[t].Some? ==> t != IDLE && !IsTarget(k, t) && Hop(k, t).Some?
    ensures forall t :: 0 <= t < N(k) && k.waitSem[t].Some? ==> k.state[t] == Blocked
    ensures forall t :: 0 <= t < N(k) && k.waitMtx[t].Some? ==> k.state[t] == Blocked && k.waitSem[t].None?
  {
    hide Placed, WaitSorted, Ledger, Effective, Acyclic, Calls, Locks, Quotas;
  }

  /** A semaphore's queue holds exactly the tasks that wait for it. */
  lemma SemQueue(k: K, s: nat, x: nat)
    requires Core(k) && s < |k.count| && x < N(k)
    ensures k.waitSem[x] == Some(s) <==> x in k.q[SemList(k, s)]
  {
    hide WaitSorted, Ledger, Effective, Acyclic, Rehome;
    assert x in k.q[SemList(k, s)] <==> Homes(k)[x] == Some(SemList(k, s));
  }

  // ---- Semaphores -----------------------------------------------------------------------------

  lemma ReleaseSemSide(k: K, s: nat)
    requires Inv(k) && s < |k.count|
    ensures Side(ReleaseSem(k, s))
  {
    hide Mid, Effective, Acyclic, Homes, Owners, Calls, Hart, Locks, Quotas, HandedOff, Reasons;
    WaitersAside(k);
    var l := SemList(k, s);
    if k.q[l] == [] {
      forall x | 0 <= x < N(k) ensures k.waitSem[x] != Some(s) {
        SemQueue(k, s, x);
      }
    } else {
      SemQueue(k, s, k.q[l][0]);
      var r, w := ReleaseSem(k, s), k.q[l][0];
      WokenSide(k, r, w);
    }
  }

  lemma CallsWoken(call: seq<Call>, state: seq<Status>, waitSem: seq<Option<nat>>, waitMtx: seq<Option<nat>>,
                   granted: seq<bool>, grantSem: seq<Option<nat>>, grantMtx: seq<Option<nat>>, w: nat, g: bool)
    requires Calls(call, state, waitSem, waitMtx, granted, grantSem, grantMtx) && w < |state| && waitSem[w].Some? && state[w] == Blocked
    ensures Calls(call, state[w := Ready], waitSem[w := None], waitMtx, granted[w := g],
                  grantSem[w := if g then waitSem[w] else None], grantMtx)
  {
  }

  /** A waiting task became Ready, with or without a semaphore grant; nothing else changed. */
  lemma WokenSide(k: K, r: K, w: nat)
    requires Side(k) && Sized(r) && N(r) == N(k) && w < N(k) && w != IDLE && k.waitSem[w].Some? && k.state[w] == Blocked
    requires r.state == k.state[w := Ready] && r.waitSem == k.waitSem[w := None] && r.waitMtx == k.waitMtx
    requires r.grantMtx == k.grantMtx && r.owner == k.owner && r.depth == k.depth && r.count == k.count && r.call == k.call
    requires r.granted == k.granted[w := r.granted[w]] && r.grantSem == k.grantSem[w := if r.granted[w] then k.waitSem[w] else None]
    requires r.current == k.current && r.pending == k.pending && r.ident == k.ident && r.nextSeq == k.nextSeq && r.lastSeq == k.lastSeq
    requires r.lockDepth == k.lockDepth && r.lockStart == k.lockStart && r.budget == k.budget
    ensures Side(r)
  {
    hide Owners, Calls, Hart, Locks, Quotas, HandedOff;
    CallsWoken(k.call, k.state, k.waitSem, k.waitMtx, k.granted, k.grantSem, k.grantMtx, w, r.granted[w]);
    ReadiedSide(k, w);
  }

  /** The parts of the invariant that only ask who is Ready. */
  lemma ReadiedSide(k: K, t: nat)
    requires Side(k) && t < N(k) && t != IDLE && k.state[t] != Running
    ensures Owners(k.owner, k.depth, k.state[t := Ready], k.waitMtx)
    ensures Hart(k.state[t := Ready], k.current, k.pending, k.ident, k.nextSeq, k.lastSeq)
    ensures Locks(k.state[t := Ready], k.current, k.lockDepth, k.lockStart, k.budget)
    ensures Quotas(k.state[t := Ready], k.budget)
  {
    hide Owners, Calls, Hart, Locks, Quotas, HandedOff, Dry, Reasons;
    OwnersState(k.owner, k.depth, k.state, k.waitMtx, t, Ready);
    HartReadied(k.state, k.current, k.pending, k.ident, k.nextSeq, k.lastSeq, t);
    LocksState(k.state, k.current, k.lockDepth, k.lockStart, k.budget, t, Ready);
    QuotasState(k.state, k.budget, t, Ready);
  }

  lemma ReleaseSemKeeps(k: K, s: nat)
    requires Inv(k) && s < |k.count|
    ensures Inv(ReleaseSem(k, s))
  {
    hide Core, Side, ReleaseSem;
    WaitersAside(k);
    ReleaseSemCore(k, s);
    ReleaseSemSide(k, s);
  }

  lemma LeaveSemKeeps(k: K, t: nat)
    requires Inv(k) && t < N(k) && k.waitSem[t].Some?
    ensures Inv(LeaveSem(k, t))
  {
    hide Mid, Effective, Acyclic, Homes;
    WaitersAside(k);
    LeaveSemCore(k, t);
    WokenSide(k, LeaveSem(k, t), t);
  }

  // ---- Leaving the hart ---------------------------------------------------------------------------

  /** The current task runs user code: only then does it start an operation. */
  ghost predicate InUserCode(k: K) {
    Sized(k) && k.state[k.current] == Running && k.call[k.current] == User
  }

  /** `c` has left the running state and no ticket exists yet. */
  ghost predicate Leaving(state: seq<Status>, c: nat, pending: Option<Ticket>, ident: seq<nat>, nextSeq: nat, lastSeq: nat) {
    && |ident| == |state| && c < |state| && IDLE < |state| && c != IDLE
    && state[IDLE] == Ready && state[c] !in {Ready, Running}
    && (forall t :: 0 <= t < |state| ==> state[t] != Running)
    && pending.None? && lastSeq == nextSeq
  }

  lemma HartLeaves(state: seq<Status>, c: nat, pending: Option<Ticket>, ident: seq<nat>, nextSeq: nat, lastSeq: nat, s: Status, id: nat)
    requires Hart(state, c, pending, ident, nextSeq, lastSeq) && state[c] == Running && c != IDLE && s !in {Ready, Running}
    ensures Leaving(state[c := s], c, pending, ident[c := id], nextSeq, lastSeq)
    ensures Leaving(state[c := s], c, pending, ident, nextSeq, lastSeq)
  {
  }

  lemma HartTicket(state: seq<Status>, c: nat, ident: seq<nat>, nextSeq: nat, target: nat)
    requires |ident| == |state| && c < |state| && IDLE < |state| && state[IDLE] == Ready
    requires forall t :: 0 <= t < |state| ==> state[t] != Running
    requires target < |state| && target != c && state[target] == Ready
    ensures Hart(state, c, Some(Ticket(nextSeq + 1, c, ident[c], target, ident[target])), ident, nextSeq + 1, nextSeq)
  {
  }

  /** Leaving the hart always commits exactly one ticket, whose target is the most urgent
      ready task, or idle. */
  lemma SwitchAwaySide(k: K)
    requires Core(k) && Rest(k) && Leaving(k.state, k.current, k.pending, k.ident, k.nextSeq, k.lastSeq)
    ensures Side(SwitchAway(k))
  {
    hide Mid, Effective, Acyclic, PopReady, Owners, Calls, Locks, Quotas, HandedOff, Dry, Reasons, Homes, Hart;
    PoppedIs(k);
    HartTicket(k.state, k.current, k.ident, k.nextSeq, PopReadyOrIdle(k).1);
  }

  lemma SwitchAwayKeeps(k: K)
    requires Core(k) && Rest(k) && Leaving(k.state, k.current, k.pending, k.ident, k.nextSeq, k.lastSeq)
    ensures Inv(SwitchAway(k))
  {
    hide Core, Rest, Side, SwitchAway;
    SwitchAwayCore(k);
    SwitchAwaySide(k);
  }

  /** A running task waits for nothing, holds no unconsumed grant in user code, and no ticket
      is pending. */
  lemma RunningFacts(k: K)
    requires Inv(k) && k.state[k.current] == Running
    ensures k.pending.None? && k.waitSem[k.current].None? && k.waitMtx[k.current].None?
    ensures k.call[k.current] == User ==> !k.granted[k.current] && k.grantSem[k.current].None? && k.grantMtx[k.current].None?
  {
    hide Placed, WaitSorted, Ledger, Effective, Acyclic, Owners, Locks, Quotas, HandedOff, Dry;
  }

  lemma CallsBlocked(call: seq<Call>, state: seq<Status>, waitSem: seq<Option<nat>>, waitMtx: seq<Option<nat>>,
                     granted: seq<bool>, grantSem: seq<Option<nat>>, grantMtx: seq<Option<nat>>, c: nat, x: nat)
    requires Calls(call, state, waitSem, waitMtx, granted, grantSem, grantMtx) && c < |state|
    requires !granted[c] && waitSem[c].None? && waitMtx[c].None?
    ensures Calls(call[c := InSemaphore], state[c := Blocked], waitSem[c := Some(x)], waitMtx, granted[c := false], grantSem, grantMtx)
    ensures Calls(call[c := InMutex], state[c := Blocked], waitSem, waitMtx[c := Some(x)], granted[c := false], grantSem, grantMtx)
  {
  }

  lemma SemDownRest(k: K, s: nat, wakeAt: seq<nat>, q: seq<seq<nat>>)
    requires Inv(k) && InUserCode(k) && s < |k.count| && k.count[s] == 0 && k.lockDepth[k.current] == 0
    requires |wakeAt| == N(k) && |q| == |k.q| && AllBelow(q, N(k))
    ensures var c := k.current;
      Rest(k.(state := k.state[c := Blocked], wakeAt := wakeAt, waitSem := k.waitSem[c := Some(s)],
              granted := k.granted[c := false], call := k.call[c := InSemaphore], q := q))
  {
    hide Core, Owners, Calls, Locks, Quotas, HandedOff, Hart;
    var c := k.current;
    RunningFacts(k);
    CallsBlocked(k.call, k.state, k.waitSem, k.waitMtx, k.granted, k.grantSem, k.grantMtx, c, s);
    OwnersState(k.owner, k.depth, k.state, k.waitMtx, c, Blocked);
    LocksState(k.state, k.current, k.lockDepth, k.lockStart, k.budget, c, Blocked);
    QuotasState(k.state, k.budget, c, Blocked);
  }

  lemma SemDownKeeps(k: K, s: nat, patience: Patience, deliverable: bool)
    requires Inv(k) && (deliverable ==> InUserCode(k) && k.current != IDLE) && s < |k.count|
    ensures Inv(SemDown(k, s, patience, deliverable).0)
  {
    hide Mid, Effective, Acyclic, Homes, Owners, Calls, Locks, Quotas, HandedOff, Reasons, SwitchAway, Hart;
    var c, r := k.current, SemDown(k, s, patience, deliverable);
    if r.1.Suspended? {
      var l := SemList(k, s);
      var wakeAt := k.wakeAt[c := if patience.Until? then patience.deadline else 0];
      var q := k.q[l := Insert(k.q[l], c, k.prio)];
      var k1 := k.(state := k.state[c := Blocked], wakeAt := wakeAt, waitSem := k.waitSem[c := Some(s)],
                   granted := k.granted[c := false], call := k.call[c := InSemaphore], q := q);
      SemJoinedCore(k, k1, c, s);
      SemDownRest(k, s, wakeAt, q);
      HartLeaves(k.state, c, k.pending, k.ident, k.nextSeq, k.lastSeq, Blocked, 0);
      SwitchAwayKeeps(k1);
      assert r.0 == SwitchAway(k1);
    } else {
      SameCoreKeeps(k, r.0);
    }
  }

  lemma SleepKeeps(k: K, until: nat)
    requires Inv(k) && InUserCode(k) && k.current != IDLE
    ensures Inv(Sleep(k, until).0)
  {
    hide Mid, Effective, Acyclic, Homes, Owners, Calls, Locks, Quotas, HandedOff, Reasons, SwitchAway, Hart;
    var c := k.current;
    if k.lockDepth[c] == 0 {
      RunningFacts(k);
      var k1 := k.(state := k.state[c := Sleeping], wakeAt := k.wakeAt[c := until]);
      ParkedCore(k, k1, c);
      OwnersState(k.owner, k.depth, k.state, k.waitMtx, c, Sleeping);
      LocksState(k.state, k.current, k.lockDepth, k.lockStart, k.budget, c, Sleeping);
      QuotasState(k.state, k.budget, c, Sleeping);
      CallsState(k.call, k.state, k.waitSem, k.waitMtx, k.granted, k.grantSem, k.grantMtx, c, Sleeping);
      ReasonsState(k.state, k.waitSem, k.waitMtx, c, Sleeping);
      HartLeaves(k.state, c, k.pending, k.ident, k.nextSeq, k.lastSeq, Sleeping, 0);
      SwitchAwayKeeps(k1);
    }
  }
}
