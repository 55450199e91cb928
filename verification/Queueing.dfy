/** The order of ready buckets and wait queues, step by step: whoever keeps state and priority keeps
    its turn, and whoever comes in stands behind all that are at least as urgent. */
module Queueing {
  import opened Lists
  import Budget
  import opened Kernel
  import opened Inheritance
  import opened Chains
  import opened Invariant
  import opened Steps
  import opened MutexSteps
  import opened Preserved
  import opened PreservedMutex
  import opened PreservedHart
  import opened Runs
  import opened Locking
  import opened Wakeups
  import opened SchedFacts
  import opened Waits
  import opened Order

  /** Who has another state or priority. */
  ghost function Changed(k: K, r: K): set<nat>
    requires Sized(k) && Sized(r) && N(r) == N(k)
  {
    set x: nat | x < N(k) && (r.prio[x] != k.prio[x] || r.state[x] != k.state[x])
  }

  /** Only changed tasks, and those in `also`, lose or gain a place. */
  ghost predicate Turns(k: K, r: K, also: set<nat>) {
    Sized(k) && Sized(r) && N(r) == N(k) && InOrder(k, r, Changed(k, r) + also)
  }

  /** Everybody in a list, each at its place. */
  ghost predicate Neat(k: K) {
    Sized(k) && Placed(k.q, Homes(k)) && WaitSorted(k.q, k.prio)
  }

  lemma CoreNeat(k: K)
    requires Core(k)
    ensures Neat(k) && Waiting(k.state, k.waitSem, k.waitMtx)
  {
    hide Placed, WaitSorted, Ledger, Effective, Acyclic, Waiting;
  }

  lemma Apart(k: K, t: nat)
    requires Neat(k) && t < N(k)
    ensures forall l :: 0 <= l < |k.q| ==> NoDup(k.q[l])
    ensures forall l :: 0 <= l < |k.q| && Home(k, t) != Some(l) ==> t !in k.q[l]
    ensures Listed(k, t) <==> Home(k, t).Some?
  {
    hide WaitSorted;
    PlacedDistinct(k.q, Homes(k), t);
    assert Homes(k)[t].Some? ==> t in k.q[Homes(k)[t].value];
  }

  lemma Unlisted(k: K, t: nat)
    requires Neat(k) && t < N(k)
    ensures k.state[t] == Running && k.waitSem[t].None? && k.waitMtx[t].None? ==> !Listed(k, t)
    ensures k.state[t] == Ready && (t == IDLE || IsTarget(k, t)) ==> !Listed(k, t)
  {
    hide Placed, WaitSorted;
    Apart(k, t);
  }

  // ---- Moves of one task ----------------------------------------------------------------------------------

  /** A task in no list becomes ready. */
  lemma ReadyOrder(k: K, t: nat)
    requires Sized(k) && t < N(k) && !Listed(k, t) && forall l :: 0 <= l < |k.q| ==> NoDup(k.q[l])
    ensures InOrder(k, MakeReady(k, t), {t})
  {
    hide InOrder, NoDup;
    forall l | 0 <= l < |k.q| ensures t !in k.q[l] {
      assert t in k.q[l] ==> Listed(k, t);
    }
    MoveOrder(k, MakeReady(k, t), t, if t != IDLE then Some(k.prio[t]) else None);
  }

  /** The picked task leaves its bucket. */
  lemma PopOrder(k: K)
    requires Core(k) && PopReady(k).1.Some?
    ensures InOrder(k, PopReady(k).0, {PopReady(k).1.value})
  {
    hide InOrder, PopReady, Ledger, Effective, Acyclic, Waiting;
    PoppedIs(k);
    CoreNeat(k);
    var x := PopReady(k).1.value;
    Apart(k, x);
    MoveOrder(k, PopReady(k).0, x, None);
  }

  /** A waiter leaves its queue for its bucket. */
  lemma WokenOrder(k: K, r: K, t: nat, l: nat)
    requires Neat(k) && Sized(r) && N(r) == N(k) && r.prio == k.prio && t < N(k) && LEVELS <= l < |k.q| && Home(k, t) == Some(l) && t != IDLE
    requires var q := k.q[l := Without(k.q[l], t)]; r.q == q[k.prio[t] := q[k.prio[t]] + [t]]
    ensures InOrder(k, r, {t})
  {
    hide InOrder, WaitSorted;
    Apart(k, t);
    MoveOrder(k, r, t, Some(k.prio[t]));
  }

  /** A task in no list joins a wait queue. */
  lemma JoinOrder(k: K, r: K, t: nat, l: nat)
    requires Neat(k) && Sized(r) && N(r) == N(k) && r.prio == k.prio && t < N(k) && LEVELS <= l < |k.q| && Home(k, t).None?
    requires r.q == k.q[l := Insert(k.q[l], t, k.prio)]
    ensures InOrder(k, r, {t})
  {
    hide InOrder;
    Apart(k, t);
    assert Sorted(k.q[l], k.prio);
    MoveOrder(k, r, t, Some(l));
  }

  /** Lists stay as they are. */
  lemma StillOrder(k: K, r: K, t: nat)
    requires Neat(k) && Sized(r) && N(r) == N(k) && r.q == k.q && t < N(k) && !Listed(k, t)
    requires forall x :: 0 <= x < N(k) && x != t ==> r.prio[x] == k.prio[x]
    ensures InOrder(k, r, {t})
  {
    hide InOrder, WaitSorted;
    Apart(k, t);
    MoveOrder(k, r, t, None);
  }

  // ---- Semaphores ----------------------------------------------------------------------------------------------

  lemma ReleaseSemTurns(k: K, s: nat)
    requires Inv(k) && s < |k.count|
    ensures Turns(k, ReleaseSem(k, s), {})
  {
    hide Core, Side, InOrder, Neat;
    var (r, l) := (ReleaseSem(k, s), SemList(k, s));
    InvCore(k);
    CoreNeat(k);
    if k.q[l] == [] {
      SameOrder(k, r);
      assert Changed(k, r) == {};
      assert Changed(k, r) + {} == {};
    } else {
      var w := k.q[l][0];
      FirstWaiter(k, l);
      SemQueue(k, s, w);
      WaitersAside(k);
      assert Homes(k)[w] == Home(k, w);
      WokenOrder(k, r, w, l);
      assert Changed(k, r) + {} == {w};
    }
  }

  lemma LeaveSemTurns(k: K, t: nat)
    requires Inv(k) && t < N(k) && k.waitSem[t].Some?
    ensures Turns(k, LeaveSem(k, t), {})
  {
    hide Core, Side, InOrder, Neat;
    InvCore(k);
    CoreNeat(k);
    WaitersAside(k);
    var r := LeaveSem(k, t);
    WokenOrder(k, r, t, SemList(k, k.waitSem[t].value));
    assert Changed(k, r) + {} == {t};
  }

  // ---- Mutexes ----------------------------------------------------------------------------------------------

  lemma DequeuedOrder(k: K, t: nat)
    requires Core(k) && t < N(k) && Hop(k, t).Some?
    ensures InOrder(k, Dequeued(k, t), {t}) && Dequeued(k, t).prio == k.prio
    ensures var o := Hop(k, t).value; Effective(k.base[o], Dequeued(k, t).inh[o]) >= k.prio[o]
  {
    hide InOrder, Placed, WaitSorted, Ledger, Effective, Acyclic;
    CoreNeat(k);
    Apart(k, t);
    DequeuedMid(k, t);
    MoveOrder(k, Dequeued(k, t), t, None);
    var o := Hop(k, t).value;
    assert Priced(k, o);
    DonationLeaves(k.base[o], k.inh[o], k.prio[t]);
  }

  /** Leaving the queue and taking the donation back: the owners on the chain sink. */
  lemma WithdrawOrder(k: K, t: nat) returns (k1: K)
    requires Core(k) && t < N(k) && Hop(k, t).Some?
    ensures k1 == Withdraw(k, t, k.waitMtx[t].value) && N(k1) == N(k) && Sinks(k, k1)
    ensures InOrder(k, k1, Repricings(k, k1) + {t}) && k1.prio[t] == k.prio[t]
    ensures !Listed(k1, t) && forall l :: 0 <= l < |k1.q| ==> NoDup(k1.q[l])
  {
    hide InOrder, Placed, WaitSorted, Ledger, Effective, Acyclic, Refresh, Mid, Settled;
    var g := ShortChains(Edges(k));
    var k0, o, don, home := Dequeued(k, t), Hop(k, t).value, Edges(k)[t := None], Homes(k)[t := None];
    DequeuedOrder(k, t);
    DequeuedRefreshable(k, t, g);
    RefreshKeeps(k0, o, N(k), g, don, home);
    RefreshOrder(k0, o, N(k), g, don, home);
    k1 := Refresh(k0, o, N(k));
    assert k1 == Withdraw(k, t, k.waitMtx[t].value);
    assert k1.prio[t] == k0.prio[t];
    OrderChain(k, k0, k1, {t}, Repricings(k0, k1));
    assert {t} + Repricings(k0, k1) == Repricings(k, k1) + {t};
    MidApart(k1, don, Rehome(home, k1.prio), t);
  }

  lemma MidApart(k: K, don: seq<Option<nat>>, home: seq<Option<nat>>, t: nat)
    requires Mid(k, don, home) && t < N(k) && home[t].None?
    ensures !Listed(k, t) && forall l :: 0 <= l < |k.q| ==> NoDup(k.q[l])
  {
    hide WaitSorted, Ledger, Waiting;
    PlacedDistinct(k.q, home, t);
  }

  lemma LeaveMtxTurns(k: K, t: nat)
    requires Inv(k) && t < N(k) && k.waitMtx[t].Some?
    ensures Turns(k, LeaveMtx(k, t), {}) && Sinks(k, LeaveMtx(k, t))
  {
    hide Core, Side, InOrder, Withdraw, NoDup;
    InvCore(k);
    WaitersAside(k);
    var k1 := WithdrawOrder(k, t);
    var k2 := k1.(waitMtx := k1.waitMtx[t := None], granted := k1.granted[t := false],
                  grantMtx := k1.grantMtx[t := None], wakeAt := k1.wakeAt[t := 0]);
    var r := LeaveMtx(k, t);
    assert r == MakeReady(k2, t);
    OrderOf(k, k1, k2, Repricings(k, k1) + {t});
    assert Listed(k2, t) ==> Listed(k1, t);
    ReadyOrder(k2, t);
    OrderChain(k, k2, r, Repricings(k, k1) + {t}, {t});
    assert r.prio == k1.prio && r.state == k.state[t := Ready];
    assert Repricings(k, k1) + {t} + {t} == Changed(k, r) + {};
  }

  /** Joining the queue and donating: the owners on the chain rise. */
  lemma EnlistTurns(k: K, m: nat, patience: Patience)
    requires Inv(k) && m < |k.owner| && k.owner[m].Some? && k.state[k.current] == Running
    requires !ChainContains(k, k.owner[m].value, k.current, N(k))
    ensures Turns(k, Enlist(k, m, patience), {})
  {
    hide Core, Side, InOrder, Refresh, Neat, ChainContains, Effective, Mid, Settled, Ledger;
    InvCore(k);
    CoreNeat(k);
    var (q, o) := (Queued(k, m, patience), k.owner[m].value);
    var g := EnlistRefreshable(k, m, patience);
    RefreshOrder(q, o, N(k), g, Edges(q), Homes(q));
    var r := Enlist(k, m, patience);
    assert r == Refresh(q, o, N(k));
    OwnHome(k);
    JoinOrder(k, q, k.current, MtxList(k, m));
    OrderChain(k, q, r, {k.current}, Repricings(q, r));
    assert r.state == k.state[k.current := Blocked];
    assert {k.current} + Repricings(q, r) == Changed(k, r) + {};
  }

  lemma OwnHome(k: K)
    requires Inv(k) && k.state[k.current] == Running
    ensures Home(k, k.current).None? && k.waitSem[k.current].None? && k.waitMtx[k.current].None?
  {
    hide Core, Owners, Calls, HandedOff, Dry, Reasons, Hart, Locks, Quotas;
    WaitersAside(k);
  }

  lemma EnlistRefreshable(k: K, m: nat, patience: Patience) returns (g: seq<nat>)
    requires Core(k) && m < |k.owner| && k.owner[m].Some? && k.state[k.current] == Running
    requires !ChainContains(k, k.owner[m].value, k.current, N(k))
    ensures var (q, o) := (Queued(k, m, patience), k.owner[m].value);
      && N(q) == N(k) && Refreshable(q, o, g, Edges(q), Homes(q)) && g[o] < N(k)
      && Effective(q.base[o], q.inh[o]) <= q.prio[o]
  {
    hide Placed, WaitSorted, Ledger, Effective, Waiting, Home, Refresh, ChainContains, Mid;
    var c, o := k.current, k.owner[m].value;
    QueuedBooks(k, m, patience);
    QueuedMid(k, m, patience);
    ChainContainsExact(k, o, c);
    NewEdgeAcyclic(Edges(k), c, o);
    var q := Queued(k, m, patience);
    g := ShortChains(Edges(q));
    assert forall x :: 0 <= x < N(k) && x != o ==> Priced(k, x) ==> Priced(q, x);
    assert Priced(k, o);
    DonationArrives(k.base[o], k.inh[o], k.prio[c]);
  }

  /** Taking one donation back from a task that waits for nothing. */
  lemma ReleaseOneOrder(k: K, o: nat, ws: seq<nat>, don: seq<Option<nat>>, home: seq<Option<nat>>)
    requires Releasing(k, o, ws, don, home) && ws != []
    ensures var r := RemoveInheritance(k, o, k.prio[ws[0]]); N(r) == N(k) && InOrder(k, r, Repricings(k, r)) && Sinks(k, r)
  {
    hide InOrder, Mid, Refresh, Home, Hop, Refreshable, Priced, Effective;
    var k1 := Drop(k, o, k.prio[ws[0]]);
    var g := ShortChains(Edges(k));
    ReleaseRefreshable(k, o, ws, don, home, g);
    DonationLeaves(k.base[o], k.inh[o], k.prio[ws[0]]);
    PricedIs(k, o);
    RefreshOrder(k1, o, N(k), g, don[ws[0] := None], home);
    var r := Refresh(k1, o, N(k));
    assert Repricings(k1, r) == Repricings(k, r);
    OrderFrom(k1, k, r, Repricings(k, r));
  }

  lemma PricedIs(k: K, o: nat)
    requires Sized(k) && o < N(k) && Priced(k, o)
    ensures k.prio[o] == Effective(k.base[o], k.inh[o])
  {
  }

  lemma {:induction false} ReleaseAllOrder(k: K, o: nat, ws: seq<nat>, don: seq<Option<nat>>, home: seq<Option<nat>>)
    requires Releasing(k, o, ws, don, home)
    ensures Sized(k) && o < N(k) && Below(ws, N(k))
    ensures var r := RemoveAll(k, o, ws); N(r) == N(k) && InOrder(k, r, Repricings(k, r)) && Sinks(k, r)
    decreases |ws|
  {
    hide Releasing, RemoveAll, RemoveInheritance, Home, Hop, InOrder;
    ReleasingFacts(k, o, ws, don, home);
    RemoveAllUnfolds(k, o, ws);
    if ws == [] {
      SameOrder(k, k);
      assert Repricings(k, k) == {};
    } else {
      ReleaseOne(k, o, ws, don, home);
      ReleaseOneOrder(k, o, ws, don, home);
      var k1 := RemoveInheritance(k, o, k.prio[ws[0]]);
      ReleaseAllOrder(k1, o, ws[1..], don[ws[0] := None], Rehome(home, k1.prio));
      SinkThen(k, k1, RemoveAll(k, o, ws));
    }
  }

  lemma SinkThen(k: K, k1: K, r: K)
    requires Sized(k) && Sized(k1) && Sized(r) && N(k1) == N(r) == N(k)
    requires InOrder(k, k1, Repricings(k, k1)) && InOrder(k1, r, Repricings(k1, r)) && Sinks(k, k1) && Sinks(k1, r)
    ensures InOrder(k, r, Repricings(k, r)) && Sinks(k, r)
  {
    hide ListOrder;
    OrderChain(k, k1, r, Repricings(k, k1), Repricings(k1, r));
    assert Repricings(k, k1) + Repricings(k1, r) == Repricings(k, r);
  }

  lemma HandoffStarts(k: K, m: nat, o: nat) returns (k0: K)
    requires Core(k) && m < |k.owner| && k.owner[m] == Some(o) && k.q[MtxList(k, m)] != []
    ensures var ws := k.q[MtxList(k, m)];
      && k0 == k.(q := k.q[MtxList(k, m) := ws[1..]]) && Sized(k0) && InOrder(k, k0, {ws[0]})
      && o < N(k) && ws[0] < N(k) && k.waitMtx[ws[0]] == Some(m)
  {
    hide InOrder, Placed, WaitSorted, Ledger, Effective, Acyclic;
    var l := MtxList(k, m);
    var next := k.q[l][0];
    k0 := k.(q := k.q[l := k.q[l][1..]]);
    FirstWaiter(k, l);
    NobodyWaits(k, m, next);
    CoreNeat(k);
    Apart(k, next);
    assert Homes(k)[next] == Home(k, next);
    MoveOrder(k, k0, next, None);
  }

  /** All donations are taken back: the releasing task and its chain sink. */
  lemma HandoffSinks(k: K, m: nat, o: nat) returns (k2: K)
    requires Core(k) && m < |k.owner| && k.owner[m] == Some(o) && k.q[MtxList(k, m)] != []
    requires forall x :: 0 <= x < N(k) && k.waitMtx[x].Some? ==> x != IDLE && !IsTarget(k, x)
    ensures var (l, next) := (MtxList(k, m), k.q[MtxList(k, m)][0]);
      && next < N(k) && k2 == k.(prio := k2.prio, inh := k2.inh, q := k2.q) && Sized(k2) && Sinks(k, k2)
      && InOrder(k, k2, {next} + Repricings(k, k2)) && !Listed(k2, next) && (forall i :: 0 <= i < |k2.q| ==> NoDup(k2.q[i]))
      && ReleaseMutex(k, m, o) == Grant(k2, m, next).(inh := ReleaseMutex(k, m, o).inh)
  {
    hide Mid, Effective, Acyclic, Home, Hop, Refresh, RemoveInheritance, AddAll, Grant, InOrder, Placed, NoDup;
    var l := MtxList(k, m);
    var ws := k.q[l];
    var k0 := HandoffStarts(k, m, o);
    ReleaseStarts(k, m, o);
    var don, home := Edges(k), Homes(k)[ws[0] := None];
    ReleaseAll(k0, o, ws, don, home);
    ReleaseAllOrder(k0, o, ws, don, home);
    k2 := RemoveAll(k0, o, ws);
    assert k2 == RemoveAll(RemoveInheritance(k0, o, k.prio[ws[0]]), o, ws[1..]);
    forall x | 0 <= x < N(k) ensures Hop(k0, x) == Hop(k, x) {
      RepricedHop(k, k0, x);
    }
    ReleaseEnds(k, k2, m, o);
    MidApart(k2, Undonated(don, ws), Rehome(home, k2.prio), ws[0]);
    OrderChain(k, k0, k2, {ws[0]}, Repricings(k0, k2));
    assert Repricings(k0, k2) == Repricings(k, k2);
  }

  /** The handoff: the head of the queue becomes ready, and the releasing task and its chain sink. */
  lemma ReleaseMutexTurns(k: K, m: nat, o: nat)
    requires Core(k) && m < |k.owner| && k.owner[m] == Some(o)
    requires forall x :: 0 <= x < N(k) && k.waitMtx[x].Some? ==> x != IDLE && !IsTarget(k, x)
    ensures o < N(k) && Turns(k, ReleaseMutex(k, m, o), {}) && Sinks(k, ReleaseMutex(k, m, o))
  {
    hide Mid, Effective, Acyclic, Priced, ReleaseMutex, InOrder, NoDup;
    var (l, r) := (MtxList(k, m), ReleaseMutex(k, m, o));
    if k.q[l] == [] {
      ReleaseMutexIs(k, m, o);
      SameOrder(k, r);
      assert Changed(k, r) + {} == {};
    } else {
      var next := k.q[l][0];
      var k2 := HandoffSinks(k, m, o);
      WaiterBlocked(k, m);
      GrantOrder(k2, m, next);
      OrderOf(k2, Grant(k2, m, next), r, {next});
      OrderChain(k, k2, r, {next} + Repricings(k, k2), {next});
      assert {next} + Repricings(k, k2) + {next} == Changed(k, r) + {};
    }
  }

  lemma GrantOrder(k: K, m: nat, next: nat)
    requires Sized(k) && m < |k.owner| && next < N(k) && !Listed(k, next) && forall l :: 0 <= l < |k.q| ==> NoDup(k.q[l])
    ensures var r := Grant(k, m, next); r.prio == k.prio && r.state == k.state[next := Ready] && InOrder(k, r, {next})
  {
    hide InOrder, NoDup;
    var k1 := k.(owner := k.owner[m := Some(next)], depth := k.depth[m := 1], grantMtx := k.grantMtx[next := k.waitMtx[next]],
                 waitMtx := k.waitMtx[next := None], wakeAt := k.wakeAt[next := 0], granted := k.granted[next := true]);
    assert Listed(k1, next) ==> Listed(k, next);
    ReadyOrder(k1, next);
    OrderFrom(k1, k, MakeReady(k1, next), {next});
  }

  lemma WaiterBlocked(k: K, m: nat)
    requires Core(k) && m < |k.owner| && k.q[MtxList(k, m)] != []
    ensures var next := k.q[MtxList(k, m)][0]; next < N(k) && k.state[next] == Blocked
  {
    hide WaitSorted, Ledger, Effective, Acyclic, Placed;
    NobodyWaits(k, m, k.q[MtxList(k, m)][0]);
  }

  lemma CancelTurns(k: K, t: nat)
    requires Inv(k) && t < N(k)
    ensures Turns(k, Cancel(k, t).0, {})
  {
    hide Core, Side, LeaveSem, LeaveMtx, ReleaseSem, ReleaseMutex, InOrder;
    if k.waitSem[t].Some? {
      LeaveSemTurns(k, t);
    } else if k.grantSem[t].Some? {
      UngrantedKeeps(k, t);
      var k1 := k.(grantSem := k.grantSem[t := None], granted := k.granted[t := false]);
      ReleaseSemTurns(k1, k.grantSem[t].value);
      TurnsFrom(k1, k, ReleaseSem(k1, k.grantSem[t].value), {});
    } else if k.waitMtx[t].Some? {
      LeaveMtxTurns(k, t);
    } else if k.grantMtx[t].Some? {
      UngrantedKeeps(k, t);
      HandedOffOwner(k, t);
      var m := k.grantMtx[t].value;
      var k1 := k.(grantMtx := k.grantMtx[t := None], granted := k.granted[t := false]);
      DroppedTurns(k1, m, t);
      TurnsFrom(k1, k, Cancel(k, t).0, {});
    } else {
      SameTurns(k, k);
    }
  }

  lemma TurnsFrom(k: K, k': K, r: K, also: set<nat>)
    requires Turns(k, r, also) && Sized(k') && N(k') == N(k) && k'.q == k.q && k'.prio == k.prio && k'.state == k.state
    ensures Turns(k', r, also)
  {
    hide InOrder, Sized;
    OrderFrom(k, k', r, Changed(k, r) + also);
    assert Changed(k', r) == Changed(k, r);
  }

  lemma SameTurns(k: K, r: K)
    requires Sized(k) && Sized(r) && N(r) == N(k) && r.q == k.q && r.prio == k.prio && r.state == k.state
    ensures Turns(k, r, {})
  {
    hide InOrder;
    SameOrder(k, r);
    assert Changed(k, r) + {} == {};
  }

  /** The release of a mutex whose depth was taken down to zero. */
  lemma DroppedTurns(k: K, m: nat, o: nat)
    requires Inv(k) && m < |k.owner| && k.owner[m] == Some(o) && o < N(k)
    ensures var k1 := k.(depth := k.depth[m := 0]); Sized(k1) && Turns(k, ReleaseMutex(k1, m, o), {}) && Sinks(k, ReleaseMutex(k1, m, o))
  {
    hide Core, Side, ReleaseMutex, InOrder;
    InvCore(k);
    WaitersAside(k);
    var k1 := k.(depth := k.depth[m := 0]);
    SameCoreKeeps(k, k1);
    ReleaseMutexTurns(k1, m, o);
    TurnsFrom(k1, k, ReleaseMutex(k1, m, o), {});
  }

  lemma UnlockTurns(k: K, m: nat)
    requires Inv(k) && m < |k.owner|
    ensures Turns(k, MutexUnlock(k, m).0, {})
  {
    hide Core, Side, ReleaseMutex, InOrder;
    if k.owner[m] == Some(k.current) && k.depth[m] == 1 {
      DroppedTurns(k, m, k.current);
    } else {
      SameTurns(k, MutexUnlock(k, m).0);
    }
  }

  // ---- The setters --------------------------------------------------------------------------------------------

  lemma SetPriorityTurns(k: K, t: nat, p: nat)
    requires Inv(k) && t < N(k) && p < LEVELS
    ensures Turns(k, SetPriority(k, t, p), {})
  {
    hide Core, Side, InOrder, Refresh, Settled;
    InvCore(k);
    var k1 := k.(base := k.base[t := p]);
    var g := BaseRefreshable(k, t, p);
    RefreshOrder(k1, t, N(k), g, Edges(k1), Homes(k1));
    var r := Refresh(k1, t, N(k));
    OrderFrom(k1, k, r, Repricings(k1, r));
    assert Changed(k, r) + {} == Repricings(k1, r);
  }

  lemma BaseRefreshable(k: K, t: nat, p: nat) returns (g: seq<nat>)
    requires Core(k) && t < N(k) && p < LEVELS
    ensures var k1 := k.(base := k.base[t := p]); Sized(k1) && Refreshable(k1, t, g, Edges(k1), Homes(k1)) && g[t] < N(k)
  {
    hide Placed, WaitSorted, Ledger, Effective, Waiting;
    var k1 := k.(base := k.base[t := p]);
    g := ShortChains(Edges(k));
    assert Homes(k1) == Homes(k);
    assert forall x :: 0 <= x < N(k) && x != t ==> Priced(k, x) ==> Priced(k1, x);
  }

  /** A task that is ready when its policy changes goes to the back of its bucket. */
  lemma SetPolicyTurns(k: K, t: nat, policy: Budget.Policy, now: nat)
    requires Inv(k) && t < N(k) && Budget.ValidPolicy(policy) && now <= Budget.U64_MAX
    ensures Turns(k, SetPolicy(k, t, policy, now), if k.state[t] == Ready then {t} else {})
  {
    hide Core, Side, InOrder, SetPolicy, WaitSorted, Neat, Turns;
    var r := SetPolicy(k, t, policy, now);
    SetPolicyIs(k, t, policy, now);
    if k.state[t] == Ready || k.state[t] == Throttled {
      RequeueTurns(k, r, t);
    } else {
      SameTurns(k, r);
    }
  }

  lemma RequeueTurns(k: K, r: K, t: nat)
    requires Inv(k) && t < N(k) && k.state[t] in {Ready, Throttled} && Sized(r) && N(r) == N(k) && r.prio == k.prio
    requires r.state == k.state[t := Ready]
    requires r.q ==
      if k.state[t] == Ready && InReady(k, t) then
        var q := k.q[k.prio[t] := Without(k.q[k.prio[t]], t)]; q[k.prio[t] := q[k.prio[t]] + [t]]
      else if k.state[t] == Throttled then k.q[k.prio[t] := k.q[k.prio[t]] + [t]]
      else k.q
    ensures Turns(k, r, if k.state[t] == Ready then {t} else {})
  {
    hide Core, Side, InOrder, WaitSorted, Neat, Without;
    InvCore(k);
    CoreNeat(k);
    Apart(k, t);
    ReadyIffHome(k, Homes(k), t);
    if k.state[t] == Throttled {
      FreeHome(k, t);
    }
    MoveOrder(k, r, t, if k.state[t] == Ready && !InReady(k, t) then None else Some(k.prio[t]));
    assert Changed(k, r) + (if k.state[t] == Ready then {t} else {}) == {t};
  }

  lemma SpawnTurns(k: K, t: nat, p: nat, policy: Budget.Policy, now: nat)
    requires Inv(k) && t < N(k) && k.state[t] == Free && p < LEVELS && Budget.ValidPolicy(policy) && now <= Budget.U64_MAX
    ensures Turns(k, Spawn(k, t, p, policy, now), {})
  {
    hide Core, Side, InOrder, Neat, Budget.ForPolicy;
    InvCore(k);
    CoreNeat(k);
    FreeHome(k, t);
    Apart(k, t);
    var r := Spawn(k, t, p, policy, now);
    MoveOrder(k, r, t, if t != IDLE then Some(p) else None);
    assert Changed(k, r) + {} == {t};
  }

  // ---- The timer scans ----------------------------------------------------------------------------------------

  /** Tasks become ready, and nobody becomes more urgent. */
  predicate Rouses(k: K, r: K) {
    Sinks(k, r) && forall x :: 0 <= x < N(k) ==> r.state[x] == k.state[x] || (k.state[x] != Ready && r.state[x] == Ready)
  }

  lemma RousesThen(k: K, k1: K, r: K)
    requires Turns(k, k1, {}) && Turns(k1, r, {}) && Rouses(k, k1) && Rouses(k1, r)
    ensures Turns(k, r, {}) && Rouses(k, r)
  {
    hide InOrder, Sized;
    OrderChain(k, k1, r, Changed(k, k1) + {}, Changed(k1, r) + {});
    assert (Changed(k, k1) + {}) + (Changed(k1, r) + {}) == Changed(k, r) + {};
  }

  lemma WakeOneTurns(k: K, t: nat, now: nat)
    requires Inv(k) && t < N(k)
    ensures Turns(k, WakeOne(k, t, now), {}) && Rouses(k, WakeOne(k, t, now))
  {
    hide Core, Side, InOrder, LeaveSem, LeaveMtx, MakeReady, Turns;
    SameTurns(k, k);
    if k.state[t] == Sleeping {
      RousedTurns(k, t, k);
    }
    if k.waitSem[t].Some? {
      LeaveSemTurns(k, t);
      LeaveSemIs(k, t);
    }
    if k.waitMtx[t].Some? {
      LeaveMtxTurns(k, t);
      LeaveMtxIs(k, t);
    }
    WaitersAside(k);
  }

  /** A task in no list, perhaps with a new budget, becomes ready. */
  lemma RousedTurns(k: K, t: nat, k1: K)
    requires Inv(k) && t < N(k) && k.state[t] in {Sleeping, Throttled} && Sized(k1) && k1 == k.(budget := k1.budget)
    ensures var r := MakeReady(k1, t); N(r) == N(k) && Turns(k, r, {}) && Rouses(k, r)
  {
    hide Core, Side, InOrder, Neat, NoDup;
    InvCore(k);
    CoreNeat(k);
    FreeHome(k, t);
    Apart(k, t);
    assert Listed(k1, t) ==> Listed(k, t);
    ReadyOrder(k1, t);
    var r := MakeReady(k1, t);
    OrderFrom(k1, k, r, {t});
    assert Changed(k, r) + {} == {t};
  }

  lemma ReplenishOneTurns(k: K, t: nat, now: nat)
    requires Inv(k) && t < N(k) && now <= Budget.U64_MAX
    ensures Turns(k, ReplenishOne(k, t, now), {}) && Rouses(k, ReplenishOne(k, t, now))
  {
    hide Core, Side, InOrder, MakeReady, Turns, Budget.ReplenishIfDue;
    if k.state[t] == Throttled && Budget.ReplenishDue(k.budget[t], now) {
      Budget.ValidKept(k.budget[t], Budget.Cooperative, now, false);
      RousedTurns(k, t, k.(budget := k.budget[t := Budget.ReplenishIfDue(k.budget[t], now)]));
    } else {
      SameTurns(k, k);
    }
  }

  lemma {:induction false} WakeFirstTurns(k: K, n: nat, now: nat)
    requires Inv(k) && n <= N(k)
    ensures Turns(k, WakeFirst(k, n, now), {}) && Rouses(k, WakeFirst(k, n, now))
  {
    hide Core, Side, WakeOne, Turns;
    SameTurns(k, k);
    if n > 0 {
      WakeFirstTurns(k, n - 1, now);
      WakeFirstKeeps(k, n - 1, now);
      WakeOneTurns(WakeFirst(k, n - 1, now), n - 1, now);
      RousesThen(k, WakeFirst(k, n - 1, now), WakeFirst(k, n, now));
    }
  }

  lemma {:induction false} ReplenishFirstTurns(k: K, n: nat, now: nat)
    requires Inv(k) && n <= N(k) && now <= Budget.U64_MAX
    ensures Turns(k, ReplenishFirst(k, n, now), {}) && Rouses(k, ReplenishFirst(k, n, now))
  {
    hide Core, Side, ReplenishOne, Turns;
    SameTurns(k, k);
    if n > 0 {
      ReplenishFirstTurns(k, n - 1, now);
      ReplenishFirstKeeps(k, n - 1, now);
      ReplenishOneTurns(ReplenishFirst(k, n - 1, now), n - 1, now);
      RousesThen(k, ReplenishFirst(k, n - 1, now), ReplenishFirst(k, n, now));
    }
  }

  lemma ScanTurns(k: K, now: nat)
    requires Inv(k) && now <= Budget.U64_MAX
    ensures Turns(k, WakeSleepers(k, now), {}) && Rouses(k, WakeSleepers(k, now))
  {
    hide Core, Side, WakeFirst, ReplenishFirst, Turns;
    WakeFirstTurns(k, N(k), now);
    WakeFirstKeeps(k, N(k), now);
    ReplenishFirstTurns(WakeFirst(k, N(k), now), N(k), now);
    RousesThen(k, WakeFirst(k, N(k), now), WakeSleepers(k, now));
  }

  /** A task in no list changes state. */
  lemma AsideTurns(k: K, k1: K, r: K, c: nat, also: set<nat>)
    requires Turns(k, k1, also) && Sized(r) && N(r) == N(k) && c < N(k) && r.q == k1.q && r.prio == k1.prio
    requires r.state == k1.state[c := r.state[c]] && (r.state != k1.state ==> !Listed(k, c) && !Listed(k1, c))
    ensures Turns(k, r, also)
  {
    hide InOrder, Sized;
    OrderOf(k, k1, r, Changed(k, k1) + also);
    forall x | 0 <= x < N(k) && (Listed(k, x) || Listed(r, x)) ensures x in Changed(k, k1) + also <==> x in Changed(k, r) + also {
      assert Listed(r, x) == Listed(k1, x);
    }
    OrderRename(k, r, Changed(k, k1) + also, Changed(k, r) + also);
  }

  lemma RunningUnlisted(k: K)
    requires Inv(k) && k.state[k.current] == Running
    ensures !Listed(k, k.current)
  {
    hide Core, Side, Neat;
    InvCore(k);
    CoreNeat(k);
    OwnHome(k);
    Apart(k, k.current);
  }

  lemma OnTimerTurns(k: K, now: nat, slice: bool)
    requires Inv(k) && now <= Budget.U64_MAX
    ensures Turns(k, OnTimer(k, now, slice), {})
  {
    hide Core, Side, WakeSleepers, Turns, Listed, Budget.OnTimer;
    ScanTurns(k, now);
    WakeSleepersKeeps(k, now);
    ScanLeavesHart(k, now);
    var (k1, r) := (WakeSleepers(k, now), OnTimer(k, now, slice));
    if k1.state[k1.current] == Running {
      RunningUnlisted(k);
      RunningUnlisted(k1);
    }
    AsideTurns(k, k1, r, k.current, {});
  }
}
