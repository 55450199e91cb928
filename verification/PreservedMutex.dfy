/** Mutex critical sections, cancellations and timeouts keep the invariant. */
module PreservedMutex {
  import opened Lists
  import Budget
  import opened Kernel
  import opened Inheritance
  import opened Chains
  import opened Invariant
  import opened Steps
  import opened MutexSteps
  import opened Preserved

  /** `Side` does not look at priorities, donations or lists. */
  lemma RepricedRest(k: K, r: K)
    requires Rest(k) && Sized(r) && Repriced(k, r)
    ensures Rest(r)
  {
    hide Owners, Calls, Locks, Quotas, HandedOff, Dry, Reasons;
  }

  // ---- Locking ---------------------------------------------------------------------------------

  lemma QueuedRest(k: K, m: nat, patience: Patience)
    requires Inv(k) && InUserCode(k) && m < |k.owner| && k.owner[m].Some? && k.lockDepth[k.current] == 0
    ensures Rest(Queued(k, m, patience))
  {
    hide Core, Calls, Locks, Quotas, HandedOff, Hart, Dry;
    var c := k.current;
    RunningFacts(k);
    CallsBlocked(k.call, k.state, k.waitSem, k.waitMtx, k.granted, k.grantSem, k.grantMtx, c, m);
    OwnersState(k.owner, k.depth, k.state, k.waitMtx, c, Blocked);
    LocksState(k.state, k.current, k.lockDepth, k.lockStart, k.budget, c, Blocked);
    QuotasState(k.state, k.budget, c, Blocked);
  }

  lemma EnlistKeeps(k: K, m: nat, patience: Patience)
    requires Inv(k) && InUserCode(k) && k.current != IDLE && m < |k.owner| && k.owner[m].Some? && k.lockDepth[k.current] == 0
    requires !ChainContains(k, k.owner[m].value, k.current, N(k))
    ensures Inv(SwitchAway(Enlist(k, m, patience)))
  {
    hide Core, Owners, Calls, Locks, Quotas, HandedOff, Dry, Reasons, Hart, Refresh, SwitchAway, ChainContains;
    var r, c := Enlist(k, m, patience), k.current;
    assert Core(k) && k.state[c] == Running;
    EnlistCore(k, m, patience);
    QueuedRest(k, m, patience);
    assert Repriced(Queued(k, m, patience), r);
    RepricedRest(Queued(k, m, patience), r);
    HartLeaves(k.state, c, k.pending, k.ident, k.nextSeq, k.lastSeq, Blocked, 0);
    SwitchAwayKeeps(r);
  }

  lemma TakenRest(k: K, m: nat, d: nat)
    requires Inv(k) && InUserCode(k) && m < |k.owner| && d >= 1
    requires k.owner[m].None? || k.owner[m] == Some(k.current)
    ensures Rest(k.(owner := k.owner[m := Some(k.current)], depth := k.depth[m := d]))
  {
    hide Core, Calls, Locks, Quotas, Hart, Dry, Reasons;
    RunningFacts(k);
  }

  /** Nobody waits for a mutex without an owner, so taking it changes no donation. */
  lemma TakenCore(k: K, m: nat, d: nat)
    requires Inv(k) && InUserCode(k) && m < |k.owner| && k.owner[m].None?
    ensures Core(k.(owner := k.owner[m := Some(k.current)], depth := k.depth[m := d]))
  {
    hide Placed, WaitSorted, Ledger, Effective, Acyclic, Calls, Locks, Quotas, Hart, Dry, HandedOff;
    var r := k.(owner := k.owner[m := Some(k.current)], depth := k.depth[m := d]);
    assert forall x :: 0 <= x < N(k) ==> Edges(k)[x] == Hop(r, x) && Homes(k)[x] == Home(r, x);
    assert forall x :: 0 <= x < N(k) ==> Priced(k, x) ==> Priced(r, x);
    Conclude(r, Edges(k), Homes(k));
  }

  lemma MutexLockKeeps(k: K, m: nat, patience: Patience, deliverable: bool)
    requires Inv(k) && InUserCode(k) && k.current != IDLE && m < |k.owner|
    ensures Inv(MutexLock(k, m, patience, deliverable).0)
  {
    hide Core, Rest, Hart, ChainContains, Enlist, SwitchAway;
    var r := MutexLock(k, m, patience, deliverable);
    var c := k.current;
    if r.1.Suspended? {
      EnlistKeeps(k, m, patience);
    } else if k.owner[m] == Some(c) {
      TakenRest(k, m, k.depth[m] + 1);
      assert k.owner[m := Some(c)] == k.owner;
      SameCoreKeeps(k, r.0);
    } else if k.owner[m].None? {
      TakenCore(k, m, 1);
      TakenRest(k, m, 1);
    }
  }

  // ---- Releasing ------------------------------------------------------------------------------------

  /** What a release does outside lists, priorities and donations. */
  lemma ReleaseMutexIs(k: K, m: nat, o: nat)
    requires Sized(k) && m < |k.owner| && o < N(k)
    ensures var (r, ws) := (ReleaseMutex(k, m, o), k.q[MtxList(k, m)]);
      if ws == [] then r == k.(owner := k.owner[m := None])
      else
        var next := ws[0];
        r == k.(owner := k.owner[m := Some(next)], depth := k.depth[m := 1],
                grantMtx := k.grantMtx[next := k.waitMtx[next]], waitMtx := k.waitMtx[next := None],
                wakeAt := k.wakeAt[next := 0], granted := k.granted[next := true],
                state := k.state[next := Ready], prio := r.prio, inh := r.inh, q := r.q)
  {
    hide Refresh, AddInheritance, RemoveInheritance, RemoveAll, AddAll;
  }

  lemma CallsGranted(call: seq<Call>, state: seq<Status>, waitSem: seq<Option<nat>>, waitMtx: seq<Option<nat>>,
                     granted: seq<bool>, grantSem: seq<Option<nat>>, grantMtx: seq<Option<nat>>, t: nat, m: nat)
    requires Calls(call, state, waitSem, waitMtx, granted, grantSem, grantMtx) && t < |state| && waitMtx[t] == Some(m)
    ensures Calls(call, state[t := Ready], waitSem, waitMtx[t := None], granted[t := true], grantSem, grantMtx[t := Some(m)])
  {
  }

  lemma OwnersHanded(owner: seq<Option<nat>>, depth: seq<nat>, state: seq<Status>, waitMtx: seq<Option<nat>>, m: nat, next: nat)
    requires Owners(owner, depth, state, waitMtx) && m < |owner| && next < |state| && |waitMtx| == |state|
    ensures Owners(owner[m := Some(next)], depth[m := 0][m := 1], state[next := Ready], waitMtx[next := None])
    ensures (forall t :: 0 <= t < |waitMtx| ==> waitMtx[t] != Some(m)) ==>
      Owners(owner[m := None], depth[m := 0], state, waitMtx)
  {
  }

  lemma HandedOffHanded(grantMtx: seq<Option<nat>>, owner: seq<Option<nat>>, depth: seq<nat>, m: nat, o: nat, next: nat)
    requires HandedOff(grantMtx, owner, depth) && m < |owner| && owner[m] == Some(o) && next < |grantMtx|
    requires o < |grantMtx| && grantMtx[o] != Some(m)
    ensures HandedOff(grantMtx[next := Some(m)], owner[m := Some(next)], depth[m := 0][m := 1])
    ensures HandedOff(grantMtx, owner[m := None], depth[m := 0])
  {
  }

  /** `k0` is the state with the mutex still held once; nobody has an unconsumed grant on it. */
  lemma ReleaseMutexRest(k0: K, m: nat, o: nat)
    requires Inv(k0) && m < |k0.owner| && k0.owner[m] == Some(o) && k0.grantMtx[o] != Some(m)
    ensures Rest(ReleaseMutex(k0.(depth := k0.depth[m := 0]), m, o))
  {
    hide Core, Locks, Quotas, Hart, Dry, Calls, Owners, HandedOff, ReleaseMutex;
    var k := k0.(depth := k0.depth[m := 0]);
    ReleaseMutexIs(k, m, o);
    var ws := k0.q[MtxList(k0, m)];
    forall x | 0 <= x < N(k0) && ws == [] ensures k0.waitMtx[x] != Some(m) {
      NobodyWaits(k0, m, x);
    }
    var next := if ws == [] then o else ws[0];
    OwnersHanded(k0.owner, k0.depth, k0.state, k0.waitMtx, m, next);
    HandedOffHanded(k0.grantMtx, k0.owner, k0.depth, m, o, next);
    if ws != [] {
      NobodyWaits(k0, m, next);
      WaitersAside(k0);
      CallsGranted(k0.call, k0.state, k0.waitSem, k0.waitMtx, k0.granted, k0.grantSem, k0.grantMtx, next, m);
      LocksState(k0.state, k0.current, k0.lockDepth, k0.lockStart, k0.budget, next, Ready);
      QuotasState(k0.state, k0.budget, next, Ready);
    }
  }

  /** The final unlock or a cancelled handoff. */
  lemma ReleaseMutexKeeps(k0: K, m: nat, o: nat)
    requires Inv(k0) && m < |k0.owner| && k0.owner[m] == Some(o) && k0.grantMtx[o] != Some(m)
    ensures Inv(ReleaseMutex(k0.(depth := k0.depth[m := 0]), m, o))
  {
    hide Core, Rest, Hart, ReleaseMutex;
    var k := k0.(depth := k0.depth[m := 0]);
    ReleaseMutexRest(k0, m, o);
    WaitersAside(k0);
    SameCoreKeeps(k0, k);
    ReleaseMutexCore(k, m, o);
    ReleaseMutexIs(k, m, o);
    if k0.q[MtxList(k0, m)] != [] {
      var next := k0.q[MtxList(k0, m)][0];
      NobodyWaits(k0, m, next);
      HartReadied(k0.state, k0.current, k0.pending, k0.ident, k0.nextSeq, k0.lastSeq, next);
    }
  }

  lemma MutexUnlockKeeps(k: K, m: nat)
    requires Inv(k) && InUserCode(k) && m < |k.owner|
    ensures Inv(MutexUnlock(k, m).0)
  {
    hide Core, Hart, ReleaseMutex, Calls, Locks, Quotas, Dry, Reasons;
    var c := k.current;
    RunningFacts(k);
    if k.owner[m] == Some(c) && k.depth[m] == 1 {
      ReleaseMutexKeeps(k, m, c);
    } else if k.owner[m] == Some(c) && k.depth[m] > 1 {
      SameCoreKeeps(k, MutexUnlock(k, m).0);
    }
  }

  // ---- Giving up a mutex wait --------------------------------------------------------------------------

  lemma CallsGaveUp(call: seq<Call>, state: seq<Status>, waitSem: seq<Option<nat>>, waitMtx: seq<Option<nat>>,
                    granted: seq<bool>, grantSem: seq<Option<nat>>, grantMtx: seq<Option<nat>>, t: nat)
    requires Calls(call, state, waitSem, waitMtx, granted, grantSem, grantMtx) && t < |state| && waitMtx[t].Some?
    ensures Calls(call, state[t := Ready], waitSem, waitMtx[t := None], granted[t := false], grantSem, grantMtx[t := None])
    ensures grantMtx[t].None?
  {
  }

  lemma LeaveMtxIs(k: K, t: nat)
    requires Sized(k) && t < N(k) && k.waitMtx[t].Some?
    ensures var r := LeaveMtx(k, t);
      r == k.(waitMtx := k.waitMtx[t := None], granted := k.granted[t := false], grantMtx := k.grantMtx[t := None],
              wakeAt := k.wakeAt[t := 0], state := k.state[t := Ready], prio := r.prio, inh := r.inh, q := r.q)
  {
    hide Refresh, RemoveInheritance, Withdraw;
  }

  lemma LeaveMtxKeeps(k: K, t: nat)
    requires Inv(k) && t < N(k) && k.waitMtx[t].Some?
    ensures Inv(LeaveMtx(k, t))
  {
    hide Core, Hart, LeaveMtx, Calls, Locks, Quotas, Dry;
    WaitersAside(k);
    LeaveMtxCore(k, t);
    LeaveMtxIs(k, t);
    CallsGaveUp(k.call, k.state, k.waitSem, k.waitMtx, k.granted, k.grantSem, k.grantMtx, t);
    assert k.grantMtx[t := None] == k.grantMtx;
    ReadiedSide(k, t);
  }

  // ---- Cancellation and consumption ------------------------------------------------------------------------

  lemma UngrantedKeeps(k: K, t: nat)
    requires Inv(k) && t < N(k)
    requires k.grantSem[t].Some? || k.grantMtx[t].Some?
    ensures Inv(k.(grantSem := k.grantSem[t := None], grantMtx := k.grantMtx[t := None], granted := k.granted[t := false]))
    ensures k.grantSem[t].Some? ==> k.grantMtx[t := None] == k.grantMtx
    ensures k.grantMtx[t].Some? ==> k.grantSem[t := None] == k.grantSem
  {
    hide Core, Hart, Locks, Quotas, Dry, Reasons, Owners;
    var r := k.(grantSem := k.grantSem[t := None], grantMtx := k.grantMtx[t := None], granted := k.granted[t := false]);
    SameCoreKeeps(k, r);
  }

  lemma CancelKeeps(k: K, t: nat)
    requires Inv(k) && t < N(k)
    ensures Inv(Cancel(k, t).0)
  {
    hide Core, Rest, Hart, LeaveSem, LeaveMtx, ReleaseSem, ReleaseMutex;
    if k.waitSem[t].Some? {
      LeaveSemKeeps(k, t);
    } else if k.grantSem[t].Some? {
      UngrantedKeeps(k, t);
      ReleaseSemKeeps(k.(grantSem := k.grantSem[t := None], granted := k.granted[t := false]), k.grantSem[t].value);
    } else if k.waitMtx[t].Some? {
      LeaveMtxKeeps(k, t);
    } else if k.grantMtx[t].Some? {
      UngrantedKeeps(k, t);
      HandedOffOwner(k, t);
      var m := k.grantMtx[t].value;
      ReleaseMutexKeeps(k.(grantMtx := k.grantMtx[t := None], granted := k.granted[t := false]), m, t);
    }
  }

  /** An unconsumed mutex grant is ownership at depth one. */
  lemma HandedOffOwner(k: K, t: nat)
    requires Inv(k) && t < N(k) && k.grantMtx[t].Some?
    ensures k.owner[k.grantMtx[t].value] == Some(t) && k.depth[k.grantMtx[t].value] == 1
  {
    hide Core, Hart, Locks, Quotas, Dry, Reasons, Owners, Calls;
  }

  lemma CallsConsumed(call: seq<Call>, state: seq<Status>, waitSem: seq<Option<nat>>, waitMtx: seq<Option<nat>>,
                      granted: seq<bool>, grantSem: seq<Option<nat>>, grantMtx: seq<Option<nat>>, c: nat)
    requires Calls(call, state, waitSem, waitMtx, granted, grantSem, grantMtx) && c < |state|
    requires waitSem[c].None? && waitMtx[c].None?
    ensures call[c] == InSemaphore ==>
      Calls(call[c := User], state, waitSem, waitMtx, granted[c := false], grantSem[c := None], grantMtx)
    ensures call[c] == InMutex ==>
      Calls(call[c := User], state, waitSem, waitMtx, granted[c := false], grantSem, grantMtx[c := None])
  {
  }

  lemma ConsumeSemKeeps(k: K)
    requires Inv(k) && k.state[k.current] == Running && k.call[k.current] == InSemaphore
    ensures Inv(ConsumeSem(k).0)
  {
    hide Core, Hart, Locks, Quotas, Dry, Reasons, Owners, Calls, HandedOff;
    RunningFacts(k);
    CallsConsumed(k.call, k.state, k.waitSem, k.waitMtx, k.granted, k.grantSem, k.grantMtx, k.current);
    SameCoreKeeps(k, ConsumeSem(k).0);
  }

  lemma ConsumeMtxKeeps(k: K)
    requires Inv(k) && k.state[k.current] == Running && k.call[k.current] == InMutex
    ensures Inv(ConsumeMtx(k).0)
  {
    hide Core, Hart, Locks, Quotas, Dry, Reasons, Owners, Calls;
    RunningFacts(k);
    CallsConsumed(k.call, k.state, k.waitSem, k.waitMtx, k.granted, k.grantSem, k.grantMtx, k.current);
    SameCoreKeeps(k, ConsumeMtx(k).0);
  }

  lemma SetPriorityKeeps(k: K, t: nat, p: nat)
    requires Inv(k) && t < N(k) && p < LEVELS
    ensures Inv(SetPriority(k, t, p))
  {
    hide Core, Hart, Locks, Quotas, Dry, Reasons, Owners, Calls, HandedOff, Refresh;
    SetPriorityCore(k, t, p);
    RepricedRest(k.(base := k.base[t := p]), SetPriority(k, t, p));
  }
}
