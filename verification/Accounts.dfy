/** Conservation over whole runs: semaphore permits and mutex acquisitions. */
module Accounts {
  import opened Lists
  import Budget
  import opened Kernel
  import opened Inheritance
  import opened Invariant
  import opened MutexSteps
  import opened Preserved
  import opened PreservedMutex
  import opened PreservedHart
  import opened Runs

  // ---- Steps that touch no permit and no mutex -------------------------------------------------

  /** Permits, owners and grants are the same in both states, and nobody started to wait. */
  predicate Untaken(k: K, r: K) {
    SameHoldings(k, r) && Fewer(k.waitSem, r.waitSem) && Fewer(k.waitMtx, r.waitMtx)
  }

  predicate SameHoldings(k: K, r: K) {
    && N(r) == N(k) && r.count == k.count && r.grantSem == k.grantSem
    && r.owner == k.owner && r.depth == k.depth && r.grantMtx == k.grantMtx
  }

  predicate Fewer(a: seq<Option<nat>>, b: seq<Option<nat>>) {
    |a| == |b| && forall t :: 0 <= t < |b| && b[t].Some? ==> b[t] == a[t]
  }

  /** A waiting task has no grant, so giving up a wait gives up no permit. */
  lemma WaitersUngranted(k: K, t: nat)
    requires Inv(k) && t < N(k) && (k.waitSem[t].Some? || k.waitMtx[t].Some? || k.call[t] == User)
    ensures k.grantSem[t := None] == k.grantSem && k.grantMtx[t := None] == k.grantMtx
  {
    hide Core, Hart, Locks, Quotas, Dry, Reasons, Owners, HandedOff;
  }

  lemma WakeOneUntaken(k: K, t: nat, now: nat)
    requires Inv(k) && t < N(k)
    ensures Untaken(k, WakeOne(k, t, now))
  {
    hide Core, Side, LeaveSem, LeaveMtx;
    if k.waitSem[t].Some? {
      LeaveSemIs(k, t);
      WaitersUngranted(k, t);
    }
    if k.waitMtx[t].Some? {
      LeaveMtxIs(k, t);
      WaitersUngranted(k, t);
    }
  }

  lemma {:induction false} WakeFirstUntaken(k: K, n: nat, now: nat)
    requires Inv(k) && n <= N(k)
    ensures Untaken(k, WakeFirst(k, n, now))
  {
    hide Core, Side, WakeOne;
    if n > 0 {
      WakeFirstUntaken(k, n - 1, now);
      WakeFirstKeeps(k, n - 1, now);
      WakeOneUntaken(WakeFirst(k, n - 1, now), n - 1, now);
    }
  }

  lemma ReplenishOneUntaken(k: K, t: nat, now: nat)
    requires Sized(k) && t < N(k) && now <= Budget.U64_MAX
    ensures Untaken(k, ReplenishOne(k, t, now))
  {
  }

  lemma {:induction false} ReplenishFirstUntaken(k: K, n: nat, now: nat)
    requires Sized(k) && n <= N(k) && now <= Budget.U64_MAX
    ensures Untaken(k, ReplenishFirst(k, n, now))
  {
    hide ReplenishOne;
    if n > 0 {
      ReplenishFirstUntaken(k, n - 1, now);
      ReplenishOneUntaken(ReplenishFirst(k, n - 1, now), n - 1, now);
    }
  }

  lemma WakeSleepersUntaken(k: K, now: nat)
    requires Inv(k) && now <= Budget.U64_MAX
    ensures Untaken(k, WakeSleepers(k, now))
  {
    hide Core, Side;
    WakeFirstUntaken(k, N(k), now);
    ReplenishFirstUntaken(WakeFirst(k, N(k), now), N(k), now);
  }

  lemma SwitchAwayUntaken(k: K)
    requires Sized(k)
    ensures Untaken(k, SwitchAway(k)) && SwitchAway(k).lastSeq == k.lastSeq
  {
  }

  lemma ExitUntaken(k: K)
    requires Inv(k) && k.call[k.current] == User
    ensures Untaken(k, Exit(k))
  {
    hide Core, Side, SwitchAway;
    WaitersUngranted(k, k.current);
    SwitchAwayUntaken(Emptied(k));
  }

  lemma TakeRescheduleUntaken(k: K, allowEqual: bool)
    requires Sized(k)
    ensures Untaken(k, TakeReschedule(k, allowEqual).0)
  {
    hide FirstBucket;
  }

  lemma DispatchUntaken(k: K, next: nat, now: nat)
    requires Sized(k) && next < N(k) && now <= Budget.U64_MAX
    ensures Untaken(k, Dispatch(k, next, now))
  {
  }

  lemma TrapUntaken(k: K, now: nat)
    requires Sized(k) && now <= Budget.U64_MAX
    ensures Untaken(k, Trap(k, now))
  {
    hide FirstBucket, Dispatch, TakeReschedule;
    if k.pending.Some? {
      var k1 := k.(pending := None, lastSeq := k.pending.value.sequence);
      DispatchUntaken(k1.(current := k.pending.value.previous), k.pending.value.target, now);
    } else if k.state[k.current] != Running {
      DispatchUntaken(PopReadyOrIdle(k).0, PopReadyOrIdle(k).1, now);
    } else {
      TakeRescheduleUntaken(k, k.slicePending);
      var (k1, next) := TakeReschedule(k, k.slicePending);
      if next.Some? {
        DispatchUntaken(k1, next.value, now);
      }
    }
  }

  lemma UnlockSchedulerUntaken(k: K, now: nat)
    requires Sized(k) && now <= Budget.U64_MAX
    ensures Untaken(k, UnlockScheduler(k, now).0)
  {
    hide FirstBucket, ThrottleCurrent, TakeReschedule;
    if k.lockDepth[k.current] != 0 {
      var k1 := Released(k);
      TakeRescheduleUntaken(k1, k1.slicePending);
      if k1.lockDepth[k.current] == 0 && k1.budget[k.current].lockOverrun {
        ThrottleCurrentUntaken(k1, now);
      }
    }
  }

  lemma ThrottleCurrentUntaken(k: K, now: nat)
    requires Sized(k) && now <= Budget.U64_MAX && k.budget[k.current].lockOverrun
    ensures Untaken(k, ThrottleCurrent(k, now))
  {
    hide FirstBucket;
  }

  lemma YieldUntaken(k: K, now: nat)
    requires Inv(k) && now <= Budget.U64_MAX
    ensures Untaken(k, Yield(k, now).0)
  {
    hide Core, Side, WakeSleepers, FirstBucket;
    WakeSleepersUntaken(k, now);
  }

  lemma OnTimerUntaken(k: K, now: nat, slice: bool)
    requires Inv(k) && now <= Budget.U64_MAX
    ensures Untaken(k, OnTimer(k, now, slice))
  {
    hide Core, Side, WakeSleepers;
    WakeSleepersUntaken(k, now);
  }

  lemma SleepUntaken(k: K, until: nat)
    requires Sized(k)
    ensures Untaken(k, Sleep(k, until).0)
  {
    hide FirstBucket;
  }

  predicate IsWaitOp(op: Op) {
    op.Downs? || op.FinishesDown? || op.Posts? || op.LocksMutex? || op.FinishesLock? || op.UnlocksMutex? || op.Cancels?
  }

  /** The short operations. */
  lemma QuietUntaken(k: K, op: Op)
    requires Sized(k) && Fits(k, op) && (op.Spawns? || op.SetsPriority? || op.SetsPolicy? || op.LocksScheduler?)
    ensures Untaken(k, Apply(k, op).0)
  {
    hide Refresh, InReady, Without;
  }

  lemma SameUntaken(k: K)
    requires Sized(k)
    ensures Untaken(k, k)
  {
  }

  lemma OthersUntaken(k: K, op: Op)
    requires Inv(k) && Enabled(k, op) && !IsWaitOp(op)
    ensures Untaken(k, Apply(k, op).0)
  {
    hide Core, Side, Yield, Sleep, Exit, UnlockScheduler, OnTimer, Trap, Untaken, Spawn, SetPriority, SetPolicy, LockScheduler;
    match op
    case Yields(now, _) => SameUntaken(k); YieldUntaken(k, now);
    case Sleeps(until, _) => SameUntaken(k); SleepUntaken(k, until);
    case Exits => ExitUntaken(k);
    case UnlocksScheduler(now, _) => SameUntaken(k); UnlockSchedulerUntaken(k, now);
    case TimerFires(now, slice) => OnTimerUntaken(k, now, slice);
    case Traps(now) => TrapUntaken(k, now);
    case _ => QuietUntaken(k, op);
  }

  // ---- Permits ---------------------------------------------------------------------------------------

  /** The tasks holding an unconsumed grant of semaphore `s`. */
  ghost function Grantees(grants: seq<Option<nat>>, s: nat): set<nat> {
    set t: nat | t < |grants| && grants[t] == Some(s)
  }

  function One(b: bool): nat { if b then 1 else 0 }

  lemma GranteesMoved(grants: seq<Option<nat>>, t: nat, x: Option<nat>, s: nat)
    requires t < |grants|
    ensures |Grantees(grants[t := x], s)| + One(grants[t] == Some(s)) == |Grantees(grants, s)| + One(x == Some(s))
  {
    var a, b := Grantees(grants, s), Grantees(grants[t := x], s);
    assert a - {t} == b - {t};
    assert a == if t in a then (a - {t}) + {t} else a - {t};
    assert b == if t in b then (b - {t}) + {t} else b - {t};
  }

  /** Permits a semaphore still owes its users: banked ones and grants nobody consumed yet. */
  ghost function Supply(k: K, s: nat): nat
    requires s < |k.count|
  {
    k.count[s] + |Grantees(k.grantSem, s)|
  }

  /** The step tells its caller that it now has a permit of `s`. */
  ghost predicate Takes(k: K, op: Op, s: nat)
    requires Sized(k) && Fits(k, op)
  {
    && Apply(k, op).1.Acquired?
    && ((op.Downs? && op.s == s) || (op.FinishesDown? && k.grantSem[k.current] == Some(s)))
  }

  lemma ReleaseSemSupply(k: K, s: nat, s': nat)
    requires Inv(k) && s < |k.count| && s' < |k.count|
    ensures var r := ReleaseSem(k, s);
      && |r.count| == |k.count| && Supply(r, s') == Supply(k, s') + One(s == s')
      && r.owner == k.owner && r.depth == k.depth && r.grantMtx == k.grantMtx && N(r) == N(k)
  {
    hide Core, Side, Grantees;
    var ws := k.q[SemList(k, s)];
    if ws != [] {
      SemQueue(k, s, ws[0]);
      WaitersUngranted(k, ws[0]);
      assert k.grantSem[ws[0] := None][ws[0]].None?;
      GranteesMoved(k.grantSem, ws[0], Some(s), s');
    }
  }

  lemma CancelSupply(k: K, t: nat, s: nat)
    requires Inv(k) && t < N(k) && s < |k.count|
    ensures var r := Cancel(k, t).0; |r.count| == |k.count| && Supply(r, s) == Supply(k, s)
  {
    hide Core, Side, Grantees, ReleaseSem, ReleaseMutex, LeaveSem, LeaveMtx;
    if k.waitSem[t].Some? {
      LeaveSemIs(k, t);
      WaitersUngranted(k, t);
    } else if k.grantSem[t].Some? {
      UngrantedKeeps(k, t);
      var k1 := k.(grantSem := k.grantSem[t := None], granted := k.granted[t := false]);
      GranteesMoved(k.grantSem, t, None, s);
      ReleaseSemSupply(k1, k.grantSem[t].value, s);
    } else if k.waitMtx[t].Some? {
      LeaveMtxIs(k, t);
    } else if k.grantMtx[t].Some? {
      var m := k.grantMtx[t].value;
      ReleaseMutexIs(k.(grantMtx := k.grantMtx[t := None], granted := k.granted[t := false], depth := k.depth[m := 0]), m, t);
    }
  }

  lemma ConsumeSemSupply(k: K, s: nat)
    requires Inv(k) && k.call[k.current] == InSemaphore && s < |k.count|
    ensures var (r, reply) := ConsumeSem(k);
      && reply.Acquired? == k.grantSem[k.current].Some?
      && |r.count| == |k.count| && Supply(r, s) + One(k.grantSem[k.current] == Some(s)) == Supply(k, s)
  {
    hide Core, Hart, Locks, Quotas, Dry, Reasons, Owners, HandedOff, Grantees;
    GranteesMoved(k.grantSem, k.current, None, s);
  }

  lemma SemDownSupply(k: K, s: nat, patience: Patience, deliverable: bool, s': nat)
    requires Sized(k) && s < |k.count| && s' < |k.count|
    ensures var (r, reply) := SemDown(k, s, patience, deliverable);
      && |r.count| == |k.count| && Supply(r, s') + One(reply.Acquired? && s == s') == Supply(k, s')
      && r.owner == k.owner && r.depth == k.depth && r.grantMtx == k.grantMtx && N(r) == N(k) && r.lastSeq == k.lastSeq
  {
    hide Grantees, FirstBucket, Insert;
  }

  lemma EnlistUntaken(k: K, m: nat, patience: Patience)
    requires Sized(k) && m < |k.owner| && k.owner[m].Some?
    ensures var r := SwitchAway(Enlist(k, m, patience)); SameHoldings(k, r) && r.lastSeq == k.lastSeq
  {
    hide AddInheritance, SwitchAway, Insert;
    SwitchAwayUntaken(Enlist(k, m, patience));
  }

  /** The mutex operations leave every permit alone. */
  lemma MutexLockSupply(k: K, m: nat, patience: Patience, deliverable: bool)
    requires Sized(k) && m < |k.owner|
    ensures var r := MutexLock(k, m, patience, deliverable).0;
      r.count == k.count && r.grantSem == k.grantSem && r.lastSeq == k.lastSeq
  {
    hide Enlist, SwitchAway, ChainContains;
    if k.owner[m].Some? {
      EnlistUntaken(k, m, patience);
    }
  }

  lemma MutexUnlockSupply(k: K, m: nat)
    requires Sized(k) && m < |k.owner|
    ensures var r := MutexUnlock(k, m).0; r.count == k.count && r.grantSem == k.grantSem && r.lastSeq == k.lastSeq
  {
    hide ReleaseMutex;
    if k.depth[m] != 0 {
      ReleaseMutexIs(k.(depth := k.depth[m := k.depth[m] - 1]), m, k.current);
    }
  }

  lemma MutexSupply(k: K, op: Op)
    requires Sized(k) && Fits(k, op) && (op.LocksMutex? || op.FinishesLock? || op.UnlocksMutex?)
    ensures var r := Apply(k, op).0; r.count == k.count && r.grantSem == k.grantSem && r.lastSeq == k.lastSeq
  {
    hide MutexLock, MutexUnlock;
    if op.LocksMutex? {
      MutexLockSupply(k, op.m, op.patience, op.deliverable);
    } else if op.UnlocksMutex? {
      MutexUnlockSupply(k, op.m);
    }
  }

  /** Each step conserves permits: posts add one, acquisitions take one, and blocking, handing
      off, timing out and cancelling only move them. */
  lemma SupplyStep(k: K, op: Op, s: nat)
    requires Inv(k) && Enabled(k, op) && s < |k.count|
    ensures var r := Apply(k, op).0;
      |r.count| == |k.count| && Supply(r, s) + One(Takes(k, op, s)) == Supply(k, s) + One(op == Posts(s))
  {
    hide Core, Side, Grantees, Cancel, ReleaseSem, SemDown, ConsumeSem, MutexLock, MutexUnlock, ConsumeMtx;
    if !IsWaitOp(op) {
      OthersUntaken(k, op);
    } else if op.LocksMutex? || op.FinishesLock? || op.UnlocksMutex? {
      MutexSupply(k, op);
    } else if op.Posts? {
      ReleaseSemSupply(k, op.s, s);
    } else if op.Cancels? {
      CancelSupply(k, op.t, s);
    } else if op.Downs? {
      SemDownSupply(k, op.s, op.patience, op.deliverable, s);
    } else {
      ConsumeSemSupply(k, s);
    }
  }

  ghost function Posted(k: K, ops: seq<Op>, s: nat): nat
    requires Legal(k, ops)
    decreases |ops|
  {
    if ops == [] then 0 else One(ops[0] == Posts(s)) + Posted(Apply(k, ops[0]).0, ops[1..], s)
  }

  ghost function Taken(k: K, ops: seq<Op>, s: nat): nat
    requires Legal(k, ops)
    decreases |ops|
  {
    if ops == [] then 0 else One(Takes(k, ops[0], s)) + Taken(Apply(k, ops[0]).0, ops[1..], s)
  }

  /** Over any run: banked permits + unconsumed grants + acquisitions = initial supply + posts. */
  lemma {:induction false} PermitsConserved(k: K, ops: seq<Op>, s: nat)
    requires Inv(k) && Legal(k, ops) && s < |k.count|
    ensures var r := Run(k, ops);
      |r.count| == |k.count| && Supply(r, s) + Taken(k, ops, s) == Supply(k, s) + Posted(k, ops, s)
    decreases |ops|
  {
    hide Core, Side, Apply, Fits, Takes, Grantees;
    if ops != [] {
      SupplyStep(k, ops[0], s);
      StepKeeps(k, ops[0]);
      PermitsConserved(Apply(k, ops[0]).0, ops[1..], s);
    }
  }

  /** A semaphore somebody waits for has no banked permit, and a post on it grants one to the
      first of its most urgent waiters, who becomes ready. */
  lemma PostPicksBest(k: K, s: nat)
    requires Inv(k) && s < |k.count|
    ensures k.q[SemList(k, s)] != [] ==>
      var (r, w) := (ReleaseSem(k, s), k.q[SemList(k, s)][0]);
      && k.count[s] == 0 == r.count[s]
      && k.waitSem[w] == Some(s) && r.waitSem[w].None? && r.grantSem[w] == Some(s) && r.granted[w] && r.state[w] == Ready
      && (forall x :: 0 <= x < N(k) && k.waitSem[x] == Some(s) ==> k.prio[w] <= k.prio[x])
    ensures k.q[SemList(k, s)] == [] ==> forall x :: 0 <= x < N(k) ==> k.waitSem[x] != Some(s)
  {
    hide Ledger, Effective, Acyclic, Owners, Calls, HandedOff, Hart, Locks, Quotas, Priced;
    var l := SemList(k, s);
    forall x | 0 <= x < N(k) && k.waitSem[x] == Some(s) ensures x in k.q[l] && k.q[l] != [] && k.prio[k.q[l][0]] <= k.prio[x] {
      assert Homes(k)[x] == Some(l);
      var i :| 0 <= i < |k.q[l]| && k.q[l][i] == x;
      assert Sorted(k.q[l], k.prio);
    }
    if k.q[l] != [] {
      SemQueue(k, s, k.q[l][0]);
    }
  }

  // ---- Mutexes ---------------------------------------------------------------------------------------

  /** How often `t` holds `m` as far as `t` has been told: a grant counts once it is consumed. */
  function HeldBy(k: K, t: nat, m: nat): nat
    requires Sized(k) && t < N(k) && m < |k.owner|
  {
    if k.owner[m] == Some(t) && k.grantMtx[t] != Some(m) then k.depth[m] else 0
  }

  /** The step tells `t` that it acquired `m`. */
  ghost predicate Gains(k: K, op: Op, t: nat, m: nat)
    requires Sized(k) && Fits(k, op)
  {
    && k.current == t && Apply(k, op).1.Acquired?
    && ((op.LocksMutex? && op.m == m) || (op.FinishesLock? && k.grantMtx[t] == Some(m)))
  }

  /** The step is a successful unlock of `m` by `t`. */
  ghost predicate Gives(k: K, op: Op, t: nat, m: nat)
    requires Sized(k) && Fits(k, op)
  {
    k.current == t && Apply(k, op).1.Acquired? && op == UnlocksMutex(m)
  }

  lemma ReleaseMutexHeld(k0: K, m: nat, o: nat, t: nat, m': nat)
    requires Inv(k0) && m < |k0.owner| && m' < |k0.owner| && t < N(k0) && k0.owner[m] == Some(o)
    requires k0.grantMtx[o] != Some(m)
    ensures var r := ReleaseMutex(k0.(depth := k0.depth[m := 0]), m, o);
      && N(r) == N(k0) && |r.owner| == |k0.owner|
      && HeldBy(r, t, m') == if m == m' then 0 else HeldBy(k0, t, m')
  {
    hide Core, Side, ReleaseMutex;
    ReleaseMutexIs(k0.(depth := k0.depth[m := 0]), m, o);
    var ws := k0.q[MtxList(k0, m)];
    if ws != [] {
      NobodyWaits(k0, m, ws[0]);
      WaitersUngranted(k0, ws[0]);
      assert k0.grantMtx[ws[0] := None][ws[0]].None?;
    }
  }

  lemma MutexLockHeld(k: K, m: nat, patience: Patience, deliverable: bool, t: nat, m': nat)
    requires Inv(k) && k.call[k.current] == User && m < |k.owner| && m' < |k.owner| && t < N(k)
    ensures var (r, reply) := MutexLock(k, m, patience, deliverable);
      && N(r) == N(k) && |r.owner| == |k.owner|
      && HeldBy(r, t, m') == HeldBy(k, t, m') + One(k.current == t && reply.Acquired? && m == m')
  {
    hide Core, Side, Enlist, SwitchAway, ChainContains;
    if k.owner[m].Some? {
      EnlistUntaken(k, m, patience);
    }
    WaitersUngranted(k, k.current);
    assert k.grantMtx[k.current := None][k.current].None?;
  }

  lemma MutexUnlockHeld(k: K, m: nat, t: nat, m': nat)
    requires Inv(k) && k.call[k.current] == User && m < |k.owner| && m' < |k.owner| && t < N(k)
    ensures var (r, reply) := MutexUnlock(k, m);
      && N(r) == N(k) && |r.owner| == |k.owner|
      && HeldBy(r, t, m') + One(k.current == t && reply.Acquired? && m == m') == HeldBy(k, t, m')
  {
    hide Core, Side, ReleaseMutex;
    WaitersUngranted(k, k.current);
    assert k.grantMtx[k.current := None][k.current].None?;
    if k.owner[m] == Some(k.current) && k.depth[m] == 1 {
      ReleaseMutexHeld(k, m, k.current, t, m');
    }
  }

  lemma ConsumeMtxHeld(k: K, t: nat, m: nat)
    requires Inv(k) && k.call[k.current] == InMutex && t < N(k) && m < |k.owner|
    ensures var (r, reply) := ConsumeMtx(k);
      && N(r) == N(k) && |r.owner| == |k.owner|
      && HeldBy(r, t, m) == HeldBy(k, t, m) + One(k.current == t && reply.Acquired? && k.grantMtx[t] == Some(m))
      && reply.Acquired? == k.grantMtx[k.current].Some?
  {
    hide Core, Hart, Locks, Quotas, Dry, Reasons, Owners;
  }

  lemma CancelHeld(k: K, x: nat, t: nat, m: nat)
    requires Inv(k) && x < N(k) && t < N(k) && m < |k.owner|
    ensures var r := Cancel(k, x).0; N(r) == N(k) && |r.owner| == |k.owner| && HeldBy(r, t, m) == HeldBy(k, t, m)
  {
    hide Core, Side, ReleaseSem, ReleaseMutex, LeaveSem, LeaveMtx, Grantees;
    if k.waitSem[x].Some? {
      LeaveSemIs(k, x);
    } else if k.grantSem[x].Some? {
      UngrantedKeeps(k, x);
      var k1 := k.(grantSem := k.grantSem[x := None], granted := k.granted[x := false]);
      ReleaseSemSupply(k1, k.grantSem[x].value, k.grantSem[x].value);
    } else if k.waitMtx[x].Some? {
      LeaveMtxIs(k, x);
      WaitersUngranted(k, x);
    } else if k.grantMtx[x].Some? {
      UngrantedKeeps(k, x);
      HandedOffOwner(k, x);
      ReleaseMutexHeld(k.(grantMtx := k.grantMtx[x := None], granted := k.granted[x := false]), k.grantMtx[x].value, x, t, m);
    }
  }

  /** No other step changes what a task holds. */
  lemma OthersHeld(k: K, op: Op, t: nat, m: nat)
    requires Inv(k) && Enabled(k, op) && t < N(k) && m < |k.owner|
    requires !op.LocksMutex? && !op.UnlocksMutex? && !op.FinishesLock?
    ensures var r := Apply(k, op).0; N(r) == N(k) && |r.owner| == |k.owner| && HeldBy(r, t, m) == HeldBy(k, t, m)
  {
    hide Core, Side, Grantees, Cancel, ReleaseSem, SemDown, ConsumeSem, Supply;
    if !IsWaitOp(op) {
      OthersUntaken(k, op);
    } else if op.Posts? {
      ReleaseSemSupply(k, op.s, op.s);
    } else if op.Cancels? {
      CancelHeld(k, op.t, t, m);
    } else if op.Downs? {
      SemDownSupply(k, op.s, op.patience, op.deliverable, op.s);
    } else {
      ConsumeSemHeld(k, t, m);
    }
  }

  lemma ConsumeSemHeld(k: K, t: nat, m: nat)
    requires Sized(k) && t < N(k) && m < |k.owner|
    ensures var r := ConsumeSem(k).0; N(r) == N(k) && |r.owner| == |k.owner| && HeldBy(r, t, m) == HeldBy(k, t, m)
  {
  }

  /** Each step changes what a task holds only by telling that task so. */
  lemma HeldStep(k: K, op: Op, t: nat, m: nat)
    requires Inv(k) && Enabled(k, op) && t < N(k) && m < |k.owner|
    ensures var r := Apply(k, op).0;
      && N(r) == N(k) && |r.owner| == |k.owner|
      && HeldBy(r, t, m) + One(Gives(k, op, t, m)) == HeldBy(k, t, m) + One(Gains(k, op, t, m))
  {
    hide Core, Side, Cancel, ReleaseSem, SemDown, ConsumeSem, MutexLock, MutexUnlock, ConsumeMtx;
    if op.LocksMutex? {
      MutexLockHeld(k, op.m, op.patience, op.deliverable, t, m);
    } else if op.UnlocksMutex? {
      MutexUnlockHeld(k, op.m, t, m);
    } else if op.FinishesLock? {
      ConsumeMtxHeld(k, t, m);
    } else {
      OthersHeld(k, op, t, m);
    }
  }

  ghost function Gained(k: K, ops: seq<Op>, t: nat, m: nat): nat
    requires Legal(k, ops)
    decreases |ops|
  {
    if ops == [] then 0 else One(Gains(k, ops[0], t, m)) + Gained(Apply(k, ops[0]).0, ops[1..], t, m)
  }

  ghost function Given(k: K, ops: seq<Op>, t: nat, m: nat): nat
    requires Legal(k, ops)
    decreases |ops|
  {
    if ops == [] then 0 else One(Gives(k, ops[0], t, m)) + Given(Apply(k, ops[0]).0, ops[1..], t, m)
  }

  /** Over any run the depth at which a task holds a mutex is its acquisitions minus its unlocks. */
  lemma {:induction false} HoldingsConserved(k: K, ops: seq<Op>, t: nat, m: nat)
    requires Inv(k) && Legal(k, ops) && t < N(k) && m < |k.owner|
    ensures var r := Run(k, ops);
      && Sized(r) && N(r) == N(k) && |r.owner| == |k.owner|
      && HeldBy(r, t, m) + Given(k, ops, t, m) == HeldBy(k, t, m) + Gained(k, ops, t, m)
    decreases |ops|
  {
    hide Core, Side, Apply, Fits, Gains, Gives, HeldBy;
    if ops != [] {
      HeldStep(k, ops[0], t, m);
      StepKeeps(k, ops[0]);
      HoldingsConserved(Apply(k, ops[0]).0, ops[1..], t, m);
    }
  }

  /** Mutual exclusion, counted from what the callers were told: in any run from the start, at
      most one task has acquired a mutex more often than it unlocked it. */
  lemma MutualExclusion(n: nat, counts: seq<nat>, mutexes: nat, ops: seq<Op>, t: nat, t': nat, m: nat)
    requires 2 <= n <= SLOT_LIMIT && Legal(Boot(n, counts, mutexes), ops) && t < n && t' < n && m < mutexes
    requires var k := Boot(n, counts, mutexes);
      Gained(k, ops, t, m) > Given(k, ops, t, m) && Gained(k, ops, t', m) > Given(k, ops, t', m)
    ensures t == t'
  {
    hide Core, Side, Gained, Given, Legal, Run;
    var k := Boot(n, counts, mutexes);
    BootKeeps(n, counts, mutexes);
    HoldingsConserved(k, ops, t, m);
    HoldingsConserved(k, ops, t', m);
  }
}
