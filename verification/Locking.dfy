/** What the scheduler lock promises: nobody but the outermost unlock takes the hart away. */
module Locking {
  import opened Lists
  import Budget
  import opened Kernel
  import opened Inheritance
  import opened Invariant
  import opened MutexSteps
  import opened Preserved
  import opened PreservedMutex
  import opened PreservedHart
  import opened Runs

  /** `r` still runs the task `k` ran, with no switch requested. */
  predicate Stays(k: K, r: K)
    requires Sized(k) && Sized(r)
  {
    r.current == k.current && r.state[r.current] == Running && r.pending.None?
  }

  /** A deferred exhaustion is still pending. */
  predicate Sticks(k: K, r: K)
    requires Sized(k) && Sized(r)
  {
    k.budget[k.current].lockOverrun ==> r.budget[r.current].lockOverrun
  }

  /** Holding the lock means running, with no ticket pending. */
  lemma LockedRuns(k: K)
    requires Inv(k) && k.lockDepth[k.current] != 0
    ensures k.state[k.current] == Running && k.pending.None?
  {
    hide Core, Owners, Calls, HandedOff, Dry, Reasons, Quotas;
  }

  /** The timer scans leave tickets, the running task and its budget alone. */
  predicate SameHart(k: K, r: K)
    requires Sized(k) && Sized(r)
  {
    && N(r) == N(k) && r.current == k.current && r.pending == k.pending && r.lockDepth == k.lockDepth && r.lockStart == k.lockStart
    && r.nextSeq == k.nextSeq && r.lastSeq == k.lastSeq
    && (k.state[k.current] == Running ==> r.state[k.current] == Running && r.budget[k.current] == k.budget[k.current])
  }

  lemma WakeOneHart(k: K, t: nat, now: nat)
    requires Sized(k) && t < N(k)
    ensures SameHart(k, WakeOne(k, t, now))
  {
    hide LeaveMtx, LeaveSem;
    if k.waitMtx[t].Some? {
      LeaveMtxIs(k, t);
    }
    if k.waitSem[t].Some? {
      LeaveSemIs(k, t);
    }
  }

  lemma ReplenishOneHart(k: K, t: nat, now: nat)
    requires Sized(k) && t < N(k) && now <= Budget.U64_MAX
    ensures SameHart(k, ReplenishOne(k, t, now))
  {
  }

  lemma {:induction false} WakeFirstHart(k: K, n: nat, now: nat)
    requires Sized(k) && n <= N(k)
    ensures SameHart(k, WakeFirst(k, n, now))
  {
    hide WakeOne;
    if n > 0 {
      WakeFirstHart(k, n - 1, now);
      WakeOneHart(WakeFirst(k, n - 1, now), n - 1, now);
    }
  }

  lemma {:induction false} ReplenishFirstHart(k: K, n: nat, now: nat)
    requires Sized(k) && n <= N(k) && now <= Budget.U64_MAX
    ensures SameHart(k, ReplenishFirst(k, n, now))
  {
    hide ReplenishOne;
    if n > 0 {
      ReplenishFirstHart(k, n - 1, now);
      ReplenishOneHart(ReplenishFirst(k, n - 1, now), n - 1, now);
    }
  }

  lemma WakeSleepersHart(k: K, now: nat)
    requires Sized(k) && now <= Budget.U64_MAX
    ensures SameHart(k, WakeSleepers(k, now))
  {
    hide ReplenishFirst, WakeFirst;
    WakeFirstHart(k, N(k), now);
    ReplenishFirstHart(WakeFirst(k, N(k), now), N(k), now);
  }

  lemma OnTimerStays(k: K, now: nat, slice: bool)
    requires Inv(k) && k.lockDepth[k.current] != 0 && now <= Budget.U64_MAX
    ensures Stays(k, OnTimer(k, now, slice))
    ensures Sticks(k, OnTimer(k, now, slice))
  {
    hide Core, Side, WakeSleepers;
    LockedRuns(k);
    WakeSleepersHart(k, now);
  }

  lemma ReleaseSemStays(k: K, s: nat)
    requires Inv(k) && k.state[k.current] == Running && k.pending.None? && s < |k.count|
    ensures Stays(k, ReleaseSem(k, s)) && Sticks(k, ReleaseSem(k, s))
  {
    hide Core, Side;
    WaitersAside(k);
    if k.q[SemList(k, s)] != [] {
      SemQueue(k, s, k.q[SemList(k, s)][0]);
    }
  }

  /** Also `k0` with the depth already taken down to zero. */
  lemma ReleaseMutexStays(k0: K, m: nat, o: nat)
    requires Inv(k0) && k0.state[k0.current] == Running && k0.pending.None? && m < |k0.owner| && o < N(k0)
    ensures var r := ReleaseMutex(k0.(depth := k0.depth[m := 0]), m, o); Stays(k0, r) && Sticks(k0, r)
  {
    hide Core, Side, ReleaseMutex;
    WaitersAside(k0);
    ReleaseMutexIs(k0.(depth := k0.depth[m := 0]), m, o);
    if k0.q[MtxList(k0, m)] != [] {
      NobodyWaits(k0, m, k0.q[MtxList(k0, m)][0]);
    }
  }

  lemma CancelStays(k: K, t: nat)
    requires Inv(k) && k.state[k.current] == Running && k.pending.None? && t < N(k)
    ensures Stays(k, Cancel(k, t).0) && Sticks(k, Cancel(k, t).0)
  {
    hide Core, Side, LeaveSem, LeaveMtx, ReleaseSem, ReleaseMutex;
    WaitersAside(k);
    if k.waitSem[t].Some? {
      LeaveSemIs(k, t);
    } else if k.grantSem[t].Some? {
      UngrantedKeeps(k, t);
      ReleaseSemStays(k.(grantSem := k.grantSem[t := None], granted := k.granted[t := false]), k.grantSem[t].value);
    } else if k.waitMtx[t].Some? {
      LeaveMtxIs(k, t);
    } else if k.grantMtx[t].Some? {
      UngrantedKeeps(k, t);
      ReleaseMutexStays(k.(grantMtx := k.grantMtx[t := None], granted := k.granted[t := false]), k.grantMtx[t].value, t);
    }
  }

  lemma MutexUnlockStays(k: K, m: nat)
    requires Inv(k) && k.state[k.current] == Running && k.pending.None? && m < |k.owner|
    ensures Stays(k, MutexUnlock(k, m).0) && Sticks(k, MutexUnlock(k, m).0)
  {
    hide Core, Side, ReleaseMutex;
    if k.owner[m] == Some(k.current) && k.depth[m] == 1 {
      ReleaseMutexStays(k, m, k.current);
    }
  }

  /** Calls that would give the hart up are refused. */
  lemma CallsStay(k: K, op: Op)
    requires Sized(k) && Fits(k, op) && k.lockDepth[k.current] != 0 && k.state[k.current] == Running && k.pending.None?
    requires op.Yields? || op.Sleeps? || op.Downs? || op.LocksMutex? || op.FinishesDown? || op.FinishesLock?
    ensures var (r, reply) := Apply(k, op);
      && Stays(k, r) && Sticks(k, r)
      && ((op.Yields? || op.Sleeps?) ==> reply.Refused? && r == k)
      && ((op.Downs? || op.LocksMutex?) ==> !reply.Suspended?)
  {
    hide SwitchAway, WakeSleepers, Enlist, ChainContains, PopReady;
  }

  /** Neither the trap nor an inner unlock switches. */
  lemma TrapStays(k: K, now: nat)
    requires Sized(k) && k.lockDepth[k.current] != 0 && k.state[k.current] == Running && k.pending.None? && now <= Budget.U64_MAX
    ensures Trap(k, now) == k
    ensures k.lockDepth[k.current] > 1 ==> UnlockScheduler(k, now).0 == Released(k)
    ensures Stays(k, k) && Sticks(k, k) && Stays(k, Released(k)) && Sticks(k, Released(k))
  {
    hide PopReady, PopReadyOrIdle, Dispatch, ThrottleCurrent;
  }

  lemma QuietStays(k: K, op: Op)
    requires Sized(k) && Fits(k, op) && k.state[k.current] == Running && k.pending.None?
    requires op.SetsPriority? || op.SetsPolicy? || op.LocksScheduler? || (op.Spawns? && k.state[op.slot] == Free)
    ensures Stays(k, Apply(k, op).0)
    ensures (op.SetsPolicy? && op.t == k.current) || Sticks(k, Apply(k, op).0)
  {
    hide Refresh, InReady, Without;
  }

  /** While the lock is held, no step of any kind takes the hart away from its holder, except
      the outermost unlock itself; blocking calls are refused instead. Nor does a deferred
      exhaustion get lost: only a policy change of the task itself clears it. */
  lemma LockHolds(k: K, op: Op)
    requires Inv(k) && Enabled(k, op) && k.lockDepth[k.current] != 0
    requires !(op.UnlocksScheduler? && k.lockDepth[k.current] == 1)
    ensures Stays(k, Apply(k, op).0)
    ensures !(op.SetsPolicy? && op.t == k.current) ==> Sticks(k, Apply(k, op).0)
    ensures (op.Yields? || op.Sleeps?) ==> Apply(k, op).1.Refused? && Apply(k, op).0 == k
    ensures (op.Downs? || op.LocksMutex?) ==> !Apply(k, op).1.Suspended?
  {
    hide Core, Side, Yield, Sleep, Exit, Spawn, SemDown, ConsumeSem, ReleaseSem, MutexLock, ConsumeMtx, MutexUnlock,
      Cancel, SetPriority, SetPolicy, LockScheduler, UnlockScheduler, OnTimer, Trap, Stays, Sticks;
    LockedRuns(k);
    match op
    case TimerFires(now, slice) => OnTimerStays(k, now, slice);
    case Posts(s) => ReleaseSemStays(k, s);
    case Cancels(t) => CancelStays(k, t);
    case UnlocksMutex(m) => MutexUnlockStays(k, m);
    case Traps(now) => TrapStays(k, now);
    case UnlocksScheduler(now, _) => TrapStays(k, now);
    case SetsPriority(_, _) => QuietStays(k, op);
    case SetsPolicy(_, _, _) => QuietStays(k, op);
    case LocksScheduler(_, _) => QuietStays(k, op);
    case Spawns(_, _, _, _) => QuietStays(k, op);
    case Exits =>
    case _ => CallsStay(k, op);
  }

  /** The outermost unlock after a deferred exhaustion: the task is throttled with nothing
      left, becomes eligible strictly later, at the next boundary of its own phase, and the
      most urgent ready task (or idle) has the ticket. */
  lemma UnlockThrottles(k: K, now: nat)
    requires Inv(k) && k.lockDepth[k.current] == 1 && k.budget[k.current].lockOverrun && now < Budget.U64_MAX
    ensures var (r, reply) := UnlockScheduler(k, now);
      var (c, b) := (k.current, k.budget[k.current]);
      && reply.Suspended? && Inv(r)
      && r.state[c] == Throttled && r.lockDepth[c] == 0 && !r.budget[c].lockOverrun && r.budget[c].remaining == 0
      && r.budget[c].replenishesAt > now && !Budget.ReplenishDue(r.budget[c], now)
      && r.pending.Some? && r.pending.value.previous == c && r.pending.value.target != c
  {
    hide Core, FirstBucket, Owners, Calls, HandedOff, Dry, Reasons, Quotas, Budget.Throttled;
    LockedRuns(k);
    UnlockSchedulerKeeps(k, now);
    Budget.ThrottledLater(k.budget[k.current], now);
    assert Budget.Throttled(k.budget[k.current], now).remaining == 0 && !Budget.Throttled(k.budget[k.current], now).lockOverrun by {
      ThrottledEmpty(k.budget[k.current], now);
    }
  }

  lemma ThrottledEmpty(b: Budget.State, now: nat)
    requires b.spec.Some? && b.spec.value.period > 0
    ensures Budget.Throttled(b, now).remaining == 0 && !Budget.Throttled(b, now).lockOverrun
  {
  }
}
