/** What the invariant means for users of the scheduler, step by step and over runs. */
module Theorems {
  import opened Lists
  import Budget
  import opened Kernel
  import opened Inheritance
  import opened Chains
  import opened Invariant
  import opened Steps
  import opened MutexSteps
  import opened Preserved
  import opened PreservedMutex
  import opened PreservedHart
  import opened Runs
  import opened Accounts
  import opened Locking

  // ---- Ownership of ready tasks ------------------------------------------------------------------

  ghost predicate Holds(q: seq<seq<nat>>, l: nat, t: nat) {
    l < |q| && t in q[l]
  }

  /** What list `l` has to do with task `t`: a non-idle Ready task is in its own bucket and no
      other list, or it is the pending target and in none; a waiter is in the queue it waits in and
      nowhere else; every other task is in none. No list holds a task twice, and wait queues are in
      order of urgency. */
  ghost predicate ListOwned(k: K, t: nat, l: nat)
    requires Sized(k) && t < N(k) && l < |k.q|
  {
    && NoDup(k.q[l])
    && (k.state[t] == Ready ==> (Holds(k.q, l, t) <==> l == k.prio[t] && t != IDLE && !IsTarget(k, t)))
    && (k.state[t] == Blocked ==>
          (Holds(k.q, l, t) <==>
            (k.waitSem[t].Some? && l == SemList(k, k.waitSem[t].value)) || (k.waitMtx[t].Some? && l == MtxList(k, k.waitMtx[t].value))))
    && (k.state[t] in {Free, Running, Sleeping, Throttled} ==> !Holds(k.q, l, t))
    && (LEVELS <= l ==> Sorted(k.q[l], k.prio))
  }

  /** One hart: at most one task runs, and it is `current`; a pending ticket means nobody runs
      and `current` is its source; without either, the timer has just throttled `current`. */
  ghost predicate HartOwned(k: K, t: nat)
    requires Sized(k) && t < N(k)
  {
    && (k.state[t] == Running ==> t == k.current && k.pending.None?)
    && (k.pending.Some? ==> k.pending.value.previous == k.current && k.state[k.pending.value.target] == Ready)
    && (k.pending.None? && k.state[k.current] != Running ==> k.state[k.current] in {Throttled, Ready})
    && k.state[IDLE] in {Ready, Running}
    && k.nextSeq == k.lastSeq + One(k.pending.Some?)
  }

  lemma Owned(k: K, t: nat, l: nat)
    requires Inv(k) && t < N(k) && l < |k.q|
    ensures ListOwned(k, t, l)
  {
    hide Ledger, Effective, Acyclic, Owners, Calls, HandedOff, Dry, Hart, Locks, Quotas;
    assert t in k.q[l] <==> Homes(k)[t] == Some(l);
  }

  /** Both in every state of every run from the start. */
  lemma ReachableOwnership(n: nat, counts: seq<nat>, mutexes: nat, ops: seq<Op>, t: nat, l: nat)
    requires 2 <= n <= SLOT_LIMIT && Legal(Boot(n, counts, mutexes), ops)
    ensures var k := Run(Boot(n, counts, mutexes), ops);
      Sized(k) && (t < N(k) ==> HartOwned(k, t) && (l < |k.q| ==> ListOwned(k, t, l)))
  {
    hide Boot, Core, Rest, ListOwned;
    ReachableInv(n, counts, mutexes, ops);
    var k := Run(Boot(n, counts, mutexes), ops);
    if t < N(k) && l < |k.q| {
      Owned(k, t, l);
    }
  }

  // ---- Priorities ------------------------------------------------------------------------------------

  /** In every reachable state the incrementally maintained priorities are the global ones. */
  lemma ReachablePriority(n: nat, counts: seq<nat>, mutexes: nat, ops: seq<Op>, t: nat)
    requires 2 <= n <= SLOT_LIMIT && Legal(Boot(n, counts, mutexes), ops)
    requires t < N(Run(Boot(n, counts, mutexes), ops))
    ensures var k := Run(Boot(n, counts, mutexes), ops);
      && Inv(k)
      && (forall w :: 0 <= w < N(k) && Reaches(Edges(k), w, t) ==> k.prio[t] <= k.base[w])
      && (exists w :: 0 <= w < N(k) && Reaches(Edges(k), w, t) && k.prio[t] == k.base[w])
  {
    hide Boot, Side, Ledger, Effective, Placed, WaitSorted, Waiting;
    ReachableInv(n, counts, mutexes, ops);
    var k := Run(Boot(n, counts, mutexes), ops);
    FallsInRange(k);
    GlobalPriority(k, t);
  }

  lemma FallsInRange(k: K)
    requires Core(k)
    ensures InRange(Edges(k), N(k))
  {
    hide Mid, Effective;
    var f :| Falls(Edges(k), f);
  }

  /** A donation count never exceeds what its byte can hold: nobody donates to itself. */
  lemma CountsFit(k: K, o: nat, p: nat)
    requires Inv(k) && o < N(k) && p < LEVELS
    ensures k.inh[o][p] <= N(k) - 1 <= 255
  {
    hide Placed, WaitSorted, Waiting, Effective, Side;
    var d := Donors(Edges(k), k.prio, o, p);
    var f :| Falls(Edges(k), f);
    assert o !in d;
    SetBelow(d + {o}, N(k));
    assert |d + {o}| == |d| + 1;
  }

  // ---- Who runs next -----------------------------------------------------------------------------------

  /** `t` waits in a ready bucket. */
  predicate Eligible(k: K, t: nat)
    requires Sized(k)
  {
    t < N(k) && k.state[t] == Ready && t != IDLE && !IsTarget(k, t)
  }

  /** Popping takes the first of the most urgent eligible tasks, and nothing only when there is
      none. */
  lemma PickIsBest(k: K)
    requires Inv(k)
    ensures match PopReady(k).1
      case None => forall t :: 0 <= t < N(k) ==> !Eligible(k, t)
      case Some(x) =>
        && Eligible(k, x) && k.q[k.prio[x]][0] == x
        && forall t :: 0 <= t < N(k) && Eligible(k, t) ==> k.prio[x] <= k.prio[t] && t in k.q[k.prio[t]]
  {
    hide Ledger, Effective, Acyclic, Side, FirstBucket, WaitSorted, PopReady;
    PoppedIs(k);
    forall t | 0 <= t < N(k) && Eligible(k, t) ensures t in k.q[k.prio[t]] && k.q[k.prio[t]] != [] {
      assert Homes(k)[t] == Some(k.prio[t]);
    }
  }

  /** A running task must give way exactly when it is preemptive and holds no lock and a more
      urgent task (at the end of its slice: one at least as urgent) is eligible. Idle gives way
      to anybody; cooperative and budgeted tasks to nobody. */
  lemma PreemptionExact(k: K, allowEqual: bool)
    requires Inv(k) && k.state[k.current] == Running && k.lockDepth[k.current] == 0
    ensures k.current == IDLE ==>
      (MustYield(k, allowEqual) <==> exists t :: 0 <= t < N(k) && Eligible(k, t))
    ensures k.current != IDLE ==>
      (MustYield(k, allowEqual) <==>
        k.policy[k.current].Preemptive?
        && exists t :: 0 <= t < N(k) && Eligible(k, t) && k.prio[t] < k.prio[k.current] + One(allowEqual))
  {
    hide Core, Side, FirstBucket, Eligible;
    PickIsBest(k);
    BucketOfPick(k);
  }

  lemma BucketOfPick(k: K)
    requires Inv(k)
    ensures FirstBucket(k.q, 0) == match PopReady(k).1 case None => LEVELS case Some(x) => k.prio[x]
  {
    hide Ledger, Effective, Acyclic, Side, WaitSorted;
    PoppedIs(k);
  }

  // ---- Tickets --------------------------------------------------------------------------------------------

  /** Tickets and hart are the same in both states. */
  predicate SameTicket(k: K, r: K) {
    r.pending == k.pending && r.current == k.current && r.nextSeq == k.nextSeq && r.lastSeq == k.lastSeq
  }

  lemma PostTicket(k: K, s: nat)
    requires Sized(k) && s < |k.count|
    ensures SameTicket(k, ReleaseSem(k, s))
  {
  }

  lemma CancelTicket(k: K, t: nat)
    requires Sized(k) && t < N(k)
    ensures SameTicket(k, Cancel(k, t).0)
  {
    hide LeaveSem, LeaveMtx, ReleaseSem, ReleaseMutex;
    if k.waitSem[t].Some? {
      LeaveSemIs(k, t);
    } else if k.grantSem[t].Some? {
      PostTicket(k.(grantSem := k.grantSem[t := None], granted := k.granted[t := false]), k.grantSem[t].value);
    } else if k.waitMtx[t].Some? {
      LeaveMtxIs(k, t);
    } else if k.grantMtx[t].Some? {
      var m := k.grantMtx[t].value;
      ReleaseMutexIs(k.(grantMtx := k.grantMtx[t := None], granted := k.granted[t := false], depth := k.depth[m := 0]), m, t);
    }
  }

  lemma TimerTicket(k: K, now: nat, slice: bool)
    requires Sized(k) && now <= Budget.U64_MAX
    ensures SameTicket(k, OnTimer(k, now, slice))
  {
    hide WakeSleepers;
    WakeSleepersHart(k, now);
  }

  lemma ChangeTicket(k: K, op: Op)
    requires Sized(k) && Fits(k, op) && (op.SetsPriority? || op.SetsPolicy?)
    ensures SameTicket(k, Apply(k, op).0)
  {
    hide Refresh, InReady, Without;
  }

  /** Nothing but the trap touches a pending ticket, and the trap runs exactly its target. */
  lemma TicketsFlow(k: K, op: Op)
    requires Inv(k) && Enabled(k, op) && k.pending.Some?
    ensures var r := Apply(k, op).0;
      if op.Traps? then
        r.pending.None? && r.current == k.pending.value.target && r.state[r.current] == Running && r.lastSeq == k.pending.value.sequence
      else SameTicket(k, r)
  {
    hide Core, Rest, ReleaseSem, Cancel, OnTimer, SetPriority, SetPolicy;
    TicketSource(k);
    NobodyRuns(k);
    match op
    case Posts(s) => PostTicket(k, s);
    case Cancels(t) => CancelTicket(k, t);
    case TimerFires(now, slice) => TimerTicket(k, now, slice);
    case SetsPriority(_, _) => ChangeTicket(k, op);
    case SetsPolicy(_, _, _) => ChangeTicket(k, op);
    case Traps(now) =>
    case _ =>
  }

  /** Waiting, posting, unlocking and cancelling consume no ticket. */
  lemma WaitsConsumeNothing(k: K, op: Op)
    requires Sized(k) && Fits(k, op) && IsWaitOp(op)
    ensures Apply(k, op).0.lastSeq == k.lastSeq
  {
    hide SemDown, MutexLock, MutexUnlock, Cancel, Supply;
    if op.Downs? {
      SemDownSupply(k, op.s, op.patience, op.deliverable, op.s);
    } else if op.Cancels? {
      CancelTicket(k, op.t);
    } else if op.LocksMutex? || op.FinishesLock? || op.UnlocksMutex? {
      MutexSupply(k, op);
    }
  }

  lemma TrapConsumesNothing(k: K, now: nat)
    requires Sized(k) && now <= Budget.U64_MAX
    ensures k.pending.None? ==> Trap(k, now).lastSeq == k.lastSeq
    ensures UnlockScheduler(k, now).0.lastSeq == k.lastSeq
  {
    hide FirstBucket, Budget.Throttled;
  }

  lemma OthersConsumeNothing(k: K, op: Op)
    requires Sized(k) && Fits(k, op) && !IsWaitOp(op) && !(op.Traps? && k.pending.Some?)
    ensures Apply(k, op).0.lastSeq == k.lastSeq
  {
    hide WakeSleepers, FirstBucket, Refresh, InReady, Trap, UnlockScheduler;
    if op.TimerFires? || op.Yields? {
      WakeSleepersHart(k, op.now);
    } else if op.Traps? || op.UnlocksScheduler? {
      TrapConsumesNothing(k, op.now);
    }
  }

  /** Every step issues at most one ticket, numbered one past the last, and consumes at most
      one; it consumes exactly when a trap finds one pending, and never the same one twice. */
  lemma TicketsCount(k: K, op: Op)
    requires Inv(k) && Enabled(k, op)
    ensures var r := Apply(k, op).0;
      && r.lastSeq == k.lastSeq + (if op.Traps? && k.pending.Some? then 1 else 0)
      && r.nextSeq == k.nextSeq + (if k.pending.None? && r.pending.Some? then 1 else 0)
      && (k.pending.None? && r.pending.Some? ==> r.pending.value.sequence == k.nextSeq + 1)
  {
    hide Core, Rest, Apply, Fits;
    StepKeeps(k, op);
    if k.pending.Some? {
      TicketsFlow(k, op);
    } else if IsWaitOp(op) {
      WaitsConsumeNothing(k, op);
    } else {
      OthersConsumeNothing(k, op);
    }
  }

  // ---- Handoff --------------------------------------------------------------------------------------------

  /** Handoff: the final unlock gives the mutex, once, to the first of its most urgent waiters,
      whose own priority does not move when the donations of the others follow. */
  lemma UnlockHandsOff(k: K, m: nat)
    requires Inv(k) && InUserCode(k) && m < |k.owner| && k.owner[m] == Some(k.current) && k.depth[m] == 1
    requires k.q[MtxList(k, m)] != []
    ensures var (r, next) := (MutexUnlock(k, m).0, k.q[MtxList(k, m)][0]);
      && N(r) == N(k) && |r.owner| == |k.owner| && k.waitMtx[next] == Some(m) && next != k.current
      && (forall x :: 0 <= x < N(k) && k.waitMtx[x] == Some(m) ==> k.prio[next] <= k.prio[x])
      && r.owner[m] == Some(next) && r.depth[m] == 1 && r.grantMtx[next] == Some(m) && r.state[next] == Ready
      && r.prio[next] == k.prio[next]
  {
    hide Core, Side, ReleaseMutex;
    var k1, next := k.(depth := k.depth[m := 0]), k.q[MtxList(k, m)][0];
    WaitersAside(k);
    SameCoreKeeps(k, k1);
    ReleaseMutexCore(k1, m, k.current);
    ReleaseMutexIs(k1, m, k.current);
    NobodyWaits(k, m, next);
    HeadIsMostUrgent(k, m);
    forall x | 0 <= x < N(k) && k.waitMtx[x] == Some(m) ensures k.prio[next] <= k.prio[x] {
      NobodyWaits(k, m, x);
    }
  }
}
