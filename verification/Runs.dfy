/** Whole runs: every interleaving of critical sections, timer interrupts and traps. */
module Runs {
  import opened Lists
  import Budget
  import opened Kernel
  import opened Inheritance
  import opened Chains
  import opened Invariant
  import opened Steps
  import opened MutexSteps
  import opened Preserved
  import opened PreservedMutex
  import opened PreservedHart

  const I32_MAX: nat := 0x7FFF_FFFF

  datatype Op =
    | Yields(now: nat, deliverable: bool)
    | Sleeps(until: nat, deliverable: bool)
    | Exits
    | Spawns(slot: nat, p: nat, policy: Budget.Policy, now: nat)
    | Downs(s: nat, patience: Patience, deliverable: bool)
    | FinishesDown
    | Posts(s: nat)
    | LocksMutex(m: nat, patience: Patience, deliverable: bool)
    | FinishesLock
    | UnlocksMutex(m: nat)
    | Cancels(t: nat)
    | SetsPriority(t: nat, p: nat)
    | SetsPolicy(t: nat, policy: Budget.Policy, now: nat)
    | LocksScheduler(now: nat, deliverable: bool)
    | UnlocksScheduler(now: nat, deliverable: bool)
    | TimerFires(now: nat, slice: bool)
    | Traps(now: nat)

  /** The operation's arguments exist. */
  predicate Fits(k: K, op: Op)
    requires Sized(k)
  {
    match op
    case Spawns(t, p, policy, now) => t < N(k) && p < LEVELS && Budget.ValidPolicy(policy) && now <= Budget.U64_MAX
    case Downs(s, _, _) => s < |k.count|
    case Posts(s) => s < |k.count|
    case LocksMutex(m, _, _) => m < |k.owner|
    case UnlocksMutex(m) => m < |k.owner|
    case Cancels(t) => t < N(k)
    case SetsPriority(t, p) => t < N(k) && p < LEVELS
    case SetsPolicy(t, policy, now) => t < N(k) && Budget.ValidPolicy(policy) && now <= Budget.U64_MAX
    case Yields(now, _) => now <= Budget.U64_MAX
    case UnlocksScheduler(now, _) => now <= Budget.U64_MAX
    case TimerFires(now, _) => now <= Budget.U64_MAX
    case Traps(now) => now <= Budget.U64_MAX
    case _ => true
  }

  /** When the operation can happen. Thread-mode operations need the current task to run its
      own code, and the idle task only ever yields. A resumed wait first consumes its grant.
      Posts, priority and policy changes, timer and trap happen at any time; so does a semaphore
      wait from where no switch can be delivered, an interrupt handler, say. */
  ghost predicate Enabled(k: K, op: Op)
    requires Sized(k)
  {
    Fits(k, op) &&
    match op
    case Yields(_, _) => InUserCode(k)
    case Exits => InUserCode(k) && MayExit(k)
    case Spawns(t, _, _, _) => InUserCode(k) && k.current != IDLE && t > IDLE && k.state[t] == Free
    case FinishesDown => k.state[k.current] == Running && k.call[k.current] == InSemaphore
    case FinishesLock => k.state[k.current] == Running && k.call[k.current] == InMutex
    case Downs(_, _, deliverable) => deliverable ==> InUserCode(k) && k.current != IDLE
    case Posts(s) => k.count[s] < I32_MAX
    case SetsPriority(t, _) => k.state[t] != Free
    case SetsPolicy(t, policy, _) => k.state[t] != Free && (t == IDLE ==> !policy.Budgeted?)
    case TimerFires(_, _) => true
    case Traps(_) => true
    case _ => InUserCode(k) && k.current != IDLE
  }

  /** What the operation leaves and replies. Calls that may have to switch are refused before
      they touch the scheduler when a switch could not be delivered. */
  function Apply(k: K, op: Op): (r: (K, Reply))
    requires Sized(k) && Fits(k, op)
    ensures Sized(r.0)
  {
    match op
    case Yields(now, deliverable) => if deliverable then Yield(k, now) else (k, Refused)
    case Sleeps(until, deliverable) => if deliverable then Sleep(k, until) else (k, Refused)
    case Exits => (Exit(k), Suspended)
    case Spawns(t, p, policy, now) => (Spawn(k, t, p, policy, now), Acquired)
    case Downs(s, patience, deliverable) => SemDown(k, s, patience, deliverable)
    case FinishesDown => ConsumeSem(k)
    case Posts(s) => (ReleaseSem(k, s), Acquired)
    case LocksMutex(m, patience, deliverable) => MutexLock(k, m, patience, deliverable)
    case FinishesLock => ConsumeMtx(k)
    case UnlocksMutex(m) => MutexUnlock(k, m)
    case Cancels(t) => (Cancel(k, t).0, if Cancel(k, t).1 then Acquired else Refused)
    case SetsPriority(t, p) => (SetPriority(k, t, p), Acquired)
    case SetsPolicy(t, policy, now) => (SetPolicy(k, t, policy, now), Acquired)
    case LocksScheduler(now, deliverable) => if deliverable then LockScheduler(k, now) else (k, Refused)
    case UnlocksScheduler(now, deliverable) => if deliverable then UnlockScheduler(k, now) else (k, Refused)
    case TimerFires(now, slice) => (OnTimer(k, now, slice), Acquired)
    case Traps(now) => (Trap(k, now), Acquired)
  }

  /** Every enabled step keeps the invariant. */
  lemma StepKeeps(k: K, op: Op)
    requires Inv(k) && Enabled(k, op)
    ensures Inv(Apply(k, op).0)
  {
    hide Core, Side, Yield, Sleep, Exit, Spawn, SemDown, ConsumeSem, ReleaseSem, MutexLock, ConsumeMtx, MutexUnlock,
      Cancel, SetPriority, SetPolicy, LockScheduler, UnlockScheduler, OnTimer, Trap;
    match op
    case Yields(now, _) => YieldKeeps(k, now);
    case Sleeps(until, _) => SleepKeeps(k, until);
    case Exits => ExitKeeps(k);
    case Spawns(t, p, policy, now) => Unticketed(k); SpawnKeeps(k, t, p, policy, now);
    case Downs(s, patience, deliverable) => SemDownKeeps(k, s, patience, deliverable);
    case FinishesDown => ConsumeSemKeeps(k);
    case Posts(s) => ReleaseSemKeeps(k, s);
    case LocksMutex(m, patience, deliverable) => MutexLockKeeps(k, m, patience, deliverable);
    case FinishesLock => ConsumeMtxKeeps(k);
    case UnlocksMutex(m) => MutexUnlockKeeps(k, m);
    case Cancels(t) => CancelKeeps(k, t);
    case SetsPriority(t, p) => SetPriorityKeeps(k, t, p);
    case SetsPolicy(t, policy, now) => SetPolicyKeeps(k, t, policy, now);
    case LocksScheduler(now, _) => LockSchedulerKeeps(k, now);
    case UnlocksScheduler(now, _) => UnlockSchedulerKeeps(k, now);
    case TimerFires(now, slice) => OnTimerKeeps(k, now, slice);
    case Traps(now) => TrapKeeps(k, now);
  }

  lemma Unticketed(k: K)
    requires Inv(k) && k.state[k.current] == Running
    ensures k.pending.None?
  {
    hide Core, Rest;
  }

  ghost predicate Legal(k: K, ops: seq<Op>)
    decreases |ops|
  {
    ops == [] || (Sized(k) && Enabled(k, ops[0]) && Legal(Apply(k, ops[0]).0, ops[1..]))
  }

  ghost function Run(k: K, ops: seq<Op>): K
    requires Legal(k, ops)
    decreases |ops|
  {
    if ops == [] then k else Run(Apply(k, ops[0]).0, ops[1..])
  }

  lemma {:induction false} RunKeeps(k: K, ops: seq<Op>)
    requires Inv(k) && Legal(k, ops)
    ensures Inv(Run(k, ops))
    decreases |ops|
  {
    hide Core, Side, Apply, Fits;
    if ops != [] {
      StepKeeps(k, ops[0]);
      RunKeeps(Apply(k, ops[0]).0, ops[1..]);
    }
  }

  // ---- Start ----------------------------------------------------------------------------------------

  function Fill<T>(n: nat, x: T): (r: seq<T>)
    ensures |r| == n && forall i :: 0 <= i < n ==> r[i] == x
  {
    seq(n, _ => x)
  }

  /** The scheduler right after `init`: slot 0 runs, idle is ready, everything else is empty. */
  function Boot(n: nat, counts: seq<nat>, mutexes: nat): (k: K)
    requires 2 <= n <= SLOT_LIMIT
    ensures Sized(k)
  {
    var ids := Fill(n, 0)[0 := 1][IDLE := 1];
    var none: seq<Option<nat>> := Fill(n, None);
    K(Fill(n, Free)[0 := Running][IDLE := Ready], Fill(n, 0), none, none, Fill(n, false), none, none,
      Fill(n, LEVELS - 1), Fill(n, LEVELS - 1), Fill(n, Fill(LEVELS, 0)), Fill(n, 0), none, ids, ids, Fill(n, 0),
      Fill(n, Budget.Cooperative), Fill(n, Budget.Unbudgeted()), Fill(n, User),
      0, Fill(LEVELS + |counts| + mutexes, []), None, 0, 0, false,
      counts, Fill(mutexes, None), Fill(mutexes, 0))
  }

  lemma BootCore(n: nat, counts: seq<nat>, mutexes: nat)
    requires 2 <= n <= SLOT_LIMIT
    ensures Core(Boot(n, counts, mutexes))
  {
    hide Effective, Acyclic, Ledger;
    var k := Boot(n, counts, mutexes);
    var none: seq<Option<nat>> := Fill(n, None);
    BootLedger(n);
    NoDonationsEffective(LEVELS - 1, Fill(LEVELS, 0));
    assert Homes(k) == none && Edges(k) == none;
    assert Rehome(none, k.prio) == none;
    assert WaitSorted(k.q, k.prio);
  }

  lemma BootLedger(n: nat)
    ensures Ledger(Fill(n, Fill(LEVELS, 0)), Fill(n, LEVELS - 1), Fill(n, None))
    ensures Acyclic(Fill(n, None))
  {
    var none: seq<Option<nat>> := Fill(n, None);
    var prio := Fill(n, LEVELS - 1);
    forall o, p | 0 <= o < n && 0 <= p < LEVELS ensures |Donors(none, prio, o, p)| == 0 {
      assert Donors(none, prio, o, p) == {};
    }
    assert Falls(none, Fill(n, 0));
  }

  lemma BootKeeps(n: nat, counts: seq<nat>, mutexes: nat)
    requires 2 <= n <= SLOT_LIMIT
    ensures Inv(Boot(n, counts, mutexes))
  {
    hide Core;
    BootCore(n, counts, mutexes);
  }

  /** In every state of every run of a system of any size, the invariant holds. */
  lemma ReachableInv(n: nat, counts: seq<nat>, mutexes: nat, ops: seq<Op>)
    requires 2 <= n <= SLOT_LIMIT && Legal(Boot(n, counts, mutexes), ops)
    ensures Inv(Run(Boot(n, counts, mutexes), ops))
  {
    hide Inv, Boot;
    BootKeeps(n, counts, mutexes);
    RunKeeps(Boot(n, counts, mutexes), ops);
  }
}
