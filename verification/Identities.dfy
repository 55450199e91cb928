/** Task identities over whole runs: a slot and a generation name one task, and nothing once it is
    gone, until the generation of the slot has gone all the way round. */
module Identities {
  import opened Lists
  import opened Arith
  import Handles
  import Budget
  import opened Kernel
  import opened Inheritance
  import opened Invariant
  import opened Steps
  import opened MutexSteps
  import opened Preserved
  import opened PreservedMutex
  import opened PreservedHart
  import opened Runs
  import opened Locking
  import opened Accounts
  import opened SchedFacts
  import opened Waits
  import opened Charging
  import opened Conduct

  /** The slot an identity names, if its task is alive: what every call that takes one checks. */
  function Named(k: K, raw: nat): (r: Option<nat>)
    requires Sized(k)
    ensures r.Some? ==> r.value < N(k)
  {
    match Handles.DecodeTask(N(k), raw)
    case None => None
    case Some((slot, generation)) => if k.state[slot] != Free && k.ident[slot] == generation then Some(slot) else None
  }

  /** Identities, generations, policies and base priorities are those of before, and so is the flag
      of a slice that is over. */
  predicate SameIds(k: K, r: K) {
    && Sized(k) && Sized(r) && N(r) == N(k) && r.ident == k.ident && r.slotGen == k.slotGen
    && r.policy == k.policy && r.base == k.base && r.slicePending == k.slicePending
  }

  /** The same, but for the flag, which is not newly set. */
  predicate SpentIds(k: K, r: K) {
    SameIds(k, r.(slicePending := k.slicePending)) && (r.slicePending ==> k.slicePending)
  }

  /** Nobody takes or gives back the scheduler lock. */
  predicate SameLock(k: K, r: K) {
    r.lockDepth == k.lockDepth && r.lockStart == k.lockStart
  }

  lemma WakeOneIds(k: K, t: nat, now: nat)
    requires Sized(k) && t < N(k)
    ensures SameIds(k, WakeOne(k, t, now)) && SameLock(k, WakeOne(k, t, now))
  {
    hide LeaveMtx, LeaveSem;
    if k.waitMtx[t].Some? {
      LeaveMtxIs(k, t);
    }
    if k.waitSem[t].Some? {
      LeaveSemIs(k, t);
    }
  }

  lemma {:induction false} WakeFirstIds(k: K, n: nat, now: nat)
    requires Sized(k) && n <= N(k)
    ensures SameIds(k, WakeFirst(k, n, now)) && SameLock(k, WakeFirst(k, n, now))
  {
    hide WakeOne, Sized;
    if n > 0 {
      WakeFirstIds(k, n - 1, now);
      WakeOneIds(WakeFirst(k, n - 1, now), n - 1, now);
    }
  }

  lemma {:induction false} ReplenishFirstIds(k: K, n: nat, now: nat)
    requires Sized(k) && n <= N(k) && now <= Budget.U64_MAX
    ensures SameIds(k, ReplenishFirst(k, n, now)) && SameLock(k, ReplenishFirst(k, n, now))
  {
    hide ReplenishOne, Sized;
    if n > 0 {
      ReplenishFirstIds(k, n - 1, now);
      ReplenishOneIds(ReplenishFirst(k, n - 1, now), n - 1, now);
    }
  }

  lemma ReplenishOneIds(k: K, t: nat, now: nat)
    requires Sized(k) && t < N(k) && now <= Budget.U64_MAX
    ensures SameIds(k, ReplenishOne(k, t, now)) && SameLock(k, ReplenishOne(k, t, now))
  {
    hide Budget.ReplenishIfDue;
  }

  lemma ScanIds(k: K, now: nat)
    requires Sized(k) && now <= Budget.U64_MAX
    ensures SameIds(k, WakeSleepers(k, now)) && SameLock(k, WakeSleepers(k, now))
  {
    hide WakeFirst, ReplenishFirst, Sized;
    WakeFirstIds(k, N(k), now);
    ReplenishFirstIds(WakeFirst(k, N(k), now), N(k), now);
  }

  lemma YieldIds(k: K, now: nat)
    requires Sized(k) && now <= Budget.U64_MAX
    ensures SameIds(k, Yield(k, now).0) && SameLock(k, Yield(k, now).0)
  {
    hide WakeSleepers, FirstBucket;
    ScanIds(k, now);
  }

  lemma TimerIds(k: K, now: nat, slice: bool)
    requires Sized(k) && now <= Budget.U64_MAX
    ensures SameIds(k, OnTimer(k, now, slice).(slicePending := k.slicePending)) && SameLock(k, OnTimer(k, now, slice).(slicePending := k.slicePending))
    ensures OnTimer(k, now, slice).slicePending ==> k.slicePending || slice
  {
    hide WakeSleepers, Budget.OnTimer;
    ScanIds(k, now);
  }

  lemma SwitchAwayIds(k: K)
    requires Sized(k)
    ensures SameIds(k, SwitchAway(k)) && SameLock(k, SwitchAway(k))
  {
    hide FirstBucket;
  }

  lemma TakeIds(k: K, allowEqual: bool)
    requires Sized(k)
    ensures SameIds(k, TakeReschedule(k, allowEqual).0) && SameLock(k, TakeReschedule(k, allowEqual).0)
  {
    hide FirstBucket;
  }

  lemma TrapIds(k: K, now: nat)
    requires Sized(k) && now <= Budget.U64_MAX
    ensures SpentIds(k, Trap(k, now)) && SameLock(k, Trap(k, now))
  {
    hide FirstBucket, Dispatch, TakeReschedule;
    TakeIds(k, k.slicePending);
    if k.pending.Some? {
      DispatchIs(k.(pending := None, lastSeq := k.pending.value.sequence, current := k.pending.value.previous), k.pending.value.target, now);
    } else if k.state[k.current] != Running {
      DispatchIs(PopReadyOrIdle(k).0, PopReadyOrIdle(k).1, now);
    } else {
      var (k1, next) := TakeReschedule(k, k.slicePending);
      if next.Some? {
        DispatchIs(k1, next.value, now);
      }
    }
  }

  lemma UnlockSchedulerIds(k: K, now: nat)
    requires Sized(k) && now <= Budget.U64_MAX
    ensures SpentIds(k, UnlockScheduler(k, now).0)
  {
    hide FirstBucket, TakeReschedule, ThrottleCurrent;
    if k.lockDepth[k.current] != 0 {
      var k1 := Released(k);
      TakeIds(k1, k1.slicePending);
      if k1.lockDepth[k.current] == 0 && k1.budget[k.current].lockOverrun {
        ThrottleIds(k1, now);
      }
    }
  }

  lemma ThrottleIds(k: K, now: nat)
    requires Sized(k) && now <= Budget.U64_MAX && k.budget[k.current].lockOverrun
    ensures SameIds(k, ThrottleCurrent(k, now)) && SameLock(k, ThrottleCurrent(k, now))
  {
    hide FirstBucket, Budget.Throttled;
  }

  lemma ReleaseIds(k: K, m: nat, o: nat)
    requires Sized(k) && m < |k.owner| && o < N(k)
    ensures SameIds(k, ReleaseMutex(k, m, o)) && SameLock(k, ReleaseMutex(k, m, o))
  {
    hide ReleaseMutex;
    ReleaseMutexIs(k, m, o);
  }

  lemma CancelIds(k: K, t: nat)
    requires Sized(k) && t < N(k)
    ensures SameIds(k, Cancel(k, t).0) && SameLock(k, Cancel(k, t).0)
  {
    hide LeaveSem, LeaveMtx, ReleaseMutex;
    if k.waitSem[t].Some? {
      LeaveSemIs(k, t);
    } else if k.grantSem[t].Some? {
    } else if k.waitMtx[t].Some? {
      LeaveMtxIs(k, t);
    } else if k.grantMtx[t].Some? {
      ReleaseIds(k.(grantMtx := k.grantMtx[t := None], granted := k.granted[t := false], depth := k.depth[k.grantMtx[t].value := 0]), k.grantMtx[t].value, t);
    }
  }

  lemma MutexLockIds(k: K, m: nat, patience: Patience, deliverable: bool)
    requires Sized(k) && m < |k.owner|
    ensures SameIds(k, MutexLock(k, m, patience, deliverable).0) && SameLock(k, MutexLock(k, m, patience, deliverable).0)
  {
    hide Enlist, SwitchAway, ChainContains;
    if k.owner[m].Some? {
      EnlistIds(k, m, patience);
      SwitchAwayIds(Enlist(k, m, patience));
    }
  }

  lemma EnlistIds(k: K, m: nat, patience: Patience)
    requires Sized(k) && m < |k.owner| && k.owner[m].Some?
    ensures SameIds(k, Enlist(k, m, patience)) && SameLock(k, Enlist(k, m, patience))
  {
    hide AddInheritance, Insert;
  }

  lemma MutexUnlockIds(k: K, m: nat)
    requires Sized(k) && m < |k.owner|
    ensures SameIds(k, MutexUnlock(k, m).0) && SameLock(k, MutexUnlock(k, m).0)
  {
    hide ReleaseMutex;
    if k.owner[m] == Some(k.current) && k.depth[m] == 1 {
      ReleaseIds(k.(depth := k.depth[m := k.depth[m] - 1]), m, k.current);
    }
  }

  lemma SleepIds(k: K, until: nat)
    requires Sized(k)
    ensures SameIds(k, Sleep(k, until).0) && SameLock(k, Sleep(k, until).0)
  {
    hide SwitchAway;
    if k.lockDepth[k.current] == 0 {
      SwitchAwayIds(k.(state := k.state[k.current := Sleeping], wakeAt := k.wakeAt[k.current := until]));
    }
  }

  lemma DownIds(k: K, s: nat, patience: Patience, deliverable: bool)
    requires Sized(k) && s < |k.count|
    ensures SameIds(k, SemDown(k, s, patience, deliverable).0) && SameLock(k, SemDown(k, s, patience, deliverable).0)
  {
    hide SwitchAway, Insert;
    if SemDown(k, s, patience, deliverable).1.Suspended? {
      SwitchAwayIds(SemQueued(k, s, patience));
    }
  }

  lemma QuickIds(k: K, op: Op)
    requires Sized(k) && Fits(k, op) && (op.FinishesDown? || op.FinishesLock? || op.Posts?)
    ensures SameIds(k, Apply(k, op).0) && SameLock(k, Apply(k, op).0)
  {
  }

  lemma LockIds(k: K, now: nat)
    requires Sized(k)
    ensures SameIds(k, LockScheduler(k, now).0)
  {
  }

  lemma PriorityIds(k: K, t: nat, p: nat)
    requires Sized(k) && t < N(k) && p < LEVELS
    ensures var r := SetPriority(k, t, p); SameIds(k.(base := k.base[t := p]), r) && SameLock(k, r)
  {
    hide Refresh;
  }

  /** What an operation leaves alone: only a timer interrupt, a policy change, a spawn, an exit or a new
      base priority bears on identities, policies and base priorities, and only the trap and the
      unlock on the slice flag. */
  lemma OtherIds(k: K, op: Op)
    requires Sized(k) && Fits(k, op) && !op.Spawns? && !op.Exits? && !op.TimerFires? && !op.SetsPolicy? && !op.SetsPriority?
    ensures SpentIds(k, Apply(k, op).0)
    ensures !op.Traps? && !op.UnlocksScheduler? ==> SameIds(k, Apply(k, op).0)
    ensures !op.LocksScheduler? && !op.UnlocksScheduler? ==> SameLock(k, Apply(k, op).0)
  {
    hide Yield, Sleep, SemDown, ConsumeSem, ReleaseSem, MutexLock, ConsumeMtx, MutexUnlock, Cancel, SetPriority, SetPolicy,
      LockScheduler, UnlockScheduler, OnTimer, Trap;
    match op
    case Yields(now, _) => YieldIds(k, now);
    case Sleeps(until, _) => SleepIds(k, until);
    case Downs(s, patience, deliverable) => DownIds(k, s, patience, deliverable);
    case LocksMutex(m, patience, deliverable) => MutexLockIds(k, m, patience, deliverable);
    case UnlocksMutex(m) => MutexUnlockIds(k, m);
    case Cancels(t) => CancelIds(k, t);
    case LocksScheduler(now, _) => LockIds(k, now);
    case UnlocksScheduler(now, _) => UnlockSchedulerIds(k, now);
    case Traps(now) => TrapIds(k, now);
    case _ => QuickIds(k, op);
  }

  lemma PolicyIds(k: K, t: nat, policy: Budget.Policy, now: nat)
    requires Sized(k) && t < N(k) && Budget.ValidPolicy(policy) && now <= Budget.U64_MAX
    ensures var r := SetPolicy(k, t, policy, now); SameIds(k.(policy := k.policy[t := policy]), r) && SameLock(k, r)
  {
    hide InReady, Without;
  }

  // ---- Which slots are free ---------------------------------------------------------------------------

  /** A slot becomes free by its task's exit only, and is taken by a spawn only. */
  lemma StepFree(k: K, op: Op, t: nat)
    requires Inv(k) && Enabled(k, op) && t < N(k) && !(op.Spawns? && op.slot == t) && !(op.Exits? && t == k.current)
    ensures var r := Apply(k, op).0; N(r) == N(k) && (r.state[t] == Free <==> k.state[t] == Free)
  {
    hide Core, Side, Yield, UnlockScheduler, OnTimer, Trap, SetPolicy, Apply;
    match op
    case Yields(now, deliverable) => YieldFree(k, now, deliverable, t);
    case UnlocksScheduler(now, deliverable) => UnlockFree(k, now, deliverable, t);
    case TimerFires(now, slice) => ApplyTimer(k, op); TimerBars(k, now, slice, t);
    case Traps(now) => ApplyTrap(k, op); TrapBars(k, now, t);
    case SetsPolicy(x, policy, now) => PolicyFree(k, op, t);
    case _ => QuietBars(k, op, t);
  }

  lemma YieldFree(k: K, now: nat, deliverable: bool, t: nat)
    requires Inv(k) && Enabled(k, Yields(now, deliverable)) && t < N(k)
    ensures var r := Apply(k, Yields(now, deliverable)).0; N(r) == N(k) && (r.state[t] == Free <==> k.state[t] == Free)
  {
    hide Core, Side, Yield;
    YieldBars(k, now, t);
  }

  lemma UnlockFree(k: K, now: nat, deliverable: bool, t: nat)
    requires Inv(k) && Enabled(k, UnlocksScheduler(now, deliverable)) && t < N(k)
    ensures var r := Apply(k, UnlocksScheduler(now, deliverable)).0; N(r) == N(k) && (r.state[t] == Free <==> k.state[t] == Free)
  {
    hide Core, Side, UnlockScheduler;
    if k.budget[k.current].lockOverrun {
      OverrunHolds(k);
    }
    UnlockSchedulerBars(k, now, t);
  }

  lemma PolicyFree(k: K, op: Op, t: nat)
    requires Sized(k) && Fits(k, op) && op.SetsPolicy? && t < N(k)
    ensures var r := Apply(k, op).0; N(r) == N(k) && (r.state[t] == Free <==> k.state[t] == Free)
  {
    hide SetPolicy;
    SetPolicyIs(k, op.t, op.policy, op.now);
  }

  // ---- Lives -------------------------------------------------------------------------------------------------

  /** A slot's identity is its generation while its task is alive, and zero while it is free. */
  predicate IdSound(k: K, t: nat)
    requires Sized(k) && t < N(k)
  {
    k.slotGen[t] <= U16_MAX && (k.ident[t] == 0 <==> k.state[t] == Free) && (k.ident[t] != 0 ==> k.ident[t] == k.slotGen[t])
  }

  lemma SpawnIds(k: K, x: nat, p: nat, policy: Budget.Policy, now: nat)
    requires Sized(k) && x < N(k) && p < LEVELS && Budget.ValidPolicy(policy) && now <= Budget.U64_MAX
    ensures var (r, g) := (Spawn(k, x, p, policy, now), NextGeneration(k.slotGen[x]));
      N(r) == N(k) && r.ident == k.ident[x := g] && r.slotGen == k.slotGen[x := g] && r.state[x] == Ready
  {
  }

  lemma ExitIds(k: K)
    requires Sized(k)
    ensures var (r, c) := (Exit(k), k.current);
      N(r) == N(k) && r.ident == k.ident[c := 0] && r.slotGen == k.slotGen && r.state[c] == Free
  {
    hide SwitchAway;
    SwitchAwayIds(Emptied(k));
    SwitchAwayEffect(Emptied(k), k.current);
  }

  lemma KeptIds(k: K, op: Op)
    requires Sized(k) && Fits(k, op) && !op.Spawns? && !op.Exits?
    ensures var r := Apply(k, op).0; N(r) == N(k) && r.ident == k.ident && r.slotGen == k.slotGen
  {
    hide Apply, Sized, OnTimer, SetPolicy, SetPriority;
    match op
    case TimerFires(now, slice) => ApplyTimer(k, op); TimerIds(k, now, slice);
    case SetsPolicy(x, policy, now) => PolicyApplied(k, op); PolicyIds(k, x, policy, now);
    case SetsPriority(x, p) => PriorityApplied(k, op); PriorityIds(k, x, p);
    case _ => OtherIds(k, op);
  }

  /** A spawn into the slot moves its generation on by one; everything else leaves it. */
  lemma StepIds(k: K, op: Op, t: nat)
    requires Inv(k) && Enabled(k, op) && t < N(k) && IdSound(k, t)
    ensures var r := Apply(k, op).0;
      && N(r) == N(k) && IdSound(r, t)
      && (if op.Spawns? && op.slot == t then r.slotGen[t] == Handles.NextGeneration(k.slotGen[t], U16_MAX) && r.state[t] != Free
          else r.slotGen[t] == k.slotGen[t])
      && (!(op.Spawns? && op.slot == t) ==> (r.state[t] != Free <==> k.state[t] != Free && !(op.Exits? && t == k.current)))
  {
    hide Core, Side, Apply;
    if !(op.Spawns? && op.slot == t) && !(op.Exits? && t == k.current) {
      StepFree(k, op, t);
    }
    match op
    case Spawns(x, p, policy, now) => SpawnApplied(k, op); SpawnIds(k, x, p, policy, now);
    case Exits => ExitApplied(k); ExitIds(k);
    case _ => KeptIds(k, op);
  }

  lemma SpawnApplied(k: K, op: Op)
    requires Sized(k) && Fits(k, op) && op.Spawns?
    ensures Apply(k, op).0 == Spawn(k, op.slot, op.p, op.policy, op.now)
  {
    hide Spawn;
  }

  lemma PolicyApplied(k: K, op: Op)
    requires Sized(k) && Fits(k, op) && op.SetsPolicy?
    ensures Apply(k, op).0 == SetPolicy(k, op.t, op.policy, op.now)
  {
    hide SetPolicy;
  }

  lemma PriorityApplied(k: K, op: Op)
    requires Sized(k) && Fits(k, op) && op.SetsPriority?
    ensures Apply(k, op).0 == SetPriority(k, op.t, op.p)
  {
    hide SetPriority;
  }

  lemma ExitApplied(k: K)
    requires Sized(k)
    ensures Apply(k, Exits).0 == Exit(k)
  {
    hide Exit;
  }

  /** How often slot `t` was taken anew. */
  function Spawned(ops: seq<Op>, t: nat): nat {
    if ops == [] then 0 else (if ops[0].Spawns? && ops[0].slot == t then 1 else 0) + Spawned(ops[1..], t)
  }

  /** Some task in slot `t` exits. */
  ghost predicate Exited(k: K, ops: seq<Op>, t: nat)
    requires Legal(k, ops)
    decreases |ops|
  {
    ops != [] && ((ops[0].Exits? && k.current == t) || Exited(Apply(k, ops[0]).0, ops[1..], t))
  }

  /** The generation of a slot counts its spawns; without a spawn its task is alive exactly until
      it exits. */
  lemma {:induction false} SlotLife(k: K, ops: seq<Op>, t: nat)
    requires Inv(k) && Legal(k, ops) && t < N(k) && IdSound(k, t)
    ensures var (r, n) := (Run(k, ops), Spawned(ops, t));
      && Inv(r) && N(r) == N(k) && IdSound(r, t) && r.slotGen[t] == Handles.GenerationAfter(k.slotGen[t], n, U16_MAX)
      && (n == 0 ==> (r.state[t] != Free <==> k.state[t] != Free && !Exited(k, ops, t)))
    decreases |ops|
  {
    hide Core, Side, Apply, IdSound;
    assert k.slotGen[t] <= U16_MAX by { IdRange(k, t); }
    if ops != [] {
      var r := Apply(k, ops[0]).0;
      StepKeeps(k, ops[0]);
      StepIds(k, ops[0], t);
      SlotLife(r, ops[1..], t);
      Handles.GenerationShift(k.slotGen[t], Spawned(ops[1..], t), U16_MAX);
    }
  }

  lemma IdRange(k: K, t: nat)
    requires Sized(k) && t < N(k) && IdSound(k, t)
    ensures k.slotGen[t] <= U16_MAX
  {
  }

  /** The whole life of a task identity: whatever runs, exits and is spawned afterwards, it names its
      own task until that exits, then nothing, until its slot has been taken anew a multiple of
      65535 times. */
  lemma TaskLife(k: K, ops: seq<Op>, raw: nat)
    requires Inv(k) && Legal(k, ops) && Named(k, raw).Some? && IdSound(k, Named(k, raw).value)
    ensures var (t, r) := (Named(k, raw).value, Run(k, ops));
      var n := Spawned(ops, t);
      && Sized(r) && N(r) == N(k)
      && Named(r, raw) == (if r.state[t] != Free && n % U16_MAX == 0 then Some(t) else None)
      && (n == 0 ==> (Named(r, raw) == Some(t) <==> !Exited(k, ops, t)))
  {
    hide Core, Side, Apply, Legal, Run, Exited, Spawned;
    var t := Named(k, raw).value;
    SlotLife(k, ops, t);
    Handles.ReuseWraps(k.slotGen[t], Spawned(ops, t), U16_MAX);
  }

  /** In every reachable state every slot's identity is sound. */
  lemma ReachableIds(n: nat, counts: seq<nat>, mutexes: nat, ops: seq<Op>, t: nat)
    requires 2 <= n <= SLOT_LIMIT && Legal(Boot(n, counts, mutexes), ops) && t < n
    ensures var r := Run(Boot(n, counts, mutexes), ops); Inv(r) && N(r) == n && IdSound(r, t)
  {
    hide Core, Side, Legal, Run;
    BootKeeps(n, counts, mutexes);
    SlotLife(Boot(n, counts, mutexes), ops, t);
  }
}
