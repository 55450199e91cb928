/** What the kernel does to a budget is lawful: only eligible tasks are dispatched, only a running
    task is looked at by the timer, and only throttled ones are refilled by the scans. */
module Conduct {
  import opened Lists
  import Budget
  import Quota
  import opened Kernel
  import opened Inheritance
  import opened Invariant
  import opened MutexSteps
  import opened Steps
  import opened Preserved
  import opened PreservedMutex
  import opened PreservedHart
  import opened Runs
  import opened Locking
  import opened Wakeups
  import opened SchedFacts
  import opened Waits
  import opened Charging
  import opened Consumption

  // ---- Who is throttled, and which slots are free -----------------------------------------------------

  /** Whether `t` is throttled, and whether its slot is free, is the same in both states. */
  predicate SameBar(k: K, r: K, t: nat) {
    && Sized(k) && Sized(r) && N(r) == N(k) && t < N(k)
    && (r.state[t] == Throttled <==> k.state[t] == Throttled) && (r.state[t] == Free <==> k.state[t] == Free)
  }

  lemma WaitBars(k: K, r: K, t: nat)
    requires Effect(k, r, t, false)
    ensures SameBar(k, r, t)
  {
    hide Sized;
  }

  lemma HeadBlocked(k: K, t: nat)
    requires Inv(k) && t < N(k)
    ensures forall s: nat :: s < |k.count| && Heads(k, SemList(k, s), t) ==> k.waitSem[t] == Some(s) && k.state[t] == Blocked
    ensures forall m: nat :: m < |k.owner| && Heads(k, MtxList(k, m), t) ==> k.waitMtx[t] == Some(m) && k.state[t] == Blocked
  {
    hide Core, Side;
    WaitersAside(k);
    forall s: nat | s < |k.count| ensures Heads(k, SemList(k, s), t) ==> k.waitSem[t] == Some(s) {
      SemQueue(k, s, t);
    }
    forall m: nat | m < |k.owner| ensures Heads(k, MtxList(k, m), t) ==> k.waitMtx[t] == Some(m) {
      NobodyWaits(k, m, t);
    }
  }

  lemma EffectBars(k: K, r: K, t: nat, ends: bool)
    requires Effect(k, r, t, ends) && (ends ==> k.state[t] != Throttled && k.state[t] != Free)
    ensures SameBar(k, r, t)
  {
    hide Sized;
  }

  lemma PostBars(k: K, s: nat, t: nat)
    requires Inv(k) && s < |k.count| && t < N(k)
    ensures SameBar(k, ReleaseSem(k, s), t)
  {
    hide Core, Side, ReleaseSem, Effect, Heads, SameBar;
    HeadBlocked(k, t);
    PostEffect(k, s, t);
    EffectBars(k, ReleaseSem(k, s), t, Heads(k, SemList(k, s), t));
  }

  lemma UnlockBars(k: K, m: nat, t: nat)
    requires Inv(k) && m < |k.owner| && t < N(k)
    ensures SameBar(k, MutexUnlock(k, m).0, t)
  {
    hide Core, Side, MutexUnlock, Effect, Heads, SameBar;
    HeadBlocked(k, t);
    UnlockEffect(k, m, t);
    EffectBars(k, MutexUnlock(k, m).0, t, k.owner[m] == Some(k.current) && k.depth[m] == 1 && Heads(k, MtxList(k, m), t));
  }

  /** Giving back a grant of `x` throttles nobody and frees nobody who is throttled. */
  lemma RegrantBars(k: K, x: nat, t: nat)
    requires Inv(k) && x < N(k) && t < N(k)
    ensures k.grantSem[x].Some? ==>
      var k1 := k.(grantSem := k.grantSem[x := None], granted := k.granted[x := false]);
      Sized(k1) && SameBar(k, ReleaseSem(k1, k.grantSem[x].value), t)
    ensures k.grantMtx[x].Some? ==>
      var m := k.grantMtx[x].value;
      var k1 := k.(grantMtx := k.grantMtx[x := None], granted := k.granted[x := false], depth := k.depth[m := 0]);
      Sized(k1) && SameBar(k, ReleaseMutex(k1, m, x), t)
  {
    hide Core, Side, ReleaseSem, ReleaseMutex, Effect;
    HeadBlocked(k, t);
    if k.grantSem[x].Some? {
      var k1, s := k.(grantSem := k.grantSem[x := None], granted := k.granted[x := false]), k.grantSem[x].value;
      PostEffect(k1, s, t);
      EffectBars(k1, ReleaseSem(k1, s), t, Heads(k1, SemList(k1, s), t));
    }
    if k.grantMtx[x].Some? {
      var m := k.grantMtx[x].value;
      var k1 := k.(grantMtx := k.grantMtx[x := None], granted := k.granted[x := false], depth := k.depth[m := 0]);
      HandoffEffect(k1, m, x, t);
      EffectBars(k1, ReleaseMutex(k1, m, x), t, Heads(k1, MtxList(k1, m), t));
    }
  }

  lemma CancelBars(k: K, x: nat, t: nat)
    requires Inv(k) && x < N(k) && t < N(k)
    ensures SameBar(k, Cancel(k, x).0, t)
  {
    hide Core, Side, LeaveSem, LeaveMtx, ReleaseSem, ReleaseMutex, Effect;
    WaitFacts(k, x);
    LeaveEffect(k, x, t);
    RegrantBars(k, x, t);
    if k.waitSem[x].Some? {
      EffectBars(k, LeaveSem(k, x), t, x == t);
    } else if k.grantSem[x].None? && k.waitMtx[x].Some? {
      EffectBars(k, LeaveMtx(k, x), t, x == t);
    }
  }

  /** What the running task calls does not throttle it, and throttles nobody else. */
  lemma CallBars(k: K, op: Op, t: nat)
    requires Inv(k) && Enabled(k, op) && t < N(k) && !Resets(k, op, t)
    requires op.Sleeps? || op.Exits? || op.Downs? || op.LocksMutex? || op.FinishesDown? || op.FinishesLock?
    ensures SameBar(k, Apply(k, op).0, t)
  {
    hide Core, Side, Sleep, Exit, SemDown, MutexLock, ConsumeSem, ConsumeMtx, Effect, SameBar;
    if op.Downs? && !op.deliverable {
      SemDownHere(k, op.s, op.patience, t);
      WaitBars(k, Apply(k, op).0, t);
    } else if t != k.current {
      match op {
        case Sleeps(until, _) => NoEffect(k, t); SleepEffect(k, until, t);
        case Exits => ExitEffect(k, t);
        case Downs(s, patience, deliverable) => SemDownEffect(k, s, patience, deliverable, t);
        case LocksMutex(m, patience, deliverable) => MutexLockEffect(k, m, patience, deliverable, t);
        case FinishesDown => ConsumesEffect(k, t);
        case FinishesLock => ConsumesEffect(k, t);
      }
      WaitBars(k, Apply(k, op).0, t);
    } else {
      OwnBars(k, op);
    }
  }

  lemma OwnBars(k: K, op: Op)
    requires Inv(k) && Enabled(k, op) && k.state[k.current] == Running
    requires op.Sleeps? || op.Downs? || op.LocksMutex? || op.FinishesDown? || op.FinishesLock?
    ensures SameBar(k, Apply(k, op).0, k.current)
  {
    hide Core, Side, Sleep, SemDown, MutexLock;
    match op
    case Sleeps(until, _) => SleepBars(k, until);
    case Downs(s, patience, deliverable) => DownBars(k, s, patience, deliverable);
    case LocksMutex(m, patience, deliverable) => LockBars(k, m, patience, deliverable);
    case _ =>
  }

  lemma SleepBars(k: K, until: nat)
    requires Sized(k) && k.state[k.current] == Running
    ensures SameBar(k, Sleep(k, until).0, k.current)
  {
    hide SwitchAway;
    var c := k.current;
    SwitchAwayEffect(k.(state := k.state[c := Sleeping], wakeAt := k.wakeAt[c := until]), c);
  }

  lemma DownBars(k: K, s: nat, patience: Patience, deliverable: bool)
    requires Inv(k) && s < |k.count| && k.state[k.current] == Running
    ensures SameBar(k, SemDown(k, s, patience, deliverable).0, k.current)
  {
    hide Core, Side, SwitchAway, Insert;
    if SemDown(k, s, patience, deliverable).1.Suspended? {
      SemWaitBegins(k, s, patience, deliverable);
    }
  }

  lemma LockBars(k: K, m: nat, patience: Patience, deliverable: bool)
    requires Inv(k) && m < |k.owner| && k.state[k.current] == Running
    ensures SameBar(k, MutexLock(k, m, patience, deliverable).0, k.current)
  {
    hide Core, Side, MutexLock;
    if MutexLock(k, m, patience, deliverable).1.Suspended? {
      MutexWaitBegins(k, m, patience, deliverable);
    } else {
      MutexLockAtOnce(k, m, patience, deliverable);
      LockStays(k, m, patience, deliverable);
    }
  }

  lemma LockStays(k: K, m: nat, patience: Patience, deliverable: bool)
    requires Sized(k) && m < |k.owner| && !MutexLock(k, m, patience, deliverable).1.Suspended?
    ensures MutexLock(k, m, patience, deliverable).0.state == k.state
  {
    hide SwitchAway, Enlist, ChainContains;
  }

  lemma SetterBars(k: K, op: Op, t: nat)
    requires Inv(k) && Enabled(k, op) && t < N(k) && !Resets(k, op, t)
    requires op.Spawns? || op.SetsPriority? || op.SetsPolicy? || op.LocksScheduler?
    ensures SameBar(k, Apply(k, op).0, t)
  {
    hide Core, Side, Spawn, SetPriority, SetPolicy, LockScheduler, Effect, SameBar;
    NoEffect(k, t);
    match op
    case Spawns(x, p, policy, now) => SpawnEffect(k, x, p, policy, now, t); WaitBars(k, Apply(k, op).0, t);
    case SetsPriority(x, p) => SetPriorityEffect(k, x, p, t); WaitBars(k, Apply(k, op).0, t);
    case LocksScheduler(now, _) => LockEffect(k, now, t); WaitBars(k, Apply(k, op).0, t);
    case SetsPolicy(x, policy, now) => PolicyBars(k, x, policy, now, t);
  }

  lemma PolicyBars(k: K, x: nat, policy: Budget.Policy, now: nat, t: nat)
    requires Sized(k) && x < N(k) && Budget.ValidPolicy(policy) && now <= Budget.U64_MAX && t < N(k) && t != x
    ensures SameBar(k, SetPolicy(k, x, policy, now), t)
  {
    hide SetPolicy;
    SetPolicyIs(k, x, policy, now);
  }

  /** Only scans, charges and dispatches bear on who is throttled. */
  lemma QuietBars(k: K, op: Op, t: nat)
    requires Inv(k) && Enabled(k, op) && t < N(k) && !Resets(k, op, t)
    requires !op.Yields? && !op.UnlocksScheduler? && !op.TimerFires? && !op.Traps?
    ensures SameBar(k, Apply(k, op).0, t)
  {
    hide Core, Side, ReleaseSem, MutexUnlock, Cancel, SameBar, Sleep, Exit, SemDown, MutexLock, ConsumeSem, ConsumeMtx,
      Spawn, SetPriority, SetPolicy, LockScheduler, Resets;
    match op
    case Posts(s) => PostBars(k, s, t);
    case UnlocksMutex(m) => UnlockBars(k, m, t);
    case Cancels(x) => CancelBars(k, x, t);
    case Spawns(_, _, _, _) => SetterBars(k, op, t);
    case SetsPriority(_, _) => SetterBars(k, op, t);
    case SetsPolicy(_, _, _) => SetterBars(k, op, t);
    case LocksScheduler(_, _) => SetterBars(k, op, t);
    case _ => CallBars(k, op, t);
  }

  // ---- Scans, charges and dispatches -------------------------------------------------------------------

  lemma ScanBars(k: K, now: nat, t: nat)
    requires Inv(k) && now <= Budget.U64_MAX && t < N(k)
    ensures var r := WakeSleepers(k, now);
      && Sized(r) && N(r) == N(k) && r.current == k.current
      && (r.state[t] == Throttled <==> k.state[t] == Throttled && !Budget.ReplenishDue(k.budget[t], now))
      && (r.state[t] == Free <==> k.state[t] == Free)
      && (k.state[k.current] == Running ==> r.state[k.current] == Running)
  {
    hide Core, Side, WakeSleepers, Budget.ReplenishDue, Budget.ReplenishIfDue;
    WokenExactly(k, now, t);
    WakeSleepersHart(k, now);
  }

  lemma YieldBars(k: K, now: nat, t: nat)
    requires Inv(k) && now <= Budget.U64_MAX && t < N(k) && k.state[k.current] == Running
    ensures var r := Yield(k, now).0;
      && N(r) == N(k)
      && (r.state[t] == Throttled <==> k.state[t] == Throttled && (k.lockDepth[k.current] != 0 || !Budget.ReplenishDue(k.budget[t], now)))
      && (r.state[t] == Free <==> k.state[t] == Free)
  {
    hide Core, Side, WakeSleepers, PopReady, MakeReady, Commit, Budget.ReplenishDue;
    if k.lockDepth[k.current] == 0 {
      ScanBars(k, now, t);
      GivenWay(WakeSleepers(k, now));
    }
  }

  lemma GivenWay(k: K)
    requires Sized(k)
    ensures var (k1, next) := PopReady(k);
      && k1.state == k.state && k1.current == k.current && MakeReady(k1, k1.current).state == k.state[k.current := Ready]
      && (next.Some? ==> Commit(MakeReady(k1, k1.current), next.value).state == k.state[k.current := Ready])
  {
    hide FirstBucket;
  }

  lemma TimerBars(k: K, now: nat, slice: bool, t: nat)
    requires Inv(k) && now <= Budget.U64_MAX && t < N(k)
    ensures var (r, c) := (OnTimer(k, now, slice), k.current);
      && N(r) == N(k)
      && (r.state[t] == Throttled <==>
            || (k.state[t] == Throttled && !Budget.ReplenishDue(k.budget[t], now))
            || (t == c && k.state[c] == Running && Budget.OnTimer(k.budget[c], now, k.lockDepth[c] != 0).1.ThrottleNow?))
      && (r.state[t] == Free <==> k.state[t] == Free)
  {
    hide Core, Side, WakeSleepers, Budget.OnTimer, Budget.ReplenishDue;
    ScanBars(k, now, t);
    ScanBudget(k, now, k.current);
    ScanLeavesHart(k, now);
    AfterFew(k.budget[k.current], Budget.Replenish(now), Budget.Replenish(now));
  }

  lemma TakeBars(k: K, allowEqual: bool, t: nat)
    requires Sized(k) && t < N(k) && k.state[k.current] == Running
    ensures SameBar(k, TakeReschedule(k, allowEqual).0, t)
    ensures k.state[t] in {Ready, Running} ==> TakeReschedule(k, allowEqual).0.state[t] in {Ready, Running}
  {
    hide PopReady, MakeReady, MustYield;
    GivenWay(k);
  }

  lemma UnlockSchedulerBars(k: K, now: nat, t: nat)
    requires Sized(k) && now <= Budget.U64_MAX && t < N(k) && k.state[k.current] == Running
    requires k.budget[k.current].lockOverrun ==> k.lockDepth[k.current] != 0
    ensures var (r, c) := (UnlockScheduler(k, now).0, k.current);
      && N(r) == N(k)
      && (r.state[t] == Throttled <==> k.state[t] == Throttled || (t == c && k.lockDepth[c] == 1 && k.budget[c].lockOverrun))
      && (r.state[t] == Free <==> k.state[t] == Free)
  {
    hide TakeReschedule, MustYield, ThrottleCurrent, Commit;
    if k.lockDepth[k.current] != 0 {
      var k1 := Released(k);
      if k1.lockDepth[k.current] == 0 && k1.budget[k.current].lockOverrun {
        ThrottleBars(k1, now, t);
      } else {
        TakeBars(k1, k1.slicePending, t);
        DueSwitchBars(k1, t);
      }
    }
  }

  lemma DueSwitchBars(k: K, t: nat)
    requires Sized(k) && t < N(k) && N(TakeReschedule(k, k.slicePending).0) == N(k)
    ensures var r := DueSwitch(k).0; N(r) == N(k) && r.state == TakeReschedule(k, k.slicePending).0.state
  {
    hide TakeReschedule;
  }

  lemma ThrottleBars(k: K, now: nat, t: nat)
    requires Sized(k) && now <= Budget.U64_MAX && t < N(k) && k.budget[k.current].lockOverrun
    ensures var r := ThrottleCurrent(k, now); N(r) == N(k) && r.state == k.state[k.current := Throttled]
  {
    hide FirstBucket, Budget.Throttled;
  }

  /** A trap picks no throttled task, and nobody while an overrun is pending. */
  lemma TrapPicks(k: K)
    requires Inv(k)
    ensures var next := Dispatched(k);
      next.Some? ==> next.value < N(k) && k.state[next.value] != Throttled && !k.budget[k.current].lockOverrun
  {
    hide Core, Side, PopReady;
    PickReady(k);
    if k.pending.Some? {
      TargetReady(k);
    }
    if k.budget[k.current].lockOverrun {
      OverrunHolds(k);
    }
  }

  lemma TargetReady(k: K)
    requires Inv(k) && k.pending.Some?
    ensures k.pending.value.target < N(k) && k.state[k.pending.value.target] == Ready
  {
    hide Core, Rest;
  }

  lemma OverrunHolds(k: K)
    requires Inv(k) && k.budget[k.current].lockOverrun
    ensures k.lockDepth[k.current] != 0 && k.state[k.current] == Running && k.pending.None?
  {
    hide Core, Owners, Calls, HandedOff, Dry, Reasons, Quotas, Hart;
    LockedRuns(k);
  }

  lemma DispatchBars(k: K, next: nat, now: nat, t: nat)
    requires Sized(k) && next < N(k) && now <= Budget.U64_MAX && t < N(k) && k.state[next] in {Ready, Running}
    ensures SameBar(k, Dispatch(k, next, now), t)
  {
    hide Budget.OnDispatch, Budget.OnSwitchOut;
    DispatchIs(k, next, now);
  }

  lemma TrapBars(k: K, now: nat, t: nat)
    requires Inv(k) && now <= Budget.U64_MAX && t < N(k)
    ensures SameBar(k, Trap(k, now), t)
  {
    hide Core, Side, PopReady, Dispatch, TakeReschedule;
    TrapPicks(k);
    PickReady(k);
    if k.pending.Some? {
      TargetReady(k);
      DispatchBars(k.(pending := None, lastSeq := k.pending.value.sequence, current := k.pending.value.previous), k.pending.value.target, now, t);
    } else if k.state[k.current] != Running {
      PopEffect(k, t);
      PopEffect(k, PopReadyOrIdle(k).1);
      DispatchBars(PopReadyOrIdle(k).0, PopReadyOrIdle(k).1, now, t);
    } else {
      TakeBars(k, k.slicePending, t);
      var (k1, next) := TakeReschedule(k, k.slicePending);
      if next.Some? {
        TakenReady(k);
        TakeBars(k, k.slicePending, next.value);
        DispatchBars(k1, next.value, now, t);
      }
    }
  }

  lemma TakenReady(k: K)
    requires Inv(k) && TakeReschedule(k, k.slicePending).1.Some?
    ensures var next := TakeReschedule(k, k.slicePending).1; next.value < N(k) && k.state[next.value] == Ready
  {
    hide Core, Side, PopReady, MustYield;
    PickReady(k);
  }

  // ---- Lawful events ------------------------------------------------------------------------------------

  /** Where the kernel has `t` standing. */
  function StandingOf(k: K, t: nat): Quota.Standing
    requires Sized(k) && t < N(k)
  {
    var b := k.budget[t];
    if k.state[t] == Throttled then Quota.Barred
    else if t == k.current && b.spec.Some? && b.runningSince.None? && !b.lockOverrun then Quota.Leaving
    else Quota.Eligible
  }

  ghost function StandingAfter(b: Budget.State, on: Option<nat>, m: Quota.Standing, es: seq<Budget.Event>): Quota.Standing
    requires Budget.Valid(b) && InTime(es)
    decreases |es|
  {
    if es == [] then m
    else
      Budget.AfterValid(b, es[0]);
      StandingAfter(Budget.After(b, es[0]), Quota.Onward(on, es[0]), Quota.NextStanding(b, on, m, es[0]), es[1..])
  }

  /** The budget of `t` has a quota, and budget, hart and standing go together. */
  ghost predicate Sane(k: K, t: nat, on: Option<nat>) {
    && Sized(k) && t < N(k) && k.budget[t].spec.Some? && (on.Some? <==> t == k.current)
    && Quota.Coherent(k.budget[t], on, StandingOf(k, t))
  }

  /** At most two events, unfolded. */
  lemma FewLawful(b: Budget.State, on: Option<nat>, m: Quota.Standing, es: seq<Budget.Event>)
    requires Budget.Valid(b) && InTime(es) && |es| <= 2
    ensures |es| >= 1 ==> Budget.Valid(Budget.After(b, es[0]))
    ensures Quota.InTime(es)
    ensures |es| == 0 ==> Quota.Lawful(b, on, m, es) && StandingAfter(b, on, m, es) == m
    ensures |es| == 1 ==>
      && (Quota.Lawful(b, on, m, es) <==> Quota.May(b, on, m, es[0]))
      && StandingAfter(b, on, m, es) == Quota.NextStanding(b, on, m, es[0])
    ensures |es| == 2 ==>
      var (b1, on1, m1) := (Budget.After(b, es[0]), Quota.Onward(on, es[0]), Quota.NextStanding(b, on, m, es[0]));
      && (Quota.Lawful(b, on, m, es) <==> Quota.May(b, on, m, es[0]) && Quota.May(b1, on1, m1, es[1]))
      && StandingAfter(b, on, m, es) == Quota.NextStanding(b1, on1, m1, es[1])
  {
    hide Budget.After, Quota.Onward, Quota.NextStanding, Quota.May;
    if |es| >= 1 {
      Budget.AfterValid(b, es[0]);
      var b1, on1, m1 := Budget.After(b, es[0]), Quota.Onward(on, es[0]), Quota.NextStanding(b, on, m, es[0]);
      if |es| == 2 {
        Budget.AfterValid(b1, es[1]);
        assert es[1..] == [es[1]] && es[1..][1..] == [];
        var b2, on2, m2 := Budget.After(b1, es[1]), Quota.Onward(on1, es[1]), Quota.NextStanding(b1, on1, m1, es[1]);
        assert Quota.Lawful(b2, on2, m2, []) && StandingAfter(b2, on2, m2, []) == m2;
        assert Quota.Lawful(b1, on1, m1, [es[1]]) <==> Quota.May(b1, on1, m1, es[1]);
      } else {
        assert es[1..] == [];
      }
    }
  }

  lemma TrapLawful(k: K, now: nat, t: nat, on: Option<nat>)
    requires Inv(k) && now <= Budget.U64_MAX && Sane(k, t, on)
    ensures var (es, b, m) := (SwitchEvents(k, t, now), k.budget[t], StandingOf(k, t));
      && InTime(es) && Quota.InTime(es) && Budget.Valid(b) && Quota.Lawful(b, on, m, es)
      && var r := Trap(k, now); N(r) == N(k) && StandingAfter(b, on, m, es) == StandingOf(r, t)
  {
    hide Core, Side, Trap, Dispatched, Quota.Lawful, StandingAfter, AfterAll, Budget.ReplenishIfDue;
    var es, b, m := SwitchEvents(k, t, now), k.budget[t], StandingOf(k, t);
    TrapPicks(k);
    TrapBars(k, now, t);
    TrapBudget(k, now, t);
    SwitchedBudget(k, t, now);
    FewLawful(b, on, m, es);
  }

  lemma TimerLawful(k: K, now: nat, slice: bool, t: nat, on: Option<nat>)
    requires Inv(k) && ClockSound(k) && now <= Budget.U64_MAX && Sane(k, t, on)
    ensures var (es, b, m) := (EventsOf(k, TimerFires(now, slice), t), k.budget[t], StandingOf(k, t));
      && InTime(es) && Quota.InTime(es) && Budget.Valid(b) && Quota.Lawful(b, on, m, es)
      && var r := OnTimer(k, now, slice); N(r) == N(k) && StandingAfter(b, on, m, es) == StandingOf(r, t)
  {
    hide Core, OnTimer, Quota.Lawful, StandingAfter, AfterAll, Owners, Calls, HandedOff, Dry, Reasons, Quotas, Hart;
    var es, b, m := EventsOf(k, TimerFires(now, slice), t), k.budget[t], StandingOf(k, t);
    TimerBars(k, now, slice, t);
    TimerBudget(k, now, slice, t);
    FewLawful(b, on, m, es);
    AfterFew(b, Budget.Replenish(now), Budget.Replenish(now));
    AfterFew(b, Budget.Timer(now, k.lockDepth[t] != 0), Budget.Replenish(now));
    if k.state[t] == Throttled {
      assert es == [Budget.Replenish(now)];
    } else if t == k.current && k.state[t] == Running {
      assert es == [Budget.Timer(now, k.lockDepth[t] != 0)];
    } else {
      assert es == [];
    }
  }

  lemma YieldLawful(k: K, now: nat, deliverable: bool, t: nat, on: Option<nat>)
    requires Inv(k) && Enabled(k, Yields(now, deliverable)) && Sane(k, t, on)
    ensures var (es, b, m) := (EventsOf(k, Yields(now, deliverable), t), k.budget[t], StandingOf(k, t));
      && InTime(es) && Quota.InTime(es) && Budget.Valid(b) && Quota.Lawful(b, on, m, es)
      && var r := Apply(k, Yields(now, deliverable)).0; N(r) == N(k) && StandingAfter(b, on, m, es) == StandingOf(r, t)
  {
    hide Core, Side, Yield, Quota.Lawful, StandingAfter, AfterAll;
    var es, b, m := EventsOf(k, Yields(now, deliverable), t), k.budget[t], StandingOf(k, t);
    BudgetStep(k, Yields(now, deliverable), t);
    FewLawful(b, on, m, es);
    AfterFew(b, Budget.Replenish(now), Budget.Replenish(now));
    if deliverable {
      YieldBars(k, now, t);
    }
  }

  lemma UnlockLawful(k: K, now: nat, deliverable: bool, t: nat, on: Option<nat>)
    requires Inv(k) && Enabled(k, UnlocksScheduler(now, deliverable)) && Sane(k, t, on)
    ensures var (op, b, m) := (UnlocksScheduler(now, deliverable), k.budget[t], StandingOf(k, t));
      var es := EventsOf(k, op, t);
      && InTime(es) && Quota.InTime(es) && Budget.Valid(b) && Quota.Lawful(b, on, m, es)
      && var r := Apply(k, op).0; N(r) == N(k) && StandingAfter(b, on, m, es) == StandingOf(r, t)
  {
    hide Core, Side, UnlockScheduler, Quota.Lawful, StandingAfter, AfterAll, Budget.Throttled;
    var es, b, m := EventsOf(k, UnlocksScheduler(now, deliverable), t), k.budget[t], StandingOf(k, t);
    BudgetStep(k, UnlocksScheduler(now, deliverable), t);
    FewLawful(b, on, m, es);
    AfterFew(b, Budget.Unlock(now), Budget.Unlock(now));
    if deliverable {
      if k.budget[k.current].lockOverrun {
        OverrunHolds(k);
      }
      UnlockSchedulerBars(k, now, t);
    }
  }

  /** Every step of the kernel that keeps the budget lifetime of `t` does lawful things to it, and
      keeps hart, budget and standing together. */
  lemma StepLawful(k: K, op: Op, t: nat, on: Option<nat>)
    requires Inv(k) && ClockSound(k) && Enabled(k, op) && Sane(k, t, on) && !Resets(k, op, t)
    ensures var (es, b, m) := (EventsOf(k, op, t), k.budget[t], StandingOf(k, t));
      && InTime(es) && Quota.InTime(es) && Budget.Valid(b) && Quota.Lawful(b, on, m, es)
      && var r := Apply(k, op).0; N(r) == N(k) && StandingAfter(b, on, m, es) == StandingOf(r, t)
  {
    hide Core, Side, Yield, UnlockScheduler, OnTimer, Trap, Quota.Lawful, Quota.Coherent, StandingAfter, AfterAll, ClockSound, Resets, Apply;
    BudgetStep(k, op, t);
    match op
    case Yields(now, deliverable) => YieldLawful(k, now, deliverable, t, on);
    case UnlocksScheduler(now, deliverable) => UnlockLawful(k, now, deliverable, t, on);
    case TimerFires(now, slice) => ApplyTimer(k, op); TimerLawful(k, now, slice, t, on);
    case Traps(now) => ApplyTrap(k, op); TrapLawful(k, now, t, on);
    case _ =>
      FewLawful(k.budget[t], on, StandingOf(k, t), []);
      AfterFew(k.budget[t], Budget.Unlock(0), Budget.Unlock(0));
      QuietBars(k, op, t);
  }

  lemma {:induction false} EventsCoherent(b: Budget.State, on: Option<nat>, m: Quota.Standing, es: seq<Budget.Event>)
    requires Budget.Valid(b) && b.spec.Some? && InTime(es) && Quota.InTime(es)
    requires Quota.Coherent(b, on, m) && Quota.Lawful(b, on, m, es)
    ensures var r := AfterAll(b, es); r.spec == b.spec && Quota.Coherent(r, OnAfter(on, es), StandingAfter(b, on, m, es))
    decreases |es|
  {
    hide Budget.After, Quota.NextStanding, Quota.Onward, Quota.May, Quota.Coherent;
    if es != [] {
      Budget.AfterValid(b, es[0]);
      Quota.CoherentStep(b, on, m, es[0]);
      EventsCoherent(Budget.After(b, es[0]), Quota.Onward(on, es[0]), Quota.NextStanding(b, on, m, es[0]), es[1..]);
    }
  }

  lemma OnHart(k: K, op: Op, t: nat, on: Option<nat>)
    requires Inv(k) && Enabled(k, op) && t < N(k) && !Resets(k, op, t) && (on.Some? <==> t == k.current)
    ensures InTime(EventsOf(k, op, t)) && (OnAfter(on, EventsOf(k, op, t)).Some? <==> t == Apply(k, op).0.current)
  {
    hide Core, Side, Apply, EventsOf;
    BudgetStep(k, op, t);
    EventShapes(k, op, t);
    FewAfter(on, EventsOf(k, op, t));
  }

  lemma StepSane(k: K, op: Op, t: nat, on: Option<nat>)
    requires Inv(k) && ClockSound(k) && Enabled(k, op) && Sane(k, t, on) && !Resets(k, op, t)
    ensures InTime(EventsOf(k, op, t)) && Sane(Apply(k, op).0, t, OnAfter(on, EventsOf(k, op, t)))
  {
    hide Core, Side, Apply, EventsOf, Quota.Lawful, Quota.Coherent, StandingAfter, ClockSound, Resets, StandingOf, OnAfter;
    StepLawful(k, op, t, on);
    BudgetStep(k, op, t);
    EventsCoherent(k.budget[t], on, StandingOf(k, t), EventsOf(k, op, t));
    OnHart(k, op, t, on);
  }

  lemma {:induction false} LawfulAppend(b: Budget.State, on: Option<nat>, m: Quota.Standing, es: seq<Budget.Event>, fs: seq<Budget.Event>)
    requires Budget.Valid(b) && InTime(es) && InTime(fs)
    ensures InTime(es + fs) && Quota.InTime(es + fs) && Quota.InTime(es) && Quota.InTime(fs) && Budget.Valid(AfterAll(b, es))
    ensures Quota.Lawful(b, on, m, es) && Quota.Lawful(AfterAll(b, es), OnAfter(on, es), StandingAfter(b, on, m, es), fs) ==>
      Quota.Lawful(b, on, m, es + fs)
    decreases |es|
  {
    hide Budget.After, Quota.Onward, Quota.NextStanding, Quota.May;
    if es == [] {
      assert es + fs == fs;
    } else {
      Budget.AfterValid(b, es[0]);
      assert (es + fs)[0] == es[0] && (es + fs)[1..] == es[1..] + fs;
      LawfulAppend(Budget.After(b, es[0]), Quota.Onward(on, es[0]), Quota.NextStanding(b, on, m, es[0]), es[1..], fs);
    }
  }

  /** Whatever a run does to one budget lifetime is lawful. */
  lemma {:induction false} RunLawful(k: K, ops: seq<Op>, t: nat, on: Option<nat>)
    requires Inv(k) && ClockSound(k) && Legal(k, ops) && Sane(k, t, on) && OneLifetime(k, ops, t)
    ensures var es := AllEvents(k, ops, t);
      InTime(es) && Quota.InTime(es) && Budget.Valid(k.budget[t]) && Quota.Lawful(k.budget[t], on, StandingOf(k, t), es)
    decreases |ops|
  {
    hide Core, Side, Apply, EventsOf, Quota.Lawful, Quota.Coherent, StandingAfter, ClockSound, Resets, StandingOf, OnAfter, AfterAll;
    assert Budget.Valid(k.budget[t]);
    if ops == [] {
      Quota.Nothing(k.budget[t], on, StandingOf(k, t));
    } else {
      var op, r := ops[0], Apply(k, ops[0]).0;
      StepKeeps(k, op);
      ClockStep(k, op);
      StepLawful(k, op, t, on);
      StepSane(k, op, t, on);
      BudgetStep(k, op, t);
      var es := EventsOf(k, op, t);
      RunLawful(r, ops[1..], t, OnAfter(on, es));
      LawfulAppend(k.budget[t], on, StandingOf(k, t), es, AllEvents(r, ops[1..], t));
    }
  }

  // ---- From the start -------------------------------------------------------------------------------------

  /** Every budget with a quota goes together with hart and standing. */
  ghost predicate AllSane(k: K)
    requires Sized(k)
  {
    forall t :: 0 <= t < N(k) && k.budget[t].spec.Some? ==> Sane(k, t, Since(k, t, 0))
  }

  /** Since when a task has had the hart matters only while its clock stands still. */
  lemma SaneSince(k: K, t: nat, on: Option<nat>, a: nat)
    requires Sane(k, t, on)
    ensures Sane(k, t, Since(k, t, a))
  {
    hide Sized;
  }

  lemma PolicySane(k: K, t: nat, p: Budget.Policy, now: nat)
    requires Inv(k) && t < N(k) && Budget.ValidPolicy(p) && now <= Budget.U64_MAX
    ensures var r := SetPolicy(k, t, p, now);
      N(r) == N(k) && (r.budget[t].spec.Some? ==> Sane(r, t, Since(r, t, 0)))
  {
    hide Core, Owners, Calls, HandedOff, Dry, Reasons, Locks, Quotas, InReady, Without;
  }

  lemma ResetSane(k: K, op: Op, t: nat)
    requires Inv(k) && Enabled(k, op) && t < N(k) && Resets(k, op, t)
    ensures var r := Apply(k, op).0; N(r) == N(k) && (r.budget[t].spec.Some? ==> Sane(r, t, Since(r, t, 0)))
  {
    hide Core, Side, SetPolicy, Spawn, Exit, Sane;
    match op
    case SetsPolicy(_, policy, now) => PolicySane(k, t, policy, now);
    case Spawns(_, p, policy, now) => SpawnSane(k, t, p, policy, now);
    case Exits => ExitBudget(k);
  }

  lemma SpawnSane(k: K, t: nat, p: nat, policy: Budget.Policy, now: nat)
    requires Sized(k) && t < N(k) && t != k.current && p < LEVELS && Budget.ValidPolicy(policy) && now <= Budget.U64_MAX
    ensures var r := Spawn(k, t, p, policy, now); N(r) == N(k) && (r.budget[t].spec.Some? ==> Sane(r, t, Since(r, t, 0)))
  {
  }

  lemma StepAllSane(k: K, op: Op)
    requires Inv(k) && ClockSound(k) && Enabled(k, op) && AllSane(k)
    ensures AllSane(Apply(k, op).0)
  {
    hide Core, Side, Apply, EventsOf, ClockSound, Resets, OnAfter, Sane, Since, AfterAll;
    var r := Apply(k, op).0;
    SameSize(k, op);
    forall t | 0 <= t < N(r) && r.budget[t].spec.Some? ensures Sane(r, t, Since(r, t, 0)) {
      if Resets(k, op, t) {
        ResetSane(k, op, t);
      } else {
        BudgetStep(k, op, t);
        SpecStays(k.budget[t], EventsOf(k, op, t));
        var on := Since(k, t, 0);
        StepSane(k, op, t, on);
        SaneSince(r, t, OnAfter(on, EventsOf(k, op, t)), 0);
      }
    }
  }

  lemma {:induction false} SpecStays(b: Budget.State, es: seq<Budget.Event>)
    requires Budget.Valid(b) && InTime(es)
    ensures AfterAll(b, es).spec == b.spec
    decreases |es|
  {
    hide Budget.ReplenishIfDue;
    if es != [] {
      Budget.AfterValid(b, es[0]);
      SameSpec(b, es[0]);
      SpecStays(Budget.After(b, es[0]), es[1..]);
    }
  }

  lemma SameSpec(b: Budget.State, e: Budget.Event)
    requires Budget.Valid(b)
    ensures Budget.After(b, e).spec == b.spec
  {
  }

  lemma {:induction false} RunAllSane(k: K, ops: seq<Op>)
    requires Inv(k) && ClockSound(k) && AllSane(k) && Legal(k, ops)
    ensures var r := Run(k, ops); Inv(r) && ClockSound(r) && AllSane(r)
    decreases |ops|
  {
    hide Core, Side, Apply, ClockSound, AllSane;
    if ops != [] {
      StepKeeps(k, ops[0]);
      ClockStep(k, ops[0]);
      StepAllSane(k, ops[0]);
      RunAllSane(Apply(k, ops[0]).0, ops[1..]);
    }
  }

  /** In every run from the start, from any point on, what happens to a quota within one lifetime is
      lawful, and the quota is coherent there with hart and standing. */
  lemma ReachableLawful(n: nat, counts: seq<nat>, mutexes: nat, before: seq<Op>, ops: seq<Op>, t: nat, a: nat)
    requires 2 <= n <= SLOT_LIMIT && Legal(Boot(n, counts, mutexes), before)
    requires var k := Run(Boot(n, counts, mutexes), before);
      Legal(k, ops) && OneLifetime(k, ops, t) && Sized(k) && t < N(k) && k.budget[t].spec.Some?
    ensures var k := Run(Boot(n, counts, mutexes), before);
      var (b, on, m) := (k.budget[t], Since(k, t, a), StandingOf(k, t));
      && Inv(k) && Budget.Valid(b) && Quota.Coherent(b, on, m)
      && var es := AllEvents(k, ops, t); InTime(es) && Quota.InTime(es) && Quota.Lawful(b, on, m, es)
  {
    hide Core, Side, Legal, Run, Boot, OneLifetime, AllEvents, Quota.Lawful, Quota.Coherent, StandingOf, Since, ClockSound;
    var k := Run(Boot(n, counts, mutexes), before);
    BootKeeps(n, counts, mutexes);
    BootSane(n, counts, mutexes);
    RunAllSane(Boot(n, counts, mutexes), before);
    SaneSince(k, t, Since(k, t, 0), a);
    RunLawful(k, ops, t, Since(k, t, a));
  }

  lemma BootSane(n: nat, counts: seq<nat>, mutexes: nat)
    requires 2 <= n <= SLOT_LIMIT
    ensures ClockSound(Boot(n, counts, mutexes)) && AllSane(Boot(n, counts, mutexes))
  {
  }
}
