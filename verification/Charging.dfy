/** Quotas in whole runs: what the kernel does to one task's budget is a sequence of budget
    events in clock order, so the bounds proved for such sequences hold of the kernel. */
module Charging {
  import opened Lists
  import Budget
  import opened Kernel
  import opened Inheritance
  import opened Invariant
  import opened MutexSteps
  import opened Preserved
  import opened PreservedMutex
  import opened PreservedHart
  import opened Runs
  import opened Accounts
  import opened Locking
  import opened Wakeups
  import opened SchedFacts

  /** The task a trap dispatches, if it switches at all. */
  function Dispatched(k: K): (r: Option<nat>)
    requires Sized(k)
  {
    if k.pending.Some? then Some(k.pending.value.target)
    else if k.state[k.current] != Running then Some(PopReadyOrIdle(k).1)
    else if MustYield(k, k.slicePending) then PopReady(k).1
    else None
  }

  function RefillEvents(k: K, t: nat, now: nat): seq<Budget.Event>
    requires Sized(k) && t < N(k)
  {
    if k.state[t] == Throttled then [Budget.Replenish(now)] else []
  }

  function SwitchEvents(k: K, t: nat, now: nat): seq<Budget.Event>
    requires Sized(k) && t < N(k)
  {
    var next := Dispatched(k);
    if next.None? then []
    else (if t == k.current then [Budget.SwitchOut(now)] else []) + (if t == next.value then [Budget.Dispatch(now)] else [])
  }

  /** What one step does to the budget of `t`. */
  function EventsOf(k: K, op: Op, t: nat): seq<Budget.Event>
    requires Sized(k) && t < N(k)
  {
    match op
    case Yields(now, deliverable) => if deliverable && k.lockDepth[k.current] == 0 then RefillEvents(k, t, now) else []
    case TimerFires(now, _) =>
      RefillEvents(k, t, now) +
      (if t == k.current && k.state[t] == Running then [Budget.Timer(now, k.lockDepth[t] != 0)] else [])
    case Traps(now) => SwitchEvents(k, t, now)
    case UnlocksScheduler(now, deliverable) =>
      if deliverable && t == k.current && k.lockDepth[t] == 1 && k.budget[t].lockOverrun then [Budget.Unlock(now)] else []
    case _ => []
  }

  /** The step gives `t` a new budget lifetime, or a new task its slot. */
  predicate Resets(k: K, op: Op, t: nat)
    requires Sized(k)
  {
    (op.SetsPolicy? && op.t == t) || (op.Spawns? && op.slot == t) || (op.Exits? && k.current == t)
  }

  predicate InTime(es: seq<Budget.Event>) {
    forall i :: 0 <= i < |es| ==> es[i].now <= Budget.U64_MAX
  }

  function AfterAll(b: Budget.State, es: seq<Budget.Event>): (r: Budget.State)
    requires Budget.Valid(b) && InTime(es)
    decreases |es|
  {
    if es == [] then b
    else
      Budget.AfterValid(b, es[0]);
      AfterAll(Budget.After(b, es[0]), es[1..])
  }

  lemma AfterFew(b: Budget.State, e: Budget.Event, e': Budget.Event)
    requires Budget.Valid(b) && e.now <= Budget.U64_MAX && e'.now <= Budget.U64_MAX
    ensures Budget.Valid(Budget.After(b, e))
    ensures AfterAll(b, []) == b && AfterAll(b, [e]) == Budget.After(b, e)
    ensures AfterAll(b, [e, e']) == Budget.After(Budget.After(b, e), e')
  {
    hide Budget.After;
    Budget.AfterValid(b, e);
    Budget.AfterValid(Budget.After(b, e), e');
    assert [e][1..] == [] && [e, e'][1..] == [e'] && [e'][1..] == [];
    assert InTime([e']) && InTime([e, e']);
    assert AfterAll(Budget.After(b, e), [e']) == Budget.After(Budget.After(b, e), e');
  }

  // ---- Step by step ----------------------------------------------------------------------------------

  /** Budgets and the current task after a pass of the timer scans. */
  lemma ScanBudget(k: K, now: nat, t: nat)
    requires Inv(k) && now <= Budget.U64_MAX && t < N(k)
    ensures var r := WakeSleepers(k, now);
      && N(r) == N(k) && r.current == k.current && r.lockDepth == k.lockDepth
      && Budget.Valid(k.budget[t]) && InTime(RefillEvents(k, t, now))
      && r.budget[t] == AfterAll(k.budget[t], RefillEvents(k, t, now))
      && (r.state[t] == Running <==> k.state[t] == Running)
  {
    hide Core, Side, WakeSleepers, Budget.ReplenishIfDue;
    WokenExactly(k, now, t);
    WakeSleepersHart(k, now);
    assert Budget.Valid(k.budget[t]);
    AfterFew(k.budget[t], Budget.Replenish(now), Budget.Replenish(now));
    NotDue(k.budget[t], now);
  }

  lemma NotDue(b: Budget.State, now: nat)
    requires Budget.Valid(b)
    ensures !Budget.ReplenishDue(b, now) ==> Budget.ReplenishIfDue(b, now) == b
  {
  }

  lemma YieldBudget(k: K, now: nat, t: nat)
    requires Inv(k) && now <= Budget.U64_MAX && t < N(k)
    ensures var (r, op) := (Yield(k, now).0, Yields(now, true));
      && N(r) == N(k) && r.current == k.current && InTime(EventsOf(k, op, t)) && Budget.Valid(k.budget[t])
      && r.budget[t] == AfterAll(k.budget[t], EventsOf(k, op, t))
  {
    hide Core, Side, WakeSleepers, FirstBucket, AfterAll, RefillEvents;
    ScanBudget(k, now, t);
    AfterFew(k.budget[t], Budget.Replenish(now), Budget.Replenish(now));
  }

  lemma TimerBudget(k: K, now: nat, slice: bool, t: nat)
    requires Inv(k) && now <= Budget.U64_MAX && t < N(k)
    ensures var (r, op) := (OnTimer(k, now, slice), TimerFires(now, slice));
      && N(r) == N(k) && r.current == k.current && InTime(EventsOf(k, op, t)) && Budget.Valid(k.budget[t])
      && r.budget[t] == AfterAll(k.budget[t], EventsOf(k, op, t))
  {
    hide Core, Side, WakeSleepers, Budget.OnTimer;
    ScanBudget(k, now, t);
    ScanBudget(k, now, k.current);
    AfterFew(k.budget[t], Budget.Timer(now, k.lockDepth[t] != 0), Budget.Replenish(now));
  }

  lemma DispatchBudget(k: K, next: nat, now: nat, t: nat)
    requires Sized(k) && next < N(k) && t < N(k) && now <= Budget.U64_MAX
    ensures var (r, b) := (Dispatch(k, next, now), k.budget[t]);
      && N(r) == N(k) && r.current == next && Budget.Valid(b)
      && r.budget[t] ==
        (if t == k.current && t == next then Budget.OnDispatch(Budget.OnSwitchOut(b, now), now)
        else if t == k.current then Budget.OnSwitchOut(b, now)
        else if t == next then Budget.OnDispatch(b, now)
        else b)
  {
    hide Budget.OnDispatch, Budget.OnSwitchOut;
    Budget.ValidKept(k.budget[k.current], Budget.Cooperative, now, false);
  }

  /** Taking a task out of its bucket and sending the running one back touch no budget. */
  lemma ShuffleBudget(k: K)
    requires Sized(k)
    ensures PopReady(k).0.budget == k.budget && PopReady(k).0.current == k.current
    ensures var r := TakeReschedule(k, k.slicePending);
      && r.0.budget == k.budget && r.0.current == k.current && N(r.0) == N(k)
      && r.1 == if MustYield(k, k.slicePending) then PopReady(k).1 else None
  {
    hide FirstBucket;
  }

  /** What the events of a switch make of a budget. */
  lemma SwitchedBudget(k: K, t: nat, now: nat)
    requires Sized(k) && t < N(k) && now <= Budget.U64_MAX
    ensures var (b, es, next) := (k.budget[t], SwitchEvents(k, t, now), Dispatched(k));
      && InTime(es) && Budget.Valid(b)
      && AfterAll(b, es) ==
        (if next.None? then b
        else if t == k.current && t == next.value then Budget.OnDispatch(Budget.OnSwitchOut(b, now), now)
        else if t == k.current then Budget.OnSwitchOut(b, now)
        else if t == next.value then Budget.OnDispatch(b, now)
        else b)
  {
    hide Dispatched, Budget.OnDispatch, Budget.OnSwitchOut, AfterAll;
    var b := k.budget[t];
    assert Budget.Valid(b);
    AfterFew(b, Budget.SwitchOut(now), Budget.Dispatch(now));
    AfterFew(b, Budget.Dispatch(now), Budget.Dispatch(now));
    assert [Budget.SwitchOut(now)] + [Budget.Dispatch(now)] == [Budget.SwitchOut(now), Budget.Dispatch(now)];
    assert [Budget.SwitchOut(now)] + [] == [Budget.SwitchOut(now)] && [] + [Budget.Dispatch(now)] == [Budget.Dispatch(now)];
  }

  lemma TrapBudget(k: K, now: nat, t: nat)
    requires Inv(k) && now <= Budget.U64_MAX && t < N(k)
    ensures var (r, op) := (Trap(k, now), Traps(now));
      && N(r) == N(k) && r.current == (if Dispatched(k).Some? then Dispatched(k).value else k.current)
      && InTime(EventsOf(k, op, t)) && Budget.Valid(k.budget[t])
      && r.budget[t] == AfterAll(k.budget[t], EventsOf(k, op, t))
  {
    hide Core, Rest, PopReady, Dispatch, TakeReschedule, MustYield, AfterAll, SwitchEvents, InTime, Budget.OnDispatch, Budget.OnSwitchOut;
    ShuffleBudget(k);
    SwitchedBudget(k, t, now);
    if k.pending.Some? {
      var k1 := k.(pending := None, lastSeq := k.pending.value.sequence);
      assert k1.(current := k.pending.value.previous) == k1;
      DispatchBudget(k1, k.pending.value.target, now, t);
    } else if k.state[k.current] != Running {
      DispatchBudget(PopReadyOrIdle(k).0, PopReadyOrIdle(k).1, now, t);
    } else {
      var (k1, next) := TakeReschedule(k, k.slicePending);
      if next.Some? {
        DispatchBudget(k1, next.value, now, t);
      }
    }
  }

  lemma SwitchAwayBudget(k: K)
    requires Sized(k)
    ensures var r := SwitchAway(k); r.budget == k.budget && r.current == k.current && N(r) == N(k)
  {
    hide FirstBucket;
  }

  lemma ThrottleBudget(k: K, now: nat)
    requires Sized(k) && now <= Budget.U64_MAX && k.budget[k.current].lockOverrun
    ensures var r := ThrottleCurrent(k, now);
      && N(r) == N(k) && r.current == k.current
      && r.budget == k.budget[k.current := Budget.After(k.budget[k.current], Budget.Unlock(now))]
  {
    hide SwitchAway, Budget.Throttled;
    Budget.ValidKept(k.budget[k.current], Budget.Cooperative, now, false);
    SwitchAwayBudget(k.(budget := k.budget[k.current := Budget.Throttled(k.budget[k.current], now)],
                        state := k.state[k.current := Throttled]));
  }

  lemma DueSwitchBudget(k: K)
    requires Sized(k)
    ensures var r := DueSwitch(k).0; r.budget == k.budget && r.current == k.current && N(r) == N(k)
  {
    hide TakeReschedule, MustYield, PopReady;
    ShuffleBudget(k);
  }

  lemma UnlockBudget(k: K, now: nat, t: nat)
    requires Sized(k) && now <= Budget.U64_MAX && t < N(k) && (k.budget[k.current].lockOverrun ==> k.lockDepth[k.current] != 0)
    ensures var (r, op) := (UnlockScheduler(k, now).0, UnlocksScheduler(now, true));
      && N(r) == N(k) && r.current == k.current && InTime(EventsOf(k, op, t)) && Budget.Valid(k.budget[t])
      && r.budget[t] == AfterAll(k.budget[t], EventsOf(k, op, t))
  {
    hide ThrottleCurrent, TakeReschedule, MustYield, Budget.After, AfterAll, PopReady, DueSwitch, Commit;
    assert Budget.Valid(k.budget[t]);
    AfterFew(k.budget[t], Budget.Unlock(now), Budget.Unlock(now));
    if k.lockDepth[k.current] != 0 {
      DueSwitchBudget(Released(k));
      if k.lockDepth[k.current] == 1 && k.budget[k.current].lockOverrun {
        ThrottleBudget(Released(k), now);
      }
    }
  }

  /** No other step touches the budget of a task it does not reset, or the hart. */
  lemma QuietBudget(k: K, op: Op, t: nat)
    requires Sized(k) && Fits(k, op) && t < N(k) && !Resets(k, op, t)
    requires op.Spawns? || op.SetsPriority? || op.SetsPolicy? || op.LocksScheduler? || op.FinishesDown? || op.FinishesLock?
    ensures var r := Apply(k, op).0; N(r) == N(k) && r.current == k.current && r.budget[t] == k.budget[t]
  {
    hide Refresh, InReady, Without;
  }

  lemma EnlistBudget(k: K, m: nat, patience: Patience)
    requires Sized(k) && m < |k.owner| && k.owner[m].Some?
    ensures var r := Enlist(k, m, patience); r.budget == k.budget && r.current == k.current && N(r) == N(k)
  {
    hide AddInheritance, Insert;
  }

  lemma SleepBudget(k: K, until: nat)
    requires Sized(k)
    ensures var r := Sleep(k, until).0; r.budget == k.budget && r.current == k.current && N(r) == N(k)
  {
    hide SwitchAway;
    SwitchAwayBudget(k.(state := k.state[k.current := Sleeping], wakeAt := k.wakeAt[k.current := until]));
  }

  lemma ExitBudget(k: K)
    requires Sized(k)
    ensures var r := Exit(k);
      r.budget == k.budget[k.current := Budget.Unbudgeted()] && r.current == k.current && N(r) == N(k)
  {
    hide SwitchAway;
    SwitchAwayBudget(Emptied(k));
  }

  lemma DownBudget(k: K, s: nat, patience: Patience, deliverable: bool)
    requires Sized(k) && s < |k.count|
    ensures var r := SemDown(k, s, patience, deliverable).0; r.budget == k.budget && r.current == k.current && N(r) == N(k)
  {
    hide SwitchAway, Insert;
    SwitchAwayBudget(SemQueued(k, s, patience));
  }

  lemma LockBudget(k: K, m: nat, patience: Patience, deliverable: bool)
    requires Sized(k) && m < |k.owner|
    ensures var r := MutexLock(k, m, patience, deliverable).0; r.budget == k.budget && r.current == k.current && N(r) == N(k)
  {
    hide SwitchAway, Enlist, ChainContains;
    if k.owner[m].Some? {
      EnlistBudget(k, m, patience);
      SwitchAwayBudget(Enlist(k, m, patience));
    }
  }

  lemma LeavingBudget(k: K, op: Op, t: nat)
    requires Sized(k) && Fits(k, op) && t < N(k) && !Resets(k, op, t)
    requires op.Sleeps? || op.Exits? || op.Downs? || op.LocksMutex?
    ensures var r := Apply(k, op).0; N(r) == N(k) && r.current == k.current && r.budget[t] == k.budget[t]
  {
    hide Sleep, Exit, SemDown, MutexLock;
    match op
    case Sleeps(until, _) => SleepBudget(k, until);
    case Exits => ExitBudget(k);
    case Downs(s, patience, deliverable) => DownBudget(k, s, patience, deliverable);
    case LocksMutex(m, patience, deliverable) => LockBudget(k, m, patience, deliverable);
  }

  lemma WakingBudget(k: K, op: Op, t: nat)
    requires Sized(k) && Fits(k, op) && t < N(k) && (op.Posts? || op.UnlocksMutex? || op.Cancels?)
    ensures var r := Apply(k, op).0; N(r) == N(k) && r.current == k.current && r.budget[t] == k.budget[t]
  {
    hide ReleaseSem, MutexUnlock, Cancel;
    match op
    case Posts(s) => PostCurrent(k, s);
    case UnlocksMutex(m) => UnlockCurrentSame(k, m);
    case Cancels(x) => CancelCurrent(k, x);
  }

  lemma PostCurrent(k: K, s: nat)
    requires Sized(k) && s < |k.count|
    ensures ReleaseSem(k, s).current == k.current && ReleaseSem(k, s).budget == k.budget && N(ReleaseSem(k, s)) == N(k)
  {
  }

  lemma UnlockCurrentSame(k: K, m: nat)
    requires Sized(k) && m < |k.owner|
    ensures var r := MutexUnlock(k, m).0; r.current == k.current && r.budget == k.budget && N(r) == N(k)
  {
    hide ReleaseMutex;
    if k.depth[m] > 0 {
      ReleaseMutexIs(k.(depth := k.depth[m := k.depth[m] - 1]), m, k.current);
    }
  }

  lemma CancelCurrent(k: K, x: nat)
    requires Sized(k) && x < N(k)
    ensures var r := Cancel(k, x).0; r.current == k.current && r.budget == k.budget && N(r) == N(k)
  {
    hide LeaveSem, LeaveMtx, ReleaseSem, ReleaseMutex;
    if k.waitSem[x].Some? {
      LeaveSemIs(k, x);
    } else if k.grantSem[x].Some? {
      PostCurrent(k.(grantSem := k.grantSem[x := None], granted := k.granted[x := false]), k.grantSem[x].value);
    } else if k.waitMtx[x].Some? {
      LeaveMtxIs(k, x);
    } else if k.grantMtx[x].Some? {
      var m := k.grantMtx[x].value;
      ReleaseMutexIs(k.(grantMtx := k.grantMtx[x := None], granted := k.granted[x := false], depth := k.depth[m := 0]), m, x);
    }
  }

  /** Every step applies to each budget exactly its events, unless it resets that budget. */
  lemma BudgetStep(k: K, op: Op, t: nat)
    requires Inv(k) && Enabled(k, op) && t < N(k) && !Resets(k, op, t)
    ensures var r := Apply(k, op).0;
      && N(r) == N(k) && InTime(EventsOf(k, op, t)) && Budget.Valid(k.budget[t])
      && r.budget[t] == AfterAll(k.budget[t], EventsOf(k, op, t))
      && r.current == (if op.Traps? && Dispatched(k).Some? then Dispatched(k).value else k.current)
  {
    hide Core, Side, Yield, Sleep, Exit, Spawn, SemDown, ConsumeSem, ReleaseSem, MutexLock, ConsumeMtx, MutexUnlock,
      Cancel, SetPriority, SetPolicy, LockScheduler, UnlockScheduler, OnTimer, Trap, Dispatched, RefillEvents, SwitchEvents;
    assert Budget.Valid(k.budget[t]);
    AfterFew(k.budget[t], Budget.Unlock(0), Budget.Unlock(0));
    match op
    case Yields(now, _) => YieldBudget(k, now, t);
    case TimerFires(now, slice) => TimerBudget(k, now, slice, t);
    case Traps(now) => TrapBudget(k, now, t);
    case UnlocksScheduler(now, _) => OverrunLocked(k); UnlockBudget(k, now, t);
    case Posts(_) => WakingBudget(k, op, t);
    case UnlocksMutex(_) => WakingBudget(k, op, t);
    case Cancels(_) => WakingBudget(k, op, t);
    case Sleeps(_, _) => LeavingBudget(k, op, t);
    case Exits => LeavingBudget(k, op, t);
    case Downs(_, _, _) => LeavingBudget(k, op, t);
    case LocksMutex(_, _, _) => LeavingBudget(k, op, t);
    case _ => QuietBudget(k, op, t);
  }

  // ---- Runs ---------------------------------------------------------------------------------------------

  /** No step of the run starts a new budget lifetime of `t`. */
  ghost predicate OneLifetime(k: K, ops: seq<Op>, t: nat)
    requires Legal(k, ops)
    decreases |ops|
  {
    ops == [] || (!Resets(k, ops[0], t) && OneLifetime(Apply(k, ops[0]).0, ops[1..], t))
  }

  predicate Timed(op: Op) {
    op.Yields? || op.TimerFires? || op.Traps? || op.UnlocksScheduler?
  }

  /** The clock readings of the run start at or after `a`, do not go back, and end by `z`. */
  predicate Clocked(ops: seq<Op>, a: nat, z: nat)
    decreases |ops|
  {
    if ops == [] then a <= z
    else if Timed(ops[0]) then a <= ops[0].now <= z && Clocked(ops[1..], ops[0].now, z)
    else Clocked(ops[1..], a, z)
  }

  lemma {:induction false} ClockedBounds(ops: seq<Op>, a: nat, z: nat)
    requires Clocked(ops, a, z)
    ensures a <= z
    decreases |ops|
  {
    if ops != [] {
      ClockedBounds(ops[1..], if Timed(ops[0]) then ops[0].now else a, z);
    }
  }

  ghost function AllEvents(k: K, ops: seq<Op>, t: nat): (es: seq<Budget.Event>)
    requires Legal(k, ops) && t < N(k) && Inv(k)
    decreases |ops|
  {
    if ops == [] then []
    else
      StepKeeps(k, ops[0]);
      SameSize(k, ops[0]);
      EventsOf(k, ops[0], t) + AllEvents(Apply(k, ops[0]).0, ops[1..], t)
  }

  /** The task table never changes its size. */
  lemma SameSize(k: K, op: Op)
    requires Inv(k) && Enabled(k, op)
    ensures N(Apply(k, op).0) == N(k)
  {
    hide Core, Side, Apply;
    BudgetStep(k, op, if Resets(k, op, 0) then IDLE else 0);
  }

  lemma {:induction false} AfterAllAppend(b: Budget.State, es: seq<Budget.Event>, fs: seq<Budget.Event>)
    requires Budget.Valid(b) && InTime(es) && InTime(fs)
    ensures InTime(es + fs) && Budget.Valid(AfterAll(b, es)) && AfterAll(b, es + fs) == AfterAll(AfterAll(b, es), fs)
    decreases |es|
  {
    hide Budget.After;
    assert InTime(es + fs);
    if es == [] {
      assert es + fs == fs;
    } else {
      Budget.AfterValid(b, es[0]);
      AfterAllAppend(Budget.After(b, es[0]), es[1..], fs);
      assert (es + fs)[0] == es[0] && (es + fs)[1..] == es[1..] + fs;
    }
  }

  /** Over a whole run the budget of a task is what its events make of it. */
  lemma {:induction false} RunBudget(k: K, ops: seq<Op>, t: nat)
    requires Inv(k) && Legal(k, ops) && t < N(k) && OneLifetime(k, ops, t)
    ensures var (r, es) := (Run(k, ops), AllEvents(k, ops, t));
      && N(r) == N(k) && InTime(es) && Budget.Valid(k.budget[t]) && Sized(r) && r.budget[t] == AfterAll(k.budget[t], es)
    decreases |ops|
  {
    hide Core, Side, Apply, EventsOf, Resets;
    assert Budget.Valid(k.budget[t]);
    if ops != [] {
      StepKeeps(k, ops[0]);
      BudgetStep(k, ops[0], t);
      var r := Apply(k, ops[0]).0;
      RunBudget(r, ops[1..], t);
      AfterAllAppend(k.budget[t], EventsOf(k, ops[0], t), AllEvents(r, ops[1..], t));
    }
  }

  /** All events of a step carry the step's clock reading. */
  lemma EventTimes(k: K, op: Op, t: nat)
    requires Sized(k) && t < N(k)
    ensures Timed(op) ==> forall i :: 0 <= i < |EventsOf(k, op, t)| ==> EventsOf(k, op, t)[i].now == op.now
    ensures !Timed(op) ==> EventsOf(k, op, t) == []
  {
    hide Dispatched;
  }

  lemma OrderedAppend(es: seq<Budget.Event>, fs: seq<Budget.Event>, a: nat, m: nat, z: nat)
    requires a <= m <= z && Budget.Ordered(fs, m, z) && forall i :: 0 <= i < |es| ==> es[i].now == m
    ensures Budget.Ordered(es + fs, a, z)
  {
    var gs := es + fs;
    assert forall i :: 0 <= i < |gs| ==> gs[i] == if i < |es| then es[i] else fs[i - |es|];
  }

  /** On a clock that does not go back, a task's events are in order. */
  lemma {:induction false} RunOrdered(k: K, ops: seq<Op>, t: nat, a: nat, z: nat)
    requires Inv(k) && Legal(k, ops) && t < N(k) && Clocked(ops, a, z)
    ensures Budget.Ordered(AllEvents(k, ops, t), a, z)
    decreases |ops|
  {
    hide Core, Side, Apply, EventsOf, Budget.Ordered;
    if ops != [] {
      StepKeeps(k, ops[0]);
      SameSize(k, ops[0]);
      EventTimes(k, ops[0], t);
      var m := if Timed(ops[0]) then ops[0].now else a;
      RunOrdered(Apply(k, ops[0]).0, ops[1..], t, m, z);
      ClockedBounds(ops[1..], m, z);
      OrderedAppend(EventsOf(k, ops[0], t), AllEvents(Apply(k, ops[0]).0, ops[1..], t), a, m, z);
    } else {
      assert Budget.Ordered([], a, z) by { NothingOrdered(a, z); }
    }
  }

  lemma NothingOrdered(a: nat, z: nat)
    ensures Budget.Ordered([], a, z)
  {
  }

  /** The quota of the kernel: over any stretch of any run within one budget lifetime of a task,
      if the stretch touches `n` phase windows, the task is charged at most `n + 1` capacities,
      whatever else happens in between. */
  lemma KernelChargeBound(k: K, ops: seq<Op>, t: nat, origin: nat, a: nat, z: nat)
    requires Inv(k) && Legal(k, ops) && t < N(k) && OneLifetime(k, ops, t) && Clocked(ops, a, z)
    requires Budget.InPhase(k.budget[t], origin) && origin <= a <= z < Budget.U64_MAX
    ensures InTime(AllEvents(k, ops, t)) && Budget.Valid(k.budget[t])
    ensures var spec := k.budget[t].spec.value;
      var n := Budget.Window(origin, spec.period, z) - Budget.Window(origin, spec.period, a) + 1;
      Budget.Charged(k.budget[t], AllEvents(k, ops, t)) <= (n + 1) * spec.capacity
  {
    hide Core, Side, Legal, AllEvents, OneLifetime, Clocked, Budget.Charged, Budget.Window, Budget.InPhase, Budget.Ordered, AfterAll, Run;
    RunBudget(k, ops, t);
    RunOrdered(k, ops, t, a, z);
    Budget.ChargeBound(k.budget[t], AllEvents(k, ops, t), origin, a, z);
  }

  /** Installing a quota starts a phase: its boundaries are counted from the installation. */
  lemma PolicyStartsPhase(k: K, t: nat, spec: Budget.Spec, now: nat)
    requires Sized(k) && t < N(k) && Budget.ValidSpec(spec) && now < Budget.U64_MAX
    ensures var b := SetPolicy(k, t, Budget.Budgeted(spec), now).budget[t];
      b.spec == Some(spec) && b.remaining == spec.capacity && Budget.InPhase(b, now)
  {
    hide InReady, Without;
    assert now + 1 * spec.period == now + spec.period;
  }

  // ---- Whose time is charged ----------------------------------------------------------------------------

  /** Only the budget of the current task has its clock running, and while a budgeted task runs
      without a pending overrun its clock does run. */
  ghost predicate ClockSound(k: K)
    requires Sized(k)
  {
    && (forall t :: 0 <= t < N(k) && k.budget[t].runningSince.Some? ==> t == k.current)
    && var b := k.budget[k.current];
       k.state[k.current] == Running && b.spec.Some? && !b.lockOverrun ==> b.runningSince.Some?
  }

  /** After a step's events the clock of `t` runs only if `t` is current then. */
  lemma ClockAfter(k: K, op: Op, t: nat)
    requires Sized(k) && Fits(k, op) && t < N(k) && ClockSound(k) && InTime(EventsOf(k, op, t)) && Budget.Valid(k.budget[t])
    requires AfterAll(k.budget[t], EventsOf(k, op, t)).runningSince.Some?
    ensures t == if op.Traps? && Dispatched(k).Some? then Dispatched(k).value else k.current
  {
    hide Dispatched;
    var b := k.budget[t];
    if op.Traps? {
      AfterFew(b, Budget.SwitchOut(op.now), Budget.Dispatch(op.now));
      AfterFew(b, Budget.Dispatch(op.now), Budget.Dispatch(op.now));
    } else if op.TimerFires? {
      AfterFew(b, Budget.Replenish(op.now), Budget.Timer(op.now, k.lockDepth[t] != 0));
      AfterFew(b, Budget.Timer(op.now, k.lockDepth[t] != 0), Budget.Replenish(op.now));
    } else if op.Yields? {
      AfterFew(b, Budget.Replenish(op.now), Budget.Replenish(op.now));
    }
  }

  lemma PolicyClock(k: K, t: nat, p: Budget.Policy, now: nat)
    requires Sized(k) && t < N(k) && Budget.ValidPolicy(p) && now <= Budget.U64_MAX
    ensures var r := SetPolicy(k, t, p, now);
      && N(r) == N(k) && r.current == k.current && (r.state[t] == Running <==> k.state[t] == Running)
      && (r.budget[t].runningSince.Some? ==> k.state[t] == Running)
      && (k.state[t] == Running ==> r.budget[t].spec.None? || r.budget[t].runningSince.Some?)
  {
    hide InReady, Without;
  }

  lemma SpawnClock(k: K, t: nat, p: nat, policy: Budget.Policy, now: nat)
    requires Sized(k) && t < N(k) && p < LEVELS && Budget.ValidPolicy(policy) && now <= Budget.U64_MAX
    ensures var r := Spawn(k, t, p, policy, now);
      && N(r) == N(k) && r.current == k.current && r.state[t] == Ready && r.budget[t].runningSince.None?
  {
  }

  lemma ResetClock(k: K, op: Op, t: nat)
    requires Inv(k) && Enabled(k, op) && t < N(k) && Resets(k, op, t)
    ensures var r := Apply(k, op).0;
      && N(r) == N(k) && r.current == k.current && (r.budget[t].runningSince.Some? ==> t == k.current)
      && (t == k.current && r.state[t] == Running ==> r.budget[t].spec.None? || r.budget[t].runningSince.Some?)
  {
    hide Core, Rest, SetPolicy, Spawn, Exit;
    match op
    case SetsPolicy(_, policy, now) => PolicyClock(k, t, policy, now);
    case Spawns(_, p, policy, now) => SpawnClock(k, t, p, policy, now);
    case Exits => ExitBudget(k);
  }

  /** Outside the trap, a task that runs after a step ran before it. */
  lemma RanBefore(k: K, op: Op)
    requires Inv(k) && Enabled(k, op) && !op.Traps?
    ensures var r := Apply(k, op).0;
      N(r) == N(k) && (r.state[k.current] == Running ==> k.state[k.current] == Running)
  {
    hide Core, Side, OnTimer, ReleaseSem, Refresh, InReady, Without;
    match op
    case Posts(s) => PostStarts(k, s);
    case TimerFires(now, slice) => TimerStarts(k, now, slice);
    case SetsPriority(_, _) =>
    case SetsPolicy(_, _, _) =>
    case _ => SameSize(k, op);
  }

  lemma PostStarts(k: K, s: nat)
    requires Sized(k) && s < |k.count|
    ensures var r := ReleaseSem(k, s); N(r) == N(k) && forall t :: 0 <= t < N(k) && r.state[t] == Running ==> k.state[t] == Running
  {
  }

  lemma TimerStarts(k: K, now: nat, slice: bool)
    requires Inv(k) && now <= Budget.U64_MAX
    ensures N(OnTimer(k, now, slice)) == N(k)
    ensures OnTimer(k, now, slice).state[k.current] == Running ==>
      k.state[k.current] == Running && Budget.OnTimer(k.budget[k.current], now, k.lockDepth[k.current] != 0).1 != Budget.ThrottleNow
  {
    hide Core, Side, WakeSleepers, Budget.OnTimer;
    ScanLeavesHart(k, now);
    ScanBudget(k, now, k.current);
    AfterFew(k.budget[k.current], Budget.Replenish(now), Budget.Replenish(now));
  }

  /** After an unlock that applied a deferred exhaustion the task is no longer running. */
  lemma UnlockStops(k: K, now: nat)
    requires Sized(k) && k.lockDepth[k.current] == 1 && k.budget[k.current].lockOverrun && now <= Budget.U64_MAX
    ensures var r := UnlockScheduler(k, now).0; N(r) == N(k) && r.state[k.current] == Throttled
  {
    hide FirstBucket, Budget.Throttled;
  }

  lemma UnlockRunsOn(k: K, op: Op)
    requires Sized(k) && Fits(k, op) && op.UnlocksScheduler? && N(Apply(k, op).0) == N(k)
    requires Apply(k, op).0.state[k.current] == Running
    ensures EventsOf(k, op, k.current) == []
  {
    hide UnlockScheduler;
    if EventsOf(k, op, k.current) != [] {
      UnlockStops(k, op.now);
    }
  }

  /** The clock of the task that keeps the hart through a step. */
  lemma ClockGoesOn(k: K, op: Op)
    requires Inv(k) && Enabled(k, op) && ClockSound(k) && !Resets(k, op, k.current) && !op.Traps?
    requires var r := Apply(k, op).0; N(r) == N(k) && r.state[k.current] == Running
    ensures var (r, c) := (Apply(k, op).0, k.current);
      r.budget[c].spec.Some? && !r.budget[c].lockOverrun ==> r.budget[c].runningSince.Some?
  {
    hide Core, Side, Apply, Budget.ReplenishIfDue, Budget.Throttled;
    var c := k.current;
    RanBefore(k, op);
    BudgetStep(k, op, c);
    var b := k.budget[c];
    if op.TimerFires? {
      AfterFew(b, Budget.Timer(op.now, k.lockDepth[c] != 0), Budget.Replenish(op.now));
      TimerStarts(k, op.now, op.slice);
      assert EventsOf(k, op, c) == [Budget.Timer(op.now, k.lockDepth[c] != 0)];
      assert Apply(k, op).0 == OnTimer(k, op.now, op.slice) by { ApplyTimer(k, op); }
    } else {
      if op.UnlocksScheduler? {
        UnlockRunsOn(k, op);
      }
      assert EventsOf(k, op, c) == [];
    }
  }

  lemma ApplyTimer(k: K, op: Op)
    requires Sized(k) && Fits(k, op) && op.TimerFires?
    ensures Apply(k, op).0 == OnTimer(k, op.now, op.slice)
  {
    hide OnTimer;
  }

  /** A trap that dispatches nobody changes nothing. */
  lemma IdleTrap(k: K, now: nat)
    requires Inv(k) && now <= Budget.U64_MAX && Dispatched(k).None?
    ensures Trap(k, now) == k
  {
    hide Core, Side, PopReady, Dispatch, MakeReady, FirstBucket;
    InvCore(k);
    if MustYield(k, k.slicePending) {
      RescheduleFacts(k, k.slicePending, Homes(k));
    }
  }

  /** A trap starts the clock of the task it dispatches. */
  lemma TrapClock(k: K, now: nat)
    requires Inv(k) && now <= Budget.U64_MAX && Dispatched(k).Some?
    ensures var r := Trap(k, now);
      && N(r) == N(k) && r.current == Dispatched(k).value
      && (r.budget[r.current].spec.Some? ==> r.budget[r.current].runningSince.Some?)
  {
    hide Core, Side, Trap, Dispatched, AfterAll, SwitchEvents, InTime, Budget.ReplenishIfDue;
    var next := Dispatched(k).value;
    TrapBudget(k, now, k.current);
    TrapBudget(k, now, next);
    SwitchedBudget(k, next, now);
  }

  /** Every step keeps the charge on the task that has the hart. */
  lemma ClockStep(k: K, op: Op)
    requires Inv(k) && Enabled(k, op) && ClockSound(k)
    ensures ClockSound(Apply(k, op).0)
  {
    hide Core, Side, Apply, EventsOf, Dispatched, Resets;
    var r := Apply(k, op).0;
    SameSize(k, op);
    forall t | 0 <= t < N(r) && r.budget[t].runningSince.Some? ensures t == r.current {
      if Resets(k, op, t) {
        ResetClock(k, op, t);
      } else {
        BudgetStep(k, op, t);
        ClockAfter(k, op, t);
      }
    }
    if op.Traps? {
      assert r == Trap(k, op.now) by { ApplyTrap(k, op); }
      if Dispatched(k).Some? {
        TrapClock(k, op.now);
      } else {
        IdleTrap(k, op.now);
      }
    } else if Resets(k, op, k.current) {
      ResetClock(k, op, k.current);
    } else {
      BudgetStep(k, op, k.current);
      if r.state[r.current] == Running {
        ClockGoesOn(k, op);
      }
    }
  }

  lemma ApplyTrap(k: K, op: Op)
    requires Sized(k) && Fits(k, op) && op.Traps?
    ensures Apply(k, op).0 == Trap(k, op.now)
  {
    hide Trap;
  }

  lemma {:induction false} ClockRun(k: K, ops: seq<Op>)
    requires Inv(k) && Legal(k, ops) && ClockSound(k)
    ensures Inv(Run(k, ops)) && ClockSound(Run(k, ops))
    decreases |ops|
  {
    hide Core, Side, Apply, ClockSound;
    if ops != [] {
      StepKeeps(k, ops[0]);
      ClockStep(k, ops[0]);
      ClockRun(Apply(k, ops[0]).0, ops[1..]);
    }
  }

  /** In every reachable state only the task that has the hart is being charged, and a budgeted
      task that runs is being charged unless its exhaustion is already pending. */
  lemma ReachableClock(n: nat, counts: seq<nat>, mutexes: nat, ops: seq<Op>)
    requires 2 <= n <= SLOT_LIMIT && Legal(Boot(n, counts, mutexes), ops)
    ensures Sized(Run(Boot(n, counts, mutexes), ops)) && ClockSound(Run(Boot(n, counts, mutexes), ops))
  {
    hide Core, Side, Legal, Run;
    BootKeeps(n, counts, mutexes);
    ClockRun(Boot(n, counts, mutexes), ops);
  }
}
