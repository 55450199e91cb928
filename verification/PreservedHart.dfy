/** Timer, trap, yield, spawn, exit, run policy and scheduler lock keep the invariant. */
module PreservedHart {
  import opened Lists
  import Budget
  import opened Kernel
  import opened Inheritance
  import opened Chains
  import opened Invariant
  import opened Steps
  import opened MutexSteps
  import opened Preserved
  import opened PreservedMutex

  // ---- Timer ------------------------------------------------------------------------------------

  /** A sleeping or throttled task wakes; its budget may have been refilled. */
  lemma RousedKeeps(k: K, t: nat, b: Budget.State)
    requires Inv(k) && t < N(k) && k.state[t] in {Sleeping, Throttled}
    requires Budget.Valid(b) && !b.lockOverrun && (k.budget[t].spec.None? ==> b.spec.None?)
    ensures Inv(MakeReady(k.(budget := k.budget[t := b]), t))
  {
    hide Mid, Effective, Acyclic, Homes, Owners, Calls, HandedOff, Dry, Reasons, Hart;
    var k1 := k.(budget := k.budget[t := b]);
    RousedFacts(k, t);
    SameCoreKeeps(k, k1);
    ReadiedCore(k1, t);
    ReadiedSide(k, t);
    CallsState(k.call, k.state, k.waitSem, k.waitMtx, k.granted, k.grantSem, k.grantMtx, t, Ready);
    ReasonsState(k.state, k.waitSem, k.waitMtx, t, Ready);
  }

  lemma RousedFacts(k: K, t: nat)
    requires Inv(k) && t < N(k) && k.state[t] in {Sleeping, Throttled}
    ensures t != IDLE && !IsTarget(k, t) && k.waitSem[t].None? && k.waitMtx[t].None?
  {
    hide Placed, WaitSorted, Ledger, Effective, Acyclic, Owners, Locks, Quotas, HandedOff, Dry, Calls;
  }

  lemma WakeOneKeeps(k: K, t: nat, now: nat)
    requires Inv(k) && t < N(k)
    ensures Inv(WakeOne(k, t, now))
  {
    hide Core, Rest, Hart, LeaveSem, LeaveMtx, MakeReady;
    if k.state[t] == Sleeping && now >= k.wakeAt[t] {
      SleepersBudget(k, t);
      assert k.(budget := k.budget[t := k.budget[t]]) == k by { assert k.budget[t := k.budget[t]] == k.budget; }
      RousedKeeps(k, t, k.budget[t]);
    } else if Expired(k, t, now) && k.waitSem[t].Some? {
      LeaveSemKeeps(k, t);
    } else if Expired(k, t, now) && k.waitMtx[t].Some? {
      LeaveMtxKeeps(k, t);
    }
  }

  lemma SleepersBudget(k: K, t: nat)
    requires Inv(k) && t < N(k) && k.state[t] != Running
    ensures !k.budget[t].lockOverrun
  {
    hide Core, Hart, Owners, Calls, HandedOff, Dry, Reasons, Quotas;
  }

  lemma ReplenishOneKeeps(k: K, t: nat, now: nat)
    requires Inv(k) && t < N(k) && now <= Budget.U64_MAX
    ensures Inv(ReplenishOne(k, t, now))
  {
    hide Core, Rest, Hart, MakeReady;
    if k.state[t] == Throttled && Budget.ReplenishDue(k.budget[t], now) {
      Budget.ValidKept(k.budget[t], Budget.Cooperative, now, false);
      RousedKeeps(k, t, Budget.ReplenishIfDue(k.budget[t], now));
    }
  }

  lemma {:induction false} WakeFirstKeeps(k: K, n: nat, now: nat)
    requires Inv(k) && n <= N(k)
    ensures Inv(WakeFirst(k, n, now))
  {
    hide Core, Side, WakeOne;
    if n > 0 {
      WakeFirstKeeps(k, n - 1, now);
      WakeOneKeeps(WakeFirst(k, n - 1, now), n - 1, now);
    }
  }

  lemma {:induction false} ReplenishFirstKeeps(k: K, n: nat, now: nat)
    requires Inv(k) && n <= N(k) && now <= Budget.U64_MAX
    ensures Inv(ReplenishFirst(k, n, now))
  {
    hide Core, Side, ReplenishOne;
    if n > 0 {
      ReplenishFirstKeeps(k, n - 1, now);
      ReplenishOneKeeps(ReplenishFirst(k, n - 1, now), n - 1, now);
    }
  }

  lemma WakeSleepersKeeps(k: K, now: nat)
    requires Inv(k) && now <= Budget.U64_MAX
    ensures Inv(WakeSleepers(k, now))
  {
    hide Core, Side, WakeFirst, ReplenishFirst;
    WakeFirstKeeps(k, N(k), now);
    ReplenishFirstKeeps(WakeFirst(k, N(k), now), N(k), now);
  }

  lemma HartThrottled(state: seq<Status>, c: nat, pending: Option<Ticket>, ident: seq<nat>, nextSeq: nat, lastSeq: nat)
    requires Hart(state, c, pending, ident, nextSeq, lastSeq) && state[c] == Running && c != IDLE
    ensures Hart(state[c := Throttled], c, pending, ident, nextSeq, lastSeq)
  {
  }

  lemma LocksCharged(state: seq<Status>, current: nat, lockDepth: seq<nat>, lockStart: seq<Option<nat>>, budget: seq<Budget.State>, t: nat, b: Budget.State)
    requires Locks(state, current, lockDepth, lockStart, budget) && t < |state| && (b.lockOverrun ==> lockDepth[t] != 0)
    ensures Locks(state, current, lockDepth, lockStart, budget[t := b])
  {
  }

  lemma QuotasCharged(state: seq<Status>, budget: seq<Budget.State>, t: nat, b: Budget.State, s: Status)
    requires Quotas(state, budget) && t < |state| && (budget[t].spec.None? ==> b.spec.None?)
    requires s == Throttled ==> b.spec.Some? && b.remaining == 0
    ensures Quotas(state[t := s], budget[t := b])
  {
  }

  lemma ChargeCurrentKeeps(k: K, now: nat)
    requires Inv(k) && now <= Budget.U64_MAX
    ensures Inv(ChargeCurrent(k, now))
  {
    hide Mid, Effective, Acyclic, Homes, Owners, Calls, HandedOff, Dry, Reasons, Hart, Locks, Quotas;
    var c, r := k.current, ChargeCurrent(k, now);
    if k.state[c] == Running {
      var (b, expiry) := Budget.OnTimer(k.budget[c], now, k.lockDepth[c] != 0);
      IdleUnbudgeted(k);
      OverrunLocked(k);
      LocksCharged(k.state, c, k.lockDepth, k.lockStart, k.budget, c, b);
      QuotasCharged(k.state, k.budget, c, b, r.state[c]);
      if expiry.ThrottleNow? {
        ParkedCore(k, r, c);
        HartThrottled(k.state, c, k.pending, k.ident, k.nextSeq, k.lastSeq);
        LocksState(k.state, c, k.lockDepth, k.lockStart, r.budget, c, Throttled);
        OwnersState(k.owner, k.depth, k.state, k.waitMtx, c, Throttled);
        CallsState(k.call, k.state, k.waitSem, k.waitMtx, k.granted, k.grantSem, k.grantMtx, c, Throttled);
        ReasonsState(k.state, k.waitSem, k.waitMtx, c, Throttled);
      } else {
        assert k.state[c := k.state[c]] == k.state;
        SameCoreKeeps(k, r);
      }
    }
  }

  lemma IdleUnbudgeted(k: K)
    requires Inv(k)
    ensures k.budget[IDLE].spec.None?
  {
    hide Core, Hart, Owners, Calls, HandedOff, Dry, Reasons, Locks;
  }

  lemma OverrunLocked(k: K)
    requires Inv(k)
    ensures k.budget[k.current].lockOverrun ==> k.lockDepth[k.current] != 0
  {
    hide Core, Hart, Owners, Calls, HandedOff, Dry, Reasons, Quotas;
  }

  lemma OnTimerKeeps(k: K, now: nat, slice: bool)
    requires Inv(k) && now <= Budget.U64_MAX
    ensures Inv(OnTimer(k, now, slice))
  {
    hide Core, Rest, Hart, WakeSleepers, ChargeCurrent;
    WakeSleepersKeeps(k, now);
    ChargeCurrentKeeps(WakeSleepers(k, now), now);
    SliceKeeps(ChargeCurrent(WakeSleepers(k, now), now), slice);
  }

  lemma SliceKeeps(k: K, slice: bool)
    requires Inv(k)
    ensures Inv(k.(slicePending := slice))
  {
    hide Mid, Effective, Acyclic, Homes, Owners, Calls, HandedOff, Dry, Reasons, Hart, Locks, Quotas;
    SameCoreKeeps(k, k.(slicePending := slice));
  }

  // ---- Dispatch -----------------------------------------------------------------------------------------

  lemma HartStarts(state: seq<Status>, ident: seq<nat>, nextSeq: nat, next: nat)
    requires |ident| == |state| && IDLE < |state| && next < |state| && state[IDLE] == Ready
    requires forall t :: 0 <= t < |state| ==> state[t] != Running
    ensures Hart(state[next := Running], next, None, ident, nextSeq, nextSeq)
  {
  }

  /** Accounting a switch keeps quotas, and nobody holds the lock across it. */
  lemma BudgetsSwitched(state: seq<Status>, current: nat, lockDepth: seq<nat>, lockStart: seq<Option<nat>>,
                        budget: seq<Budget.State>, next: nat, now: nat)
    requires Locks(state, current, lockDepth, lockStart, budget) && Quotas(state, budget) && next < |state|
    requires GoodBudgets(budget) && (forall t :: 0 <= t < |state| ==> lockDepth[t] == 0)
    ensures var out := budget[current := Budget.OnSwitchOut(budget[current], now)];
      var b := out[next := Budget.OnDispatch(out[next], now)];
      Locks(state[next := Running], next, lockDepth, lockStart, b) && Quotas(state[next := Running], b)
  {
  }

  lemma DispatchRest(k: K, next: nat, now: nat)
    requires Rest(k) && next < N(k) && k.state[next] == Ready && now <= Budget.U64_MAX
    requires forall t :: 0 <= t < N(k) ==> k.lockDepth[t] == 0
    ensures Rest(Dispatch(k, next, now))
  {
    hide Owners, Calls, HandedOff, Dry, Reasons, Locks, Quotas;
    BudgetsSwitched(k.state, k.current, k.lockDepth, k.lockStart, k.budget, next, now);
    OwnersState(k.owner, k.depth, k.state, k.waitMtx, next, Running);
    CallsState(k.call, k.state, k.waitSem, k.waitMtx, k.granted, k.grantSem, k.grantMtx, next, Running);
    ReasonsState(k.state, k.waitSem, k.waitMtx, next, Running);
  }

  /** Nobody runs: nobody holds the scheduler lock, and idle is ready. */
  lemma NobodyRuns(k: K)
    requires Inv(k) && k.state[k.current] != Running
    ensures forall t :: 0 <= t < N(k) ==> k.lockDepth[t] == 0 && k.state[t] != Running
    ensures k.state[IDLE] == Ready
    ensures k.pending.Some? ==>
      k.pending.value.previous == k.current && k.state[k.pending.value.target] == Ready &&
      k.pending.value.sequence == k.nextSeq == k.lastSeq + 1 &&
      k.pending.value.previousIdent == k.ident[k.current] && k.pending.value.targetIdent == k.ident[k.pending.value.target]
    ensures k.pending.None? ==> k.lastSeq == k.nextSeq
  {
    hide Core, Owners, Calls, HandedOff, Dry, Reasons, Quotas;
  }

  /** The running task sent back to the ready lists: everything but lists and hart. */
  lemma SentBackRest(k: K, r: K)
    requires Inv(k) && k.state[k.current] == Running && k.lockDepth[k.current] == 0
    requires Sized(r) && r == k.(state := k.state[k.current := Ready], q := r.q)
    ensures Rest(r)
    ensures forall t :: 0 <= t < N(k) ==> r.lockDepth[t] == 0 && r.state[t] != Running
    ensures r.state[IDLE] == Ready
  {
    hide Core, Owners, Calls, HandedOff, Dry, Reasons, Quotas;
    var c := k.current;
    OwnersState(k.owner, k.depth, k.state, k.waitMtx, c, Ready);
    CallsState(k.call, k.state, k.waitSem, k.waitMtx, k.granted, k.grantSem, k.grantMtx, c, Ready);
    ReasonsState(k.state, k.waitSem, k.waitMtx, c, Ready);
    LocksState(k.state, c, k.lockDepth, k.lockStart, k.budget, c, Ready);
    QuotasState(k.state, k.budget, c, Ready);
  }

  lemma SentBackIs(k: K)
    requires Inv(k) && k.state[k.current] == Running && PopReady(k).1.Some?
    ensures var (k1, next) := PopReady(k);
      var r := MakeReady(k1, k.current);
      r == k.(state := k.state[k.current := Ready], q := r.q) &&
      next.value != k.current && k.state[next.value] == Ready && next.value < N(k)
  {
    hide Mid, Effective, Acyclic, Homes, PopReady, Owners, Calls, HandedOff, Dry, Reasons, Hart, Locks, Quotas;
    PoppedIs(k);
  }

  /** The running task gives way to the most urgent ready task through a ticket. */
  lemma HandOverKeeps(k: K, slice: bool)
    requires Inv(k) && k.state[k.current] == Running && k.lockDepth[k.current] == 0 && PopReady(k).1.Some?
    ensures var (k1, next) := PopReady(k);
      Inv(Commit(MakeReady(k1, k.current).(slicePending := slice), next.value))
  {
    hide Core, Rest, Hart, PopReady, MakeReady;
    var (k1, next) := PopReady(k);
    SentBackIs(k);
    var k2 := MakeReady(k1, k.current);
    var r := Commit(k2.(slicePending := slice), next.value);
    RunningFacts(k);
    HandOverCore(k, r);
    SentBackRest(k, k2);
    NoTicket(k);
    HartTicket(k2.state, k.current, k.ident, k.nextSeq, next.value);
    RestAside(k2, r);
  }

  lemma NoTicket(k: K)
    requires Inv(k) && k.pending.None?
    ensures k.lastSeq == k.nextSeq
  {
    hide Core, Rest;
  }

  /** `Rest` does not look at tickets or slices. */
  lemma RestAside(k: K, r: K)
    requires Rest(k) && Sized(r)
    requires r == k.(slicePending := r.slicePending, pending := r.pending, nextSeq := r.nextSeq, lastSeq := r.lastSeq)
    ensures Rest(r)
  {
    hide Owners, Calls, HandedOff, Dry, Reasons, Locks, Quotas;
  }

  lemma ConsumeKeeps(k: K, now: nat)
    requires Inv(k) && k.pending.Some? && now <= Budget.U64_MAX
    ensures Inv(Trap(k, now))
  {
    hide Core, Rest, Hart, Dispatch;
    TicketSource(k);
    NobodyRuns(k);
    var k1 := k.(pending := None, lastSeq := k.pending.value.sequence);
    var next, r := k.pending.value.target, Trap(k, now);
    assert k1.(current := k.pending.value.previous) == k1;
    assert r == Dispatch(k1, next, now);
    RestAside(k, k1);
    DispatchRest(k1, next, now);
    DispatchIs(k1, next, now);
    ConsumeCore(k, r);
    HartStarts(k.state, k.ident, k.nextSeq, next);
  }

  lemma TicketSource(k: K)
    requires Inv(k) && k.pending.Some?
    ensures k.state[k.current] != Running
  {
    hide Core, Rest;
  }

  lemma DispatchIs(k: K, next: nat, now: nat)
    requires Sized(k) && next < N(k) && now <= Budget.U64_MAX
    ensures var r := Dispatch(k, next, now);
      r == k.(budget := r.budget, resume := r.resume, state := k.state[next := Running], current := next, slicePending := false)
  {
  }

  lemma PickKeeps(k: K, now: nat)
    requires Inv(k) && k.pending.None? && k.state[k.current] != Running && now <= Budget.U64_MAX
    ensures Inv(Trap(k, now))
  {
    hide Core, Rest, Hart, Dispatch, PopReady;
    NobodyRuns(k);
    var (k1, next) := PopReadyOrIdle(k);
    PoppedIs(k);
    DispatchIs(k1, next, now);
    PickCore(k, Trap(k, now));
    assert Repriced(k, k1);
    RepricedRest(k, k1);
    DispatchRest(k1, next, now);
    HartStarts(k.state, k.ident, k.nextSeq, next);
  }

  lemma PreemptKeeps(k: K, now: nat)
    requires Inv(k) && k.state[k.current] == Running && MustYield(k, k.slicePending) && now <= Budget.U64_MAX
    ensures Inv(Trap(k, now))
  {
    hide Core, Rest, Hart, Dispatch, MakeReady, FirstBucket;
    RunningFacts(k);
    var (k1, next) := PopReady(k);
    var k2 := MakeReady(k1, k.current);
    SentBackIs(k);
    SentBackRest(k, k2);
    DispatchIs(k2, next.value, now);
    DispatchRest(k2, next.value, now);
    NoTicket(k);
    HartStarts(k2.state, k.ident, k.nextSeq, next.value);
    PreemptCore(k, Trap(k, now));
  }

  /** The trap epilogue: consume a ticket, fill an empty hart, or preempt. */
  lemma TrapKeeps(k: K, now: nat)
    requires Inv(k) && now <= Budget.U64_MAX
    ensures Inv(Trap(k, now))
  {
    if k.pending.Some? {
      ConsumeKeeps(k, now);
    } else if k.state[k.current] != Running {
      PickKeeps(k, now);
    } else if MustYield(k, k.slicePending) {
      PreemptKeeps(k, now);
    } else {
      hide Core, Rest, Hart, MustYield;
    }
  }

  // ---- Yield ----------------------------------------------------------------------------------------------

  /** The timer scans leave the hart and the lock alone. */
  ghost predicate HartUntouched(k: K, r: K) {
    && N(r) == N(k) && r.current == k.current && r.lockDepth == k.lockDepth && r.call == k.call && k.current < N(k)
    && (k.state[k.current] == Running ==> r.state[k.current] == Running)
  }

  lemma WakeOneUntouched(k: K, t: nat, now: nat)
    requires Sized(k) && t < N(k)
    ensures HartUntouched(k, WakeOne(k, t, now))
  {
    hide LeaveMtx, LeaveSem;
    if k.waitMtx[t].Some? {
      LeaveMtxIs(k, t);
    }
    if k.waitSem[t].Some? {
      LeaveSemIs(k, t);
    }
  }

  lemma LeaveSemIs(k: K, t: nat)
    requires Sized(k) && t < N(k) && k.waitSem[t].Some?
    ensures var r := LeaveSem(k, t);
      r == k.(waitSem := k.waitSem[t := None], granted := k.granted[t := false], grantSem := k.grantSem[t := None],
              wakeAt := k.wakeAt[t := 0], state := k.state[t := Ready], q := r.q)
  {
  }

  lemma ReplenishOneUntouched(k: K, t: nat, now: nat)
    requires Sized(k) && t < N(k) && now <= Budget.U64_MAX
    ensures HartUntouched(k, ReplenishOne(k, t, now))
  {
  }

  lemma {:induction false} WakeFirstUntouched(k: K, n: nat, now: nat)
    requires Sized(k) && n <= N(k)
    ensures HartUntouched(k, WakeFirst(k, n, now))
  {
    hide WakeOne;
    if n > 0 {
      WakeFirstUntouched(k, n - 1, now);
      WakeOneUntouched(WakeFirst(k, n - 1, now), n - 1, now);
    }
  }

  lemma {:induction false} ReplenishFirstUntouched(k: K, n: nat, now: nat)
    requires Sized(k) && n <= N(k) && now <= Budget.U64_MAX
    ensures HartUntouched(k, ReplenishFirst(k, n, now))
  {
    hide ReplenishOne;
    if n > 0 {
      ReplenishFirstUntouched(k, n - 1, now);
      ReplenishOneUntouched(ReplenishFirst(k, n - 1, now), n - 1, now);
    }
  }

  lemma YieldKeeps(k: K, now: nat)
    requires Inv(k) && k.state[k.current] == Running && now <= Budget.U64_MAX
    ensures Inv(Yield(k, now).0)
  {
    hide Core, Rest, Hart, PopReady, MakeReady, WakeFirst, ReplenishFirst;
    if k.lockDepth[k.current] == 0 {
      WakeSleepersKeeps(k, now);
      WakeFirstUntouched(k, N(k), now);
      ReplenishFirstUntouched(WakeFirst(k, N(k), now), N(k), now);
      var k0 := WakeSleepers(k, now);
      if PopReady(k0).1.Some? {
        HandOverKeeps(k0, k0.slicePending);
        SentBackIs(k0);
      } else {
        PoppedIs(k0);
      }
    }
  }

  // ---- Exit and spawn -------------------------------------------------------------------------------------------

  /** The exiting task's control block emptied, before the switch. */
  function Emptied(k: K): (r: K)
    requires Sized(k)
    ensures Sized(r)
  {
    var c := k.current;
    k.(state := k.state[c := Free], wakeAt := k.wakeAt[c := 0],
       waitSem := k.waitSem[c := None], waitMtx := k.waitMtx[c := None],
       granted := k.granted[c := false], grantSem := k.grantSem[c := None], grantMtx := k.grantMtx[c := None],
       base := k.base[c := LEVELS - 1], prio := k.prio[c := LEVELS - 1], inh := k.inh[c := seq(LEVELS, _ => 0)],
       lockDepth := k.lockDepth[c := 0], lockStart := k.lockStart[c := None], ident := k.ident[c := 0],
       resume := k.resume[c := 0], policy := k.policy[c := Budget.Cooperative],
       budget := k.budget[c := Budget.Unbudgeted()], call := k.call[c := User])
  }

  /** The current task may exit: it holds neither the scheduler lock nor any mutex. */
  ghost predicate MayExit(k: K)
    requires Sized(k)
  {
    k.lockDepth[k.current] == 0 && k.current != IDLE && forall m :: 0 <= m < |k.owner| ==> k.owner[m] != Some(k.current)
  }

  lemma EmptiedIs(k: K)
    requires Inv(k) && InUserCode(k) && MayExit(k)
    ensures var (r, c) := (Emptied(k), k.current);
      && r.waitSem == k.waitSem && r.waitMtx == k.waitMtx && r.granted == k.granted && r.grantSem == k.grantSem
      && r.grantMtx == k.grantMtx && r.lockDepth == k.lockDepth && r.lockStart == k.lockStart && r.call == k.call
  {
    hide Core, Hart, Owners, Calls, HandedOff, Dry, Reasons, Quotas;
    RunningFacts(k);
  }

  lemma EmptiedCore(k: K)
    requires Inv(k) && InUserCode(k) && MayExit(k)
    ensures Core(Emptied(k))
  {
    hide Mid, Effective, Acyclic, Homes, Side;
    EmptiedIs(k);
    RunningFacts(k);
    assert forall x :: 0 <= x < N(k) ==> Hop(k, x) != Some(k.current);
    RebornCore(k, Emptied(k), k.current);
  }

  lemma EmptiedRest(k: K)
    requires Inv(k) && InUserCode(k) && MayExit(k)
    ensures Rest(Emptied(k))
  {
    hide Core, Owners, Calls, HandedOff, Dry, Reasons, Locks, Quotas, Hart;
    var c, r := k.current, Emptied(k);
    EmptiedIs(k);
    RunningFacts(k);
    OwnersState(k.owner, k.depth, k.state, k.waitMtx, c, Free);
    CallsState(k.call, k.state, k.waitSem, k.waitMtx, k.granted, k.grantSem, k.grantMtx, c, Free);
    ReasonsState(k.state, k.waitSem, k.waitMtx, c, Free);
    LocksCharged(k.state, c, k.lockDepth, k.lockStart, k.budget, c, Budget.Unbudgeted());
    LocksState(k.state, c, k.lockDepth, k.lockStart, r.budget, c, Free);
    QuotasCharged(k.state, k.budget, c, Budget.Unbudgeted(), Free);
  }

  lemma ExitKeeps(k: K)
    requires Inv(k) && InUserCode(k) && MayExit(k)
    ensures Inv(Exit(k))
  {
    hide Core, Rest, Hart, SwitchAway;
    EmptiedCore(k);
    EmptiedRest(k);
    HartLeaves(k.state, k.current, k.pending, k.ident, k.nextSeq, k.lastSeq, Free, 0);
    SwitchAwayKeeps(Emptied(k));
  }

  /** A freed slot with its new identity, base priority and policy, before it becomes Ready. */
  function Furnished(k: K, t: nat, p: nat, policy: Budget.Policy, now: nat): (r: K)
    requires Sized(k) && t < N(k) && p < LEVELS && Budget.ValidPolicy(policy) && now <= Budget.U64_MAX
    ensures Sized(r)
  {
    var g := NextGeneration(k.slotGen[t]);
    Budget.ValidKept(k.budget[t], policy, now, false);
    k.(slotGen := k.slotGen[t := g], ident := k.ident[t := g], wakeAt := k.wakeAt[t := 0],
       base := k.base[t := p], prio := k.prio[t := p], policy := k.policy[t := policy],
       budget := k.budget[t := Budget.ForPolicy(policy, now)])
  }

  lemma FreeFacts(k: K, t: nat)
    requires Inv(k) && t < N(k) && k.state[t] == Free && k.pending.None?
    ensures t != IDLE && t != k.current && k.waitSem[t].None? && k.waitMtx[t].None?
    ensures forall x :: 0 <= x < N(k) ==> Hop(k, x) != Some(t)
  {
    hide Placed, WaitSorted, Ledger, Effective, Acyclic, Locks, Quotas, HandedOff, Dry, Calls;
  }

  lemma HartSpawned(state: seq<Status>, current: nat, pending: Option<Ticket>, ident: seq<nat>, nextSeq: nat, lastSeq: nat, t: nat, g: nat)
    requires Hart(state, current, pending, ident, nextSeq, lastSeq) && pending.None? && t < |state|
    ensures Hart(state, current, pending, ident[t := g], nextSeq, lastSeq)
  {
  }

  lemma FurnishedKeeps(k: K, t: nat, p: nat, policy: Budget.Policy, now: nat)
    requires Inv(k) && k.pending.None? && t < N(k) && k.state[t] == Free
    requires p < LEVELS && Budget.ValidPolicy(policy) && now <= Budget.U64_MAX
    ensures Inv(Furnished(k, t, p, policy, now))
  {
    hide Mid, Effective, Acyclic, Homes, Owners, Calls, HandedOff, Dry, Reasons, Hart, Locks, Quotas;
    var r := Furnished(k, t, p, policy, now);
    FreeFacts(k, t);
    assert r.state == r.state[t := r.state[t]];
    RebornCore(k, r, t);
    HartSpawned(k.state, k.current, k.pending, k.ident, k.nextSeq, k.lastSeq, t, r.ident[t]);
    LocksCharged(k.state, k.current, k.lockDepth, k.lockStart, k.budget, t, r.budget[t]);
    QuotasPolicy(k.state, k.budget, t, r.budget[t]);
  }

  lemma QuotasPolicy(state: seq<Status>, budget: seq<Budget.State>, t: nat, b: Budget.State)
    requires Quotas(state, budget) && t < |state| && t != IDLE && state[t] != Throttled
    ensures Quotas(state, budget[t := b])
  {
  }

  lemma SpawnKeeps(k: K, t: nat, p: nat, policy: Budget.Policy, now: nat)
    requires Inv(k) && k.pending.None? && t < N(k) && k.state[t] == Free
    requires p < LEVELS && Budget.ValidPolicy(policy) && now <= Budget.U64_MAX
    ensures Inv(Spawn(k, t, p, policy, now))
  {
    hide Mid, Effective, Acyclic, Homes, Owners, Calls, HandedOff, Dry, Reasons, Hart, Locks, Quotas;
    FurnishedKeeps(k, t, p, policy, now);
    var k1 := Furnished(k, t, p, policy, now);
    FreeFacts(k1, t);
    ReadiedCore(k1, t);
    ReadiedSide(k1, t);
    CallsState(k1.call, k1.state, k1.waitSem, k1.waitMtx, k1.granted, k1.grantSem, k1.grantMtx, t, Ready);
    ReasonsState(k1.state, k1.waitSem, k1.waitMtx, t, Ready);
  }

  // ---- Run policy ----------------------------------------------------------------------------------------------------

  lemma SetPolicyRest(k: K, t: nat, policy: Budget.Policy, now: nat)
    requires Inv(k) && t < N(k) && Budget.ValidPolicy(policy) && now <= Budget.U64_MAX
    requires t == IDLE ==> !policy.Budgeted?
    ensures Side(SetPolicy(k, t, policy, now))
  {
    hide Core, Owners, Calls, HandedOff, Dry, Reasons, Hart, Locks, InReady;
    var r := SetPolicy(k, t, policy, now);
    LocksCharged(k.state, k.current, k.lockDepth, k.lockStart, k.budget, t, r.budget[t]);
    if k.state[t] == Throttled {
      RousedFacts(k, t);
      ReadiedSide(k, t);
      LocksState(k.state, k.current, k.lockDepth, k.lockStart, r.budget, t, Ready);
      CallsState(k.call, k.state, k.waitSem, k.waitMtx, k.granted, k.grantSem, k.grantMtx, t, Ready);
      ReasonsState(k.state, k.waitSem, k.waitMtx, t, Ready);
    }
  }

  lemma SetPolicyKeeps(k: K, t: nat, policy: Budget.Policy, now: nat)
    requires Inv(k) && t < N(k) && Budget.ValidPolicy(policy) && now <= Budget.U64_MAX
    requires t == IDLE ==> !policy.Budgeted?
    ensures Inv(SetPolicy(k, t, policy, now))
  {
    hide Core, Rest, Hart, SetPolicy;
    if k.state[t] == Throttled {
      RousedFacts(k, t);
    }
    SetPolicyCore(k, t, policy, now);
    SetPolicyRest(k, t, policy, now);
  }

  // ---- Scheduler lock ---------------------------------------------------------------------------------------------------

  lemma LockSchedulerKeeps(k: K, now: nat)
    requires Inv(k) && k.state[k.current] == Running
    ensures Inv(LockScheduler(k, now).0)
  {
    hide Core, Owners, Calls, HandedOff, Dry, Reasons, Hart, Quotas;
    SameCoreKeeps(k, LockScheduler(k, now).0);
  }

  /** One level of the lock given back. */
  function Released(k: K): (r: K)
    requires Sized(k) && k.lockDepth[k.current] != 0
    ensures Sized(r)
  {
    var c := k.current;
    k.(lockDepth := k.lockDepth[c := k.lockDepth[c] - 1],
       lockStart := if k.lockDepth[c] == 1 then k.lockStart[c := None] else k.lockStart)
  }

  lemma ReleasedKeeps(k: K)
    requires Inv(k) && k.lockDepth[k.current] != 0 && (k.lockDepth[k.current] == 1 ==> !k.budget[k.current].lockOverrun)
    ensures Inv(Released(k))
  {
    hide Core, Owners, Calls, HandedOff, Dry, Reasons, Hart, Quotas;
    SameCoreKeeps(k, Released(k));
  }

  /** The outermost unlock applies a deferred exhaustion: throttled, lock free. */
  lemma OverrunRest(k: K, now: nat)
    requires Inv(k) && k.lockDepth[k.current] == 1 && k.budget[k.current].lockOverrun && now <= Budget.U64_MAX
    ensures var (k1, c) := (Released(k), k.current);
      Budget.Valid(Budget.Throttled(k1.budget[c], now)) &&
      Rest(k1.(budget := k1.budget[c := Budget.Throttled(k1.budget[c], now)], state := k1.state[c := Throttled]))
  {
    hide Core, Owners, Calls, HandedOff, Dry, Reasons, Hart;
    var c := k.current;
    Budget.ValidKept(k.budget[c], Budget.Cooperative, now, false);
    OwnersState(k.owner, k.depth, k.state, k.waitMtx, c, Throttled);
    CallsState(k.call, k.state, k.waitSem, k.waitMtx, k.granted, k.grantSem, k.grantMtx, c, Throttled);
    ReasonsState(k.state, k.waitSem, k.waitMtx, c, Throttled);
  }

  lemma OverrunKeeps(k: K, now: nat)
    requires Inv(k) && k.lockDepth[k.current] == 1 && k.budget[k.current].lockOverrun && now <= Budget.U64_MAX
    ensures Inv(ThrottleCurrent(Released(k), now))
  {
    hide Mid, Effective, Acyclic, Homes, SwitchAway, Owners, Calls, HandedOff, Dry, Reasons, Hart, Quotas;
    var c, k1 := k.current, Released(k);
    OverrunRest(k, now);
    IdleUnbudgeted(k);
    var k2 := k1.(budget := k1.budget[c := Budget.Throttled(k1.budget[c], now)], state := k1.state[c := Throttled]);
    ParkedCore(k, k2, c);
    HartLeaves(k.state, c, k.pending, k.ident, k.nextSeq, k.lastSeq, Throttled, 0);
    SwitchAwayKeeps(k2);
  }

  lemma UnlockSchedulerKeeps(k: K, now: nat)
    requires Inv(k) && k.state[k.current] == Running && now <= Budget.U64_MAX
    ensures Inv(UnlockScheduler(k, now).0)
  {
    hide Core, Rest, Hart, ThrottleCurrent, MakeReady, FirstBucket;
    var c := k.current;
    if k.lockDepth[c] != 0 {
      var k1 := Released(k);
      if k1.lockDepth[c] == 0 && k1.budget[c].lockOverrun {
        OverrunKeeps(k, now);
      } else {
        ReleasedKeeps(k);
        if MustYield(k1, k1.slicePending) {
          HandOverKeeps(k1, false);
          SentBackIs(k1);
        }
      }
    }
  }
}
