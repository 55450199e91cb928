/** Sleeps and timed waits over whole runs: what ends them, and that nothing else does. */
module Waits {
  import opened Lists
  import Budget
  import opened Kernel
  import opened Inheritance
  import opened Invariant
  import opened Steps
  import opened MutexSteps
  import opened Preserved
  import opened PreservedMutex
  import opened PreservedHart
  import opened Runs
  import opened Locking
  import opened Wakeups
  import opened Accounts
  import opened Chains
  import opened SchedFacts

  /** `t` sleeps or waits. */
  predicate Parked(k: K, t: nat)
    requires Sized(k) && t < N(k)
  {
    k.state[t] == Sleeping || k.state[t] == Blocked
  }

  /** `t` sleeps or waits as before, for the same object and until the same deadline. */
  predicate SameWait(k: K, r: K, t: nat)
    requires Sized(k) && Sized(r) && N(r) == N(k) && t < N(k)
  {
    && r.state[t] == k.state[t] && r.wakeAt[t] == k.wakeAt[t] && r.waitSem[t] == k.waitSem[t] && r.waitMtx[t] == k.waitMtx[t]
    && r.granted[t] == k.granted[t] && r.grantSem[t] == k.grantSem[t] && r.grantMtx[t] == k.grantMtx[t]
  }

  /** `t` is first in list `l`. */
  predicate Heads(k: K, l: nat, t: nat)
    requires l < |k.q|
  {
    k.q[l] != [] && k.q[l][0] == t
  }

  /** The steps that end the wait or sleep of `t`: a permit or a mutex handed to it, from a post,
      an unlock or the cancellation of another task's unconsumed grant; its own cancellation if
      it waits; and a scan at or after its deadline. */
  predicate Ends(k: K, op: Op, t: nat)
    requires Sized(k) && t < N(k) && Fits(k, op)
  {
    match op
    case Posts(s) => Heads(k, SemList(k, s), t)
    case UnlocksMutex(m) => k.owner[m] == Some(k.current) && k.depth[m] == 1 && Heads(k, MtxList(k, m), t)
    case Cancels(x) =>
      if x == t then k.state[t] == Blocked
      else if k.waitSem[x].Some? then false
      else if k.grantSem[x].Some? then Heads(k, SemList(k, k.grantSem[x].value), t)
      else if k.waitMtx[x].Some? then false
      else k.grantMtx[x].Some? && Heads(k, MtxList(k, k.grantMtx[x].value), t)
    case Yields(now, deliverable) => deliverable && k.lockDepth[k.current] == 0 && Due(k, t, now)
    case TimerFires(now, _) => Due(k, t, now)
    case _ => false
  }

  /** The wait of `t` is over, or is as it was. */
  predicate Effect(k: K, r: K, t: nat, ends: bool) {
    Sized(k) && Sized(r) && N(r) == N(k) && t < N(k) && if ends then r.state[t] == Ready else SameWait(k, r, t)
  }

  lemma EffectsCompose(k: K, k1: K, r: K, t: nat, ends: bool)
    ensures Effect(k, k1, t, false) && Effect(k1, r, t, ends) ==> Effect(k, r, t, ends)
    ensures Effect(k, k1, t, true) && Effect(k1, r, t, false) ==> Effect(k, r, t, true)
  {
    hide Sized;
  }

  lemma NoEffect(k: K, t: nat)
    requires Sized(k) && t < N(k)
    ensures Effect(k, k, t, false)
  {
    hide Sized;
  }

  lemma ParkedFacts(k: K, t: nat)
    requires Inv(k) && t < N(k) && Parked(k, t)
    ensures t != IDLE && !k.granted[t] && k.grantSem[t].None? && k.grantMtx[t].None?
    ensures k.pending.Some? ==> k.pending.value.target != t
    ensures k.state[k.current] == Running ==> t != k.current
    ensures k.state[t] == Sleeping ==> k.waitSem[t].None? && k.waitMtx[t].None?
    ensures k.state[t] == Blocked ==> k.waitSem[t].Some? || k.waitMtx[t].Some?
  {
    hide Placed, WaitSorted, Ledger, Effective, Acyclic, Locks, Quotas, Owners, HandedOff, Dry;
  }

  // ---- The hart -----------------------------------------------------------------------------------

  lemma ScanEffect(k: K, now: nat, t: nat)
    requires Inv(k) && t < N(k) && Parked(k, t) && now <= Budget.U64_MAX
    ensures Effect(k, WakeSleepers(k, now), t, Due(k, t, now)) && WakeSleepers(k, now).current == k.current
  {
    hide Core, Side, WakeSleepers;
    WokenExactly(k, now, t);
    WakeSleepersHart(k, now);
  }

  lemma PopEffect(k: K, t: nat)
    requires Sized(k) && t < N(k)
    ensures Effect(k, PopReady(k).0, t, false) && PopReady(k).0.current == k.current
  {
    hide FirstBucket;
  }

  lemma ReadyEffect(k: K, x: nat, t: nat)
    requires Sized(k) && t < N(k) && x < N(k) && x != t
    ensures Effect(k, MakeReady(k, x), t, false)
  {
  }

  lemma CommitEffect(k: K, target: nat, t: nat)
    requires Sized(k) && t < N(k) && target < N(k)
    ensures Effect(k, Commit(k, target), t, false)
  {
  }

  lemma SwitchAwayEffect(k: K, t: nat)
    requires Sized(k) && t < N(k)
    ensures Effect(k, SwitchAway(k), t, false)
  {
    hide PopReady, Commit, Effect;
    PopEffect(k, t);
    var (k1, target) := PopReadyOrIdle(k);
    assert Effect(k, k1, t, false) ==> t < N(k1) by { EffectSize(k, k1, t); }
    CommitEffect(k1, target, t);
    EffectsCompose(k, k1, Commit(k1, target), t, false);
  }

  lemma EffectSize(k: K, r: K, t: nat)
    requires Effect(k, r, t, false)
    ensures N(r) == N(k) && t < N(k)
  {
  }

  lemma TakeEffect(k: K, allowEqual: bool, t: nat)
    requires Sized(k) && t < N(k) && t != k.current
    ensures var r := TakeReschedule(k, allowEqual); Effect(k, r.0, t, false) && (r.1.Some? ==> r.1 == PopReady(k).1)
  {
    hide PopReady, MakeReady, MustYield, Effect;
    NoEffect(k, t);
    if MustYield(k, allowEqual) {
      PopEffect(k, t);
      var k1 := PopReady(k).0;
      EffectSize(k, k1, t);
      ReadyEffect(k1, k1.current, t);
      EffectsCompose(k, k1, MakeReady(k1, k1.current), t, false);
    }
  }

  lemma DispatchEffect(k: K, next: nat, now: nat, t: nat)
    requires Sized(k) && next < N(k) && now <= Budget.U64_MAX && t < N(k) && t != next
    ensures Effect(k, Dispatch(k, next, now), t, false)
  {
  }

  lemma GiveWayEffect(k: K, t: nat)
    requires Sized(k) && t < N(k) && t != k.current
    ensures var (k1, next) := PopReady(k); next.Some? ==> Effect(k, Commit(MakeReady(k1, k1.current), next.value), t, false)
  {
    hide PopReady, MakeReady, Commit, Effect;
    PopEffect(k, t);
    var (k1, next) := PopReady(k);
    EffectSize(k, k1, t);
    if next.Some? {
      ReadyEffect(k1, k1.current, t);
      var k2 := MakeReady(k1, k1.current);
      EffectSize(k1, k2, t);
      CommitEffect(k2, next.value, t);
      EffectsCompose(k1, k2, Commit(k2, next.value), t, false);
      EffectsCompose(k, k1, Commit(k2, next.value), t, false);
    }
  }

  lemma YieldEffect(k: K, now: nat, t: nat)
    requires Inv(k) && t < N(k) && Parked(k, t) && t != k.current && now <= Budget.U64_MAX
    ensures Effect(k, Yield(k, now).0, t, k.lockDepth[k.current] == 0 && Due(k, t, now))
  {
    hide Core, Side, WakeSleepers, Due, PopReady, MakeReady, Commit, Effect;
    NoEffect(k, t);
    if k.lockDepth[k.current] == 0 {
      ScanEffect(k, now, t);
      var k1 := WakeSleepers(k, now);
      NoEffect(k1, t);
      GiveWayEffect(k1, t);
      assert PopReady(k1).1.None? ==> PopReady(k1).0 == k1 by { PopNothing(k1); }
      EffectsCompose(k, k1, Yield(k, now).0, t, Due(k, t, now));
      EffectsCompose(k, k1, Yield(k, now).0, t, false);
    }
  }

  lemma PopNothing(k: K)
    requires Sized(k)
    ensures PopReady(k).1.None? ==> PopReady(k).0 == k
  {
    hide FirstBucket;
  }

  lemma TimerEffect(k: K, now: nat, slice: bool, t: nat)
    requires Inv(k) && now <= Budget.U64_MAX && t < N(k) && Parked(k, t)
    ensures Effect(k, OnTimer(k, now, slice), t, Due(k, t, now))
  {
    hide Core, Side, WakeSleepers, Due, Budget.OnTimer;
    ScanEffect(k, now, t);
  }

  lemma PickReady(k: K)
    requires Inv(k)
    ensures var next := PopReadyOrIdle(k).1; next < N(k) && k.state[next] in {Ready, Running}
    ensures PopReady(k).1.Some? ==> k.state[PopReady(k).1.value] == Ready
  {
    hide Mid, Effective, Acyclic, Homes, PopReady, Owners, Calls, HandedOff, Dry, Reasons, Locks, Quotas;
    PoppedIs(k);
  }

  lemma TrapEffect(k: K, now: nat, t: nat)
    requires Inv(k) && now <= Budget.U64_MAX && t < N(k) && Parked(k, t)
    ensures Effect(k, Trap(k, now), t, false)
  {
    hide Core, Side, PopReady, Dispatch, TakeReschedule, Effect;
    ParkedFacts(k, t);
    PickReady(k);
    if k.pending.Some? {
      var k1 := k.(pending := None, lastSeq := k.pending.value.sequence, current := k.pending.value.previous);
      assert Effect(k, k1, t, false) by { TicketEffect(k, k1, t); }
      DispatchEffect(k1, k.pending.value.target, now, t);
      EffectsCompose(k, k1, Trap(k, now), t, false);
    } else if k.state[k.current] != Running {
      PopEffect(k, t);
      var (k1, next) := PopReadyOrIdle(k);
      EffectSize(k, k1, t);
      DispatchEffect(k1, next, now, t);
      EffectsCompose(k, k1, Trap(k, now), t, false);
    } else {
      TakeEffect(k, k.slicePending, t);
      var (k1, next) := TakeReschedule(k, k.slicePending);
      EffectSize(k, k1, t);
      if next.Some? {
        DispatchEffect(k1, next.value, now, t);
        EffectsCompose(k, k1, Trap(k, now), t, false);
      }
    }
  }

  lemma TicketEffect(k: K, k1: K, t: nat)
    requires Sized(k) && Sized(k1) && t < N(k)
    requires k1 == k.(pending := k1.pending, lastSeq := k1.lastSeq, nextSeq := k1.nextSeq, current := k1.current, slicePending := k1.slicePending)
    ensures Effect(k, k1, t, false)
  {
    hide Sized;
  }

  // ---- Posts, unlocks and cancellations -------------------------------------------------------------

  /** A post gives its permit to the head of the queue and touches no other waiter. */
  lemma PostEffect(k: K, s: nat, t: nat)
    requires Sized(k) && s < |k.count| && t < N(k)
    ensures Effect(k, ReleaseSem(k, s), t, Heads(k, SemList(k, s), t))
  {
  }

  /** The same for the mutex a release hands off. */
  lemma HandoffEffect(k: K, m: nat, o: nat, t: nat)
    requires Sized(k) && m < |k.owner| && o < N(k) && t < N(k)
    ensures Effect(k, ReleaseMutex(k, m, o), t, Heads(k, MtxList(k, m), t))
  {
    hide ReleaseMutex;
    ReleaseMutexIs(k, m, o);
  }

  lemma UnlockEffect(k: K, m: nat, t: nat)
    requires Sized(k) && m < |k.owner| && t < N(k)
    ensures Effect(k, MutexUnlock(k, m).0, t, k.owner[m] == Some(k.current) && k.depth[m] == 1 && Heads(k, MtxList(k, m), t))
  {
    hide ReleaseMutex;
    if k.owner[m] == Some(k.current) && k.depth[m] == 1 {
      var k1 := k.(depth := k.depth[m := k.depth[m] - 1]);
      HandoffEffect(k1, m, k.current, t);
    }
  }

  lemma LeaveEffect(k: K, x: nat, t: nat)
    requires Sized(k) && x < N(k) && t < N(k)
    ensures k.waitSem[x].Some? ==> Effect(k, LeaveSem(k, x), t, x == t)
    ensures k.waitMtx[x].Some? ==> Effect(k, LeaveMtx(k, x), t, x == t)
  {
    hide LeaveSem, LeaveMtx;
    if k.waitSem[x].Some? {
      LeaveSemIs(k, x);
    }
    if k.waitMtx[x].Some? {
      LeaveMtxIs(k, x);
    }
  }

  /** Another task's unconsumed grant is given back. */
  lemma RegrantEffect(k: K, x: nat, t: nat)
    requires Sized(k) && x < N(k) && t < N(k) && x != t
    ensures k.grantSem[x].Some? ==>
      var k1 := k.(grantSem := k.grantSem[x := None], granted := k.granted[x := false]);
      var s := k.grantSem[x].value; Sized(k1) && Effect(k, ReleaseSem(k1, s), t, Heads(k, SemList(k, s), t))
    ensures k.grantMtx[x].Some? ==>
      var m := k.grantMtx[x].value;
      var k1 := k.(grantMtx := k.grantMtx[x := None], granted := k.granted[x := false], depth := k.depth[m := 0]);
      Sized(k1) && Effect(k, ReleaseMutex(k1, m, x), t, Heads(k, MtxList(k, m), t))
  {
    hide ReleaseSem, ReleaseMutex;
    if k.grantSem[x].Some? {
      PostEffect(k.(grantSem := k.grantSem[x := None], granted := k.granted[x := false]), k.grantSem[x].value, t);
    }
    if k.grantMtx[x].Some? {
      var m := k.grantMtx[x].value;
      HandoffEffect(k.(grantMtx := k.grantMtx[x := None], granted := k.granted[x := false], depth := k.depth[m := 0]), m, x, t);
    }
  }

  lemma CancelEffect(k: K, x: nat, t: nat)
    requires Sized(k) && Fits(k, Cancels(x)) && t < N(k) && Parked(k, t) && Inv(k)
    ensures Effect(k, Cancel(k, x).0, t, Ends(k, Cancels(x), t))
  {
    hide Core, Side, LeaveSem, LeaveMtx, ReleaseSem, ReleaseMutex, Effect;
    ParkedFacts(k, t);
    LeaveEffect(k, x, t);
    NoEffect(k, t);
    if x != t {
      RegrantEffect(k, x, t);
    }
  }

  // ---- The running task's own calls, and the setters --------------------------------------------------

  /** Of what makes up a wait, only that of `c` may differ. */
  predicate OnlyAt(k: K, r: K, c: nat)
    requires Sized(k) && Sized(r) && N(r) == N(k) && c < N(k)
  {
    && r.state == k.state[c := r.state[c]] && r.wakeAt == k.wakeAt[c := r.wakeAt[c]]
    && r.waitSem == k.waitSem[c := r.waitSem[c]] && r.waitMtx == k.waitMtx[c := r.waitMtx[c]]
    && r.granted == k.granted[c := r.granted[c]] && r.grantSem == k.grantSem[c := r.grantSem[c]]
    && r.grantMtx == k.grantMtx[c := r.grantMtx[c]]
  }

  lemma OnlyAtEffect(k: K, r: K, c: nat, t: nat)
    requires Sized(k) && Sized(r) && N(r) == N(k) && c < N(k) && t < N(k) && c != t && OnlyAt(k, r, c)
    ensures Effect(k, r, t, false)
  {
  }

  lemma ThenSwitches(k: K, k1: K, t: nat)
    requires Effect(k, k1, t, false)
    ensures Effect(k, SwitchAway(k1), t, false)
  {
    hide SwitchAway;
    SwitchAwayEffect(k1, t);
    EffectsCompose(k, k1, SwitchAway(k1), t, false);
  }

  lemma SleepEffect(k: K, until: nat, t: nat)
    requires Sized(k) && t < N(k) && t != k.current
    ensures Effect(k, Sleep(k, until).0, t, false)
  {
    hide SwitchAway, Effect;
    NoEffect(k, t);
    if k.lockDepth[k.current] == 0 {
      var k1 := k.(state := k.state[k.current := Sleeping], wakeAt := k.wakeAt[k.current := until]);
      OnlyAtEffect(k, k1, k.current, t);
      ThenSwitches(k, k1, t);
    }
  }

  lemma ExitEffect(k: K, t: nat)
    requires Sized(k) && t < N(k) && t != k.current
    ensures Effect(k, Exit(k), t, false)
  {
    hide SwitchAway, Effect;
    OnlyAtEffect(k, Emptied(k), k.current, t);
    ThenSwitches(k, Emptied(k), t);
  }

  lemma SemDownEffect(k: K, s: nat, patience: Patience, deliverable: bool, t: nat)
    requires Sized(k) && s < |k.count| && t < N(k) && t != k.current
    ensures Effect(k, SemDown(k, s, patience, deliverable).0, t, false)
  {
    hide SwitchAway, Effect, Insert;
    NoEffect(k, t);
    var (r, reply) := SemDown(k, s, patience, deliverable);
    if reply.Suspended? {
      var k1 := SemQueued(k, s, patience);
      OnlyAtEffect(k, k1, k.current, t);
      ThenSwitches(k, k1, t);
    } else {
      OnlyAtEffect(k, r, k.current, t);
    }
  }

  /** Where no switch can be delivered a semaphore wait takes a permit or fails, and touches no task. */
  lemma SemDownHere(k: K, s: nat, patience: Patience, t: nat)
    requires Sized(k) && s < |k.count| && t < N(k)
    ensures Effect(k, SemDown(k, s, patience, false).0, t, false)
  {
    hide SwitchAway, Insert;
  }

  lemma MutexLockEffect(k: K, m: nat, patience: Patience, deliverable: bool, t: nat)
    requires Sized(k) && m < |k.owner| && t < N(k) && t != k.current
    ensures Effect(k, MutexLock(k, m, patience, deliverable).0, t, false)
  {
    hide SwitchAway, Effect, Enlist, ChainContains, OnlyAt, MutexLock;
    var (r, reply) := MutexLock(k, m, patience, deliverable);
    if reply.Suspended? {
      MutexLockSuspends(k, m, patience, deliverable);
      EnlistOnlyAt(k, m, patience);
      OnlyAtEffect(k, Enlist(k, m, patience), k.current, t);
      ThenSwitches(k, Enlist(k, m, patience), t);
    } else {
      MutexLockAtOnce(k, m, patience, deliverable);
      OnlyAtEffect(k, r, k.current, t);
    }
  }

  lemma MutexLockSuspends(k: K, m: nat, patience: Patience, deliverable: bool)
    requires Sized(k) && m < |k.owner| && MutexLock(k, m, patience, deliverable).1.Suspended?
    ensures k.owner[m].Some? && MutexLock(k, m, patience, deliverable).0 == SwitchAway(Enlist(k, m, patience))
  {
    hide SwitchAway, Enlist, ChainContains;
  }

  lemma MutexLockAtOnce(k: K, m: nat, patience: Patience, deliverable: bool)
    requires Sized(k) && m < |k.owner| && !MutexLock(k, m, patience, deliverable).1.Suspended?
    ensures var r := MutexLock(k, m, patience, deliverable).0; N(r) == N(k) && OnlyAt(k, r, k.current)
  {
    hide SwitchAway, Enlist, ChainContains;
  }

  lemma EnlistOnlyAt(k: K, m: nat, patience: Patience)
    requires Sized(k) && m < |k.owner| && k.owner[m].Some?
    ensures N(Enlist(k, m, patience)) == N(k) && OnlyAt(k, Enlist(k, m, patience), k.current)
  {
    hide AddInheritance, Insert;
  }

  lemma ConsumesEffect(k: K, t: nat)
    requires Sized(k) && t < N(k) && t != k.current
    ensures Effect(k, ConsumeSem(k).0, t, false) && Effect(k, ConsumeMtx(k).0, t, false)
  {
    hide Effect;
    OnlyAtEffect(k, ConsumeSem(k).0, k.current, t);
    OnlyAtEffect(k, ConsumeMtx(k).0, k.current, t);
  }

  lemma SpawnEffect(k: K, x: nat, p: nat, policy: Budget.Policy, now: nat, t: nat)
    requires Sized(k) && x < N(k) && p < LEVELS && Budget.ValidPolicy(policy) && now <= Budget.U64_MAX && t < N(k) && t != x
    ensures Effect(k, Spawn(k, x, p, policy, now), t, false)
  {
    hide Effect;
    OnlyAtEffect(k, Spawn(k, x, p, policy, now), x, t);
  }

  lemma SetPriorityEffect(k: K, x: nat, p: nat, t: nat)
    requires Sized(k) && x < N(k) && p < LEVELS && t < N(k)
    ensures Effect(k, SetPriority(k, x, p), t, false)
  {
    hide Refresh;
  }

  lemma SetPolicyEffect(k: K, x: nat, policy: Budget.Policy, now: nat, t: nat)
    requires Sized(k) && x < N(k) && Budget.ValidPolicy(policy) && now <= Budget.U64_MAX && t < N(k) && Parked(k, t)
    ensures Effect(k, SetPolicy(k, x, policy, now), t, false)
  {
    hide InReady, Without;
  }

  lemma LockEffect(k: K, now: nat, t: nat)
    requires Sized(k) && t < N(k)
    ensures Effect(k, LockScheduler(k, now).0, t, false)
  {
  }

  lemma UnlockSchedulerEffect(k: K, now: nat, t: nat)
    requires Sized(k) && now <= Budget.U64_MAX && t < N(k) && t != k.current
    ensures Effect(k, UnlockScheduler(k, now).0, t, false)
  {
    hide SwitchAway, Effect, TakeReschedule, Commit;
    NoEffect(k, t);
    if k.lockDepth[k.current] != 0 {
      var k1 := Released(k);
      OnlyAtEffect(k, k1, k.current, t);
      if k1.lockDepth[k.current] == 0 && k1.budget[k.current].lockOverrun {
        ThrottleEffect(k1, now, t);
        EffectsCompose(k, k1, ThrottleCurrent(k1, now), t, false);
      } else {
        DueSwitchEffect(k1, t);
        EffectsCompose(k, k1, DueSwitch(k1).0, t, false);
      }
    }
  }

  lemma ThrottleEffect(k: K, now: nat, t: nat)
    requires Sized(k) && now <= Budget.U64_MAX && k.budget[k.current].lockOverrun && t < N(k) && t != k.current
    ensures Effect(k, ThrottleCurrent(k, now), t, false)
  {
    hide SwitchAway, Effect, Budget.Throttled;
    Budget.ValidKept(k.budget[k.current], Budget.Cooperative, now, false);
    var k1 := k.(budget := k.budget[k.current := Budget.Throttled(k.budget[k.current], now)], state := k.state[k.current := Throttled]);
    OnlyAtEffect(k, k1, k.current, t);
    ThenSwitches(k, k1, t);
  }

  lemma DueSwitchEffect(k: K, t: nat)
    requires Sized(k) && t < N(k) && t != k.current
    ensures Effect(k, DueSwitch(k).0, t, false)
  {
    hide TakeReschedule, Effect, Commit;
    TakeEffect(k, k.slicePending, t);
    var (k1, next) := TakeReschedule(k, k.slicePending);
    EffectSize(k, k1, t);
    if next.Some? {
      var k2 := k1.(slicePending := false);
      assert Effect(k1, k2, t, false) by { TicketEffect(k1, k2, t); }
      CommitEffect(k2, next.value, t);
      EffectsCompose(k1, k2, Commit(k2, next.value), t, false);
      EffectsCompose(k, k1, Commit(k2, next.value), t, false);
    }
  }

  // ---- Steps and runs -----------------------------------------------------------------------------

  /** A step ends a wait or sleep exactly if it is one of those listed; every other step of any
      task, and any interrupt, leaves it as it is. */
  lemma StepWaits(k: K, op: Op, t: nat)
    requires Sized(k) && Fits(k, op) && t < N(k) && Parked(k, t) && Inv(k) && Enabled(k, op)
    ensures Effect(k, Apply(k, op).0, t, Ends(k, op, t))
  {
    hide Core, Side, Yield, Sleep, Exit, Spawn, SemDown, ConsumeSem, ReleaseSem, MutexLock, ConsumeMtx, MutexUnlock,
      Cancel, SetPriority, SetPolicy, LockScheduler, UnlockScheduler, OnTimer, Trap, Effect, Due, Heads;
    ParkedFacts(k, t);
    NoEffect(k, t);
    match op
    case Yields(now, _) => YieldEffect(k, now, t);
    case Sleeps(until, _) => SleepEffect(k, until, t);
    case Exits => ExitEffect(k, t);
    case Spawns(x, p, policy, now) => SpawnEffect(k, x, p, policy, now, t);
    case Downs(s, patience, deliverable) =>
      if deliverable {
        SemDownEffect(k, s, patience, deliverable, t);
      } else {
        SemDownHere(k, s, patience, t);
      }
    case FinishesDown => ConsumesEffect(k, t);
    case Posts(s) => PostEffect(k, s, t);
    case LocksMutex(m, patience, deliverable) => MutexLockEffect(k, m, patience, deliverable, t);
    case FinishesLock => ConsumesEffect(k, t);
    case UnlocksMutex(m) => UnlockEffect(k, m, t);
    case Cancels(x) => CancelEffect(k, x, t);
    case SetsPriority(x, p) => SetPriorityEffect(k, x, p, t);
    case SetsPolicy(x, policy, now) => SetPolicyEffect(k, x, policy, now, t);
    case LocksScheduler(now, _) => LockEffect(k, now, t);
    case UnlocksScheduler(now, _) => UnlockSchedulerEffect(k, now, t);
    case TimerFires(now, slice) => TimerEffect(k, now, slice, t);
    case Traps(now) => TrapEffect(k, now, t);
  }

  ghost predicate NothingEnds(k: K, ops: seq<Op>, t: nat)
    requires Legal(k, ops)
    decreases |ops|
  {
    ops == [] || (t < N(k) && !Ends(k, ops[0], t) && NothingEnds(Apply(k, ops[0]).0, ops[1..], t))
  }

  /** Through a run in which nothing ends it, a wait goes on unchanged. */
  lemma {:induction false} WaitGoesOn(k: K, ops: seq<Op>, t: nat)
    requires Inv(k) && Legal(k, ops) && t < N(k) && Parked(k, t) && NothingEnds(k, ops, t)
    ensures Inv(Run(k, ops)) && Effect(k, Run(k, ops), t, false)
    decreases |ops|
  {
    hide Core, Side, Apply, Ends, Sized;
    if ops == [] {
      NoEffect(k, t);
    } else {
      StepKeeps(k, ops[0]);
      StepWaits(k, ops[0], t);
      var r := Apply(k, ops[0]).0;
      WaitGoesOn(r, ops[1..], t);
      EffectsCompose(k, r, Run(k, ops), t, false);
    }
  }

  /** No scan in the run reads `until` or later. */
  predicate EarlyScans(ops: seq<Op>, until: nat) {
    forall i :: 0 <= i < |ops| && (ops[i].Yields? || ops[i].TimerFires?) ==> ops[i].now < until
  }

  /** Nothing but a scan at or after its deadline ends a sleep. */
  lemma SleeperAlone(k: K, op: Op, t: nat)
    requires Inv(k) && Enabled(k, op) && t < N(k) && k.state[t] == Sleeping
    ensures Fits(k, op) && (Ends(k, op, t) ==> (op.Yields? || op.TimerFires?) && op.now >= k.wakeAt[t])
  {
    hide Core, Side;
    ParkedFacts(k, t);
    forall s: nat | s < |k.count| ensures !Heads(k, SemList(k, s), t) {
      SemQueue(k, s, t);
    }
    forall m: nat | m < |k.owner| ensures !Heads(k, MtxList(k, m), t) {
      NobodyWaits(k, m, t);
    }
  }

  lemma {:induction false} SleepGoesOn(k: K, ops: seq<Op>, t: nat)
    requires Inv(k) && Legal(k, ops) && t < N(k) && k.state[t] == Sleeping && EarlyScans(ops, k.wakeAt[t])
    ensures NothingEnds(k, ops, t)
    decreases |ops|
  {
    hide Core, Side, Apply, Ends, Sized, Enabled;
    if ops != [] {
      StepKeeps(k, ops[0]);
      SleeperAlone(k, ops[0], t);
      StepWaits(k, ops[0], t);
      assert forall i :: 0 <= i < |ops[1..]| ==> ops[1..][i] == ops[i + 1];
      SleepGoesOn(Apply(k, ops[0]).0, ops[1..], t);
    }
  }

  // ---- The promises -------------------------------------------------------------------------------

  /** A sleep ends at the first timer interrupt at or after its deadline and not before, whatever
      the other tasks do meanwhile. */
  lemma SleepEnds(k: K, until: nat, ops: seq<Op>, now: nat, slice: bool)
    requires Inv(k) && InUserCode(k) && k.current != IDLE && now <= Budget.U64_MAX && Sleep(k, until).1.Suspended?
    requires Legal(Sleep(k, until).0, ops) && EarlyScans(ops, until)
    ensures var (c, z) := (k.current, Run(Sleep(k, until).0, ops));
      && Inv(z) && N(z) == N(k) && z.state[c] == Sleeping && z.wakeAt[c] == until
      && var y := OnTimer(z, now, slice); N(y) == N(k) && y.state[c] == if now >= until then Ready else Sleeping
  {
    hide Core, Side, SwitchAway, OnTimer, Legal, Run, NothingEnds;
    var (c, r) := (k.current, Sleep(k, until).0);
    SleepKeeps(k, until);
    SwitchAwayEffect(k.(state := k.state[c := Sleeping], wakeAt := k.wakeAt[c := until]), c);
    SleepGoesOn(r, ops, c);
    WaitGoesOn(r, ops, c);
    TimerEffect(Run(r, ops), now, slice, c);
  }

  /** Until when a waiter with this patience waits. */
  function GivesUpAt(patience: Patience): Option<nat> {
    if patience.Until? && patience.deadline != 0 then Some(patience.deadline) else None
  }

  predicate GivesUp(patience: Patience, now: nat) {
    GivesUpAt(patience).Some? && now >= GivesUpAt(patience).value
  }

  lemma SemWaitBegins(k: K, s: nat, patience: Patience, deliverable: bool)
    requires Inv(k) && s < |k.count| && SemDown(k, s, patience, deliverable).1.Suspended?
    ensures var (c, r) := (k.current, SemDown(k, s, patience, deliverable).0);
      && N(r) == N(k) && r.state[c] == Blocked && r.waitSem[c] == Some(s) && |r.count| == |k.count|
      && r.wakeAt[c] == if patience.Until? then patience.deadline else 0
  {
    hide Core, Side, SwitchAway, Insert;
    SwitchAwayEffect(SemQueued(k, s, patience), k.current);
    SwitchAwayObjects(SemQueued(k, s, patience));
  }

  lemma SwitchAwayObjects(k: K)
    requires Sized(k)
    ensures SwitchAway(k).count == k.count && SwitchAway(k).owner == k.owner
  {
  }

  lemma MutexWaitBegins(k: K, m: nat, patience: Patience, deliverable: bool)
    requires Inv(k) && m < |k.owner| && MutexLock(k, m, patience, deliverable).1.Suspended?
    ensures var (c, r) := (k.current, MutexLock(k, m, patience, deliverable).0);
      && N(r) == N(k) && r.state[c] == Blocked && r.waitMtx[c] == Some(m) && |r.owner| == |k.owner|
      && r.wakeAt[c] == if patience.Until? then patience.deadline else 0
  {
    hide Core, Side, SwitchAway, Enlist, MutexLock;
    MutexLockSuspends(k, m, patience, deliverable);
    EnlistWaits(k, m, patience);
    SwitchAwayEffect(Enlist(k, m, patience), k.current);
    SwitchAwayObjects(Enlist(k, m, patience));
  }

  lemma EnlistWaits(k: K, m: nat, patience: Patience)
    requires Sized(k) && m < |k.owner| && k.owner[m].Some?
    ensures var (c, r) := (k.current, Enlist(k, m, patience));
      && N(r) == N(k) && r.state[c] == Blocked && r.waitMtx[c] == Some(m) && r.owner == k.owner
      && r.wakeAt[c] == if patience.Until? then patience.deadline else 0
  {
    hide AddInheritance, Insert;
  }

  /** What a timer interrupt does to a waiter: at or after the deadline it is ready and has been
      given nothing; before, or without a deadline, it waits on. */
  lemma WaiterAtTimer(k: K, t: nat, now: nat, slice: bool)
    requires Inv(k) && now <= Budget.U64_MAX && t < N(k) && k.state[t] == Blocked
    ensures var y := OnTimer(k, now, slice);
      && Inv(y) && N(y) == N(k) && y.count == k.count && y.owner == k.owner && y.depth == k.depth
      && (if k.wakeAt[t] != 0 && now >= k.wakeAt[t]
          then y.state[t] == Ready && y.waitSem[t].None? && y.waitMtx[t].None? && !y.granted[t]
          else y.state[t] == Blocked && y.waitSem[t] == k.waitSem[t] && y.waitMtx[t] == k.waitMtx[t])
  {
    hide Core, Side, OnTimer;
    OnTimerKeeps(k, now, slice);
    OnTimerUntaken(k, now, slice);
    TimerEffect(k, now, slice, t);
    if Due(k, t, now) {
      OnTimerEnds(k, t, now, slice);
    }
  }

  lemma OnTimerEnds(k: K, t: nat, now: nat, slice: bool)
    requires Inv(k) && now <= Budget.U64_MAX && t < N(k) && k.state[t] == Blocked && Due(k, t, now)
    ensures var y := OnTimer(k, now, slice); N(y) == N(k) && y.waitSem[t].None? && y.waitMtx[t].None? && !y.granted[t]
  {
    hide Core, Side, WakeSleepers, Budget.OnTimer;
    WokenExactly(k, now, t);
  }

  /** A timed wait on a semaphore: through any run in which no permit is handed to the task, it is
      not cancelled, and no scan reads its deadline or later, it waits; the first timer interrupt
      at or after the deadline readies it, without a permit. */
  lemma TimedWaitEnds(k: K, s: nat, patience: Patience, deliverable: bool, ops: seq<Op>, now: nat, slice: bool)
    requires Inv(k) && InUserCode(k) && k.current != IDLE && s < |k.count| && now <= Budget.U64_MAX
    requires SemDown(k, s, patience, deliverable).1.Suspended?
    requires var r := SemDown(k, s, patience, deliverable).0; Legal(r, ops) && NothingEnds(r, ops, k.current)
    ensures var (c, z) := (k.current, Run(SemDown(k, s, patience, deliverable).0, ops));
      && Inv(z) && N(z) == N(k) && z.state[c] == Blocked && z.waitSem[c] == Some(s)
      && var y := OnTimer(z, now, slice);
         && N(y) == N(k) && y.count == z.count
         && (if GivesUp(patience, now) then y.state[c] == Ready && y.waitSem[c].None? && !y.granted[c]
             else y.state[c] == Blocked && y.waitSem[c] == Some(s))
  {
    hide Core, Side, SemDown, OnTimer, Legal, Run, NothingEnds;
    var (c, r) := (k.current, SemDown(k, s, patience, deliverable).0);
    SemDownKeeps(k, s, patience, deliverable);
    SemWaitBegins(k, s, patience, deliverable);
    WaitGoesOn(r, ops, c);
    WaiterAtTimer(Run(r, ops), c, now, slice);
  }

  /** A timed wait on a mutex: through any run in which the mutex is not handed to the task, it is
      not cancelled, and no scan reads its deadline or later, it waits; the first timer interrupt
      at or after the deadline readies it, and the mutex stays with its owner. */
  lemma TimedLockEnds(k: K, m: nat, patience: Patience, deliverable: bool, ops: seq<Op>, now: nat, slice: bool)
    requires Inv(k) && InUserCode(k) && k.current != IDLE && m < |k.owner| && now <= Budget.U64_MAX
    requires MutexLock(k, m, patience, deliverable).1.Suspended?
    requires var r := MutexLock(k, m, patience, deliverable).0; Legal(r, ops) && NothingEnds(r, ops, k.current)
    ensures var (c, z) := (k.current, Run(MutexLock(k, m, patience, deliverable).0, ops));
      && Inv(z) && N(z) == N(k) && z.state[c] == Blocked && z.waitMtx[c] == Some(m)
      && m < |z.owner| && z.owner[m].Some? && z.owner[m] != Some(c)
      && var y := OnTimer(z, now, slice);
         && N(y) == N(k) && y.owner == z.owner && y.depth == z.depth
         && (if GivesUp(patience, now) then y.state[c] == Ready && y.waitMtx[c].None? && !y.granted[c]
             else y.state[c] == Blocked && y.waitMtx[c] == Some(m))
  {
    hide Core, Side, MutexLock, OnTimer, Legal, Run, NothingEnds;
    var (c, r) := (k.current, MutexLock(k, m, patience, deliverable).0);
    MutexLockKeeps(k, m, patience, deliverable);
    MutexWaitBegins(k, m, patience, deliverable);
    WaitGoesOn(r, ops, c);
    WaitersOwner(Run(r, ops), c, m);
    WaiterAtTimer(Run(r, ops), c, now, slice);
  }

  /** Somebody else owns the mutex a task waits for. */
  lemma WaitersOwner(k: K, t: nat, m: nat)
    requires Inv(k) && t < N(k) && k.waitMtx[t] == Some(m)
    ensures m < |k.owner| && k.owner[m].Some? && k.owner[m] != Some(t)
  {
    hide Mid, Priced, Calls, HandedOff, Dry, Reasons, Hart, Locks, Quotas;
    assert Edges(k)[t] == k.owner[m];
  }
}
