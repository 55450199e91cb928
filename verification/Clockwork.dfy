/** The scheduler, its time slice and the re-arm loop together: which deadlines a quiet timer meets
    in the state the scheduler is in now, and when a slice may end a stint. */
module Clockwork {
  import opened Lists
  import Budget
  import Timer
  import opened Kernel
  import opened Inheritance
  import opened Invariant
  import opened Steps
  import opened MutexSteps
  import opened Preserved
  import opened PreservedMutex
  import opened PreservedHart
  import opened Runs
  import opened Locking
  import opened Wakeups
  import opened SchedFacts
  import opened Waits
  import opened Charging
  import opened Identities
  import opened Deadlines

  // ---- The state -------------------------------------------------------------------------------------

  /** What a claim read: the scheduler, the clock, the stored slice deadline and the Embassy one. */
  datatype Claim = Claim(seen: K, at: nat, slice: nat, embassy: Option<nat>)

  /** `slice` is the stored slice deadline, zero for none. `owed`: some operation that re-arms has
      not come to its claim yet. `repriced`: a priority was set since the latest claim. `since` is
      the reading of the latest dispatch, `steady` whether since then the current task kept its
      policy and no claim came with an older reading; `clock` is the latest reading of all. */
  datatype Board = Board(
    k: K,
    slice: nat,
    timers: Timer.Timers,
    claim: Claim,
    owed: bool,
    repriced: bool,
    since: nat,
    steady: bool,
    clock: nat)

  datatype Act = Does(op: Op) | Claims(c: nat, now: nat, embassy: Option<nat>) | Loops(step: Timer.Step)

  /** The operation re-arms the timer after its critical section. */
  predicate Rearms(k: K, op: Op)
    requires Sized(k) && Fits(k, op)
  {
    var reply := Apply(k, op).1;
    match op
    case SetsPriority(_, _) => false
    case FinishesDown => false
    case FinishesLock => false
    case Downs(_, _, _) => reply.Suspended?
    case LocksMutex(_, _, _) => reply.Suspended?
    case Yields(_, _) => reply.Suspended?
    case Sleeps(_, _) => reply.Suspended?
    case UnlocksMutex(_) => !reply.Refused?
    case LocksScheduler(_, _) => !reply.Refused?
    case UnlocksScheduler(_, _) => !reply.Refused?
    case _ => true
  }

  function ReadingOf(op: Op): Option<nat> {
    match op
    case Yields(now, _) => Some(now)
    case Spawns(_, _, _, now) => Some(now)
    case SetsPolicy(_, _, now) => Some(now)
    case LocksScheduler(now, _) => Some(now)
    case UnlocksScheduler(now, _) => Some(now)
    case TimerFires(now, _) => Some(now)
    case Traps(now) => Some(now)
    case _ => None
  }

  function Later(clock: nat, reading: Option<nat>): nat {
    if reading.Some? && reading.value > clock then reading.value else clock
  }

  /** The stored slice deadline has come. */
  predicate SliceOver(slice: nat, now: nat) {
    slice != 0 && now >= slice
  }

  /** The trap switches. */
  predicate Switches(k: K, op: Op)
    requires Sized(k)
  {
    op.Traps? && Dispatched(k).Some?
  }

  ghost predicate Possible(w: Board, a: Act)
    requires Sized(w.k)
  {
    match a
    case Does(op) => Enabled(w.k, op) && (op.TimerFires? ==> op.slice == SliceOver(w.slice, op.now))
    case Claims(c, now, embassy) => Timer.Enabled(w.timers, Timer.Claims(c, now, embassy))
    case Loops(step) => !step.Claims? && Timer.Enabled(w.timers, step) && Timer.Timely(w.timers, step)
  }

  function Next(w: Board, a: Act, limit: nat, maxDelay: nat): (r: Board)
    requires Sized(w.k) && 1 <= maxDelay
    requires a.Does? ==> Fits(w.k, a.op)
    requires a.Claims? ==> Timer.Enabled(w.timers, Timer.Claims(a.c, a.now, a.embassy))
    requires a.Loops? ==> Timer.Enabled(w.timers, a.step)
    ensures Sized(r.k)
  {
    match a
    case Does(op) =>
      w.(k := Apply(w.k, op).0,
         slice := if Switches(w.k, op) || (op.TimerFires? && SliceOver(w.slice, op.now)) then 0 else w.slice,
         owed := w.owed || Rearms(w.k, op),
         repriced := w.repriced || op.SetsPriority?,
         since := if Switches(w.k, op) then op.now else w.since,
         steady := Switches(w.k, op) || (w.steady && !(op.SetsPolicy? && op.t == w.k.current)),
         clock := Later(w.clock, ReadingOf(op)))
    case Claims(c, now, embassy) =>
      w.(slice := DispatchDeadline(w.k, now, w.slice).1,
         timers := Timer.Next(w.timers, Timer.Claims(c, now, NextDeadline(w.k, now, w.slice, limit, embassy)), maxDelay),
         claim := Claim(w.k, now, w.slice, embassy),
         owed := false,
         repriced := false,
         steady := w.steady && now >= w.since,
         clock := Later(w.clock, Some(now)))
    case Loops(step) => w.(timers := Timer.Next(w.timers, step, maxDelay))
  }

  // ---- Silent operations ------------------------------------------------------------------------------

  /** All that deadlines depend on, apart from priorities and ready lists, is the same. */
  predicate Alike(k: K, r: K) {
    && Sized(k) && Sized(r) && N(r) == N(k) && r.current == k.current && r.state == k.state && r.wakeAt == k.wakeAt
    && r.budget == k.budget && r.lockDepth == k.lockDepth && r.lockStart == k.lockStart && r.policy == k.policy
  }

  predicate SamePrices(k: K, r: K) {
    r.prio == k.prio && |r.q| == |k.q| && |k.q| >= LEVELS && r.q[..LEVELS] == k.q[..LEVELS]
  }

  lemma AlikeChain(k: K, k1: K, r: K)
    requires Alike(k, k1) && Alike(k1, r)
    ensures Alike(k, r)
  {
    hide Sized;
  }

  lemma {:induction false} NobodyWakes(k: K, n: nat, now: nat)
    requires Sized(k) && n <= N(k) && forall x :: 0 <= x < N(k) ==> !Due(k, x, now)
    ensures WakeFirst(k, n, now) == k
  {
    hide Sized;
    if n > 0 {
      NobodyWakes(k, n - 1, now);
      assert !Due(k, n - 1, now);
    }
  }

  lemma {:induction false} NobodyRefills(k: K, n: nat, now: nat)
    requires Sized(k) && n <= N(k) && now <= Budget.U64_MAX && forall x :: 0 <= x < N(k) ==> !Refillable(k, x, now)
    ensures ReplenishFirst(k, n, now) == k
  {
    hide Sized;
    if n > 0 {
      NobodyRefills(k, n - 1, now);
      assert !Refillable(k, n - 1, now);
    }
  }

  lemma ReadyListed(k: K, x: nat)
    requires Core(k) && x < N(k) && k.state[x] == Ready && x != IDLE && k.pending.None?
    ensures PopReady(k).1.Some?
  {
    hide WaitSorted, Ledger, Effective, Acyclic, PopReady;
    PoppedIs(k);
    assert Homes(k)[x] == Some(k.prio[x]);
    assert x in k.q[k.prio[x]];
  }

  lemma IdleAwake(k: K)
    requires Inv(k)
    ensures k.state[IDLE] in {Ready, Running}
    ensures k.state[k.current] == Running ==> k.pending.None?
  {
    hide Core, Rest;
  }

  lemma ScanTicket(k: K, now: nat)
    requires Sized(k) && now <= Budget.U64_MAX
    ensures WakeSleepers(k, now).pending == k.pending
  {
    hide WakeSleepers;
    WakeSleepersHart(k, now);
  }

  /** Whoever wakes can be picked. */
  lemma WokenListed(k: K, now: nat, x: nat)
    requires Inv(k) && now <= Budget.U64_MAX && k.pending.None? && x < N(k) && (Due(k, x, now) || Refillable(k, x, now))
    ensures PopReady(WakeSleepers(k, now)).1.Some?
  {
    hide Core, Side, WakeSleepers, PopReady, Budget.ReplenishIfDue, Budget.ReplenishDue;
    IdleAwake(k);
    WokenExactly(k, now, x);
    WakeSleepersKeeps(k, now);
    ScanTicket(k, now);
    ReadyListed(WakeSleepers(k, now), x);
  }

  /** A yield that finds nobody to run changed nothing: nobody woke. */
  lemma VainYield(k: K, now: nat)
    requires Inv(k) && InUserCode(k) && now <= Budget.U64_MAX && !Yield(k, now).1.Suspended?
    ensures Yield(k, now).0 == k
  {
    hide Core, Side, WakeSleepers, WakeFirst, ReplenishFirst, PopReady, Due, Refillable;
    if k.lockDepth[k.current] == 0 {
      IdleAwake(k);
      forall x | 0 <= x < N(k) ensures !Due(k, x, now) && !Refillable(k, x, now) {
        if Due(k, x, now) || Refillable(k, x, now) {
          WokenListed(k, now, x);
        }
      }
      NobodyWakes(k, N(k), now);
      NobodyRefills(k, N(k), now);
      assert WakeSleepers(k, now) == k by { Scans(k, now); }
      PoppedNone(k);
    }
  }

  lemma Scans(k: K, now: nat)
    requires Sized(k) && now <= Budget.U64_MAX && WakeFirst(k, N(k), now) == k && ReplenishFirst(k, N(k), now) == k
    ensures WakeSleepers(k, now) == k
  {
  }

  lemma PoppedNone(k: K)
    requires Sized(k) && PopReady(k).1.None?
    ensures PopReady(k).0 == k
  {
    hide FirstBucket;
  }

  /** Operations that do not re-arm leave everything as it is that a deadline depends on, but for
      priorities. */
  lemma SilentAlike(k: K, op: Op)
    requires Inv(k) && Enabled(k, op) && !Rearms(k, op)
    ensures Alike(k, Apply(k, op).0) && (!op.SetsPriority? ==> SamePrices(k, Apply(k, op).0))
  {
    hide Core, Side, Yield, SetPriority, SemDown, MutexLock, SwitchAway, ReleaseMutex;
    match op
    case Yields(now, deliverable) =>
      if deliverable {
        VainYield(k, now);
      }
    case Downs(s, patience, deliverable) => DownAlike(k, s, patience, deliverable);
    case LocksMutex(m, patience, deliverable) => LockAlike(k, m, patience, deliverable);
    case SetsPriority(t, p) => PriorityAlike(k, t, p);
    case _ =>
  }

  lemma DownAlike(k: K, s: nat, patience: Patience, deliverable: bool)
    requires Sized(k) && s < |k.count| && !SemDown(k, s, patience, deliverable).1.Suspended?
    ensures var r := SemDown(k, s, patience, deliverable).0; Alike(k, r) && SamePrices(k, r)
  {
    hide SwitchAway, Insert;
  }

  lemma LockAlike(k: K, m: nat, patience: Patience, deliverable: bool)
    requires Sized(k) && m < |k.owner| && !MutexLock(k, m, patience, deliverable).1.Suspended?
    ensures var r := MutexLock(k, m, patience, deliverable).0; Alike(k, r) && SamePrices(k, r)
  {
    hide SwitchAway, Enlist, ChainContains;
  }

  lemma PriorityAlike(k: K, t: nat, p: nat)
    requires Sized(k) && t < N(k) && p < LEVELS
    ensures Alike(k, SetPriority(k, t, p))
  {
    hide Refresh;
  }

  // ---- What a quiet timer meets -------------------------------------------------------------------------

  /** The deadline the latest claim computed. */
  function Heard(w: Board, limit: nat): Option<nat>
    requires Sized(w.claim.seen)
  {
    NextDeadline(w.claim.seen, w.claim.at, w.claim.slice, limit, w.claim.embassy)
  }

  /** Once the latest claim came after everything that re-arms, it is the latest of the loop's
      claims, and the scheduler differs from what it read at most in priorities, and in those only if
      one was set since. */
  ghost predicate BoardInv(w: Board, limit: nat, maxDelay: nat)
    requires 1 <= maxDelay
  {
    && Inv(w.k) && Timer.Consistent(w.timers)
    && (!w.owed ==>
          && Alike(w.claim.seen, w.k) && (!w.repriced ==> SamePrices(w.claim.seen, w.k))
          && w.timers.latest == Timer.CommandFor(w.claim.at, Heard(w, limit), maxDelay))
  }

  lemma StepBoard(w: Board, a: Act, limit: nat, maxDelay: nat)
    requires 1 <= maxDelay && BoardInv(w, limit, maxDelay) && Possible(w, a)
    ensures BoardInv(Next(w, a, limit, maxDelay), limit, maxDelay)
  {
    hide Core, Side, Apply, Rearms, Switches, Timer.Consistent, NextDeadline, Timer.CommandFor;
    match a
    case Does(op) =>
      StepKeeps(w.k, op);
      if !Rearms(w.k, op) {
        SilentAlike(w.k, op);
        if !w.owed {
          AlikeChain(w.claim.seen, w.k, Apply(w.k, op).0);
        }
      }
    case Claims(c, now, embassy) =>
      var e := Timer.Claims(c, now, NextDeadline(w.k, now, w.slice, limit, embassy));
      Timer.StepConsistent(w.timers, e, maxDelay);
    case Loops(step) =>
      Timer.StepConsistent(w.timers, step, maxDelay);
  }

  ghost predicate Legal(w: Board, acts: seq<Act>, limit: nat, maxDelay: nat)
    requires 1 <= maxDelay
    decreases |acts|
  {
    acts == [] || (Sized(w.k) && Possible(w, acts[0]) && Legal(Next(w, acts[0], limit, maxDelay), acts[1..], limit, maxDelay))
  }

  ghost function Result(w: Board, acts: seq<Act>, limit: nat, maxDelay: nat): Board
    requires 1 <= maxDelay && Legal(w, acts, limit, maxDelay)
    decreases |acts|
  {
    if acts == [] then w else Result(Next(w, acts[0], limit, maxDelay), acts[1..], limit, maxDelay)
  }

  lemma {:induction false} RunBoard(w: Board, acts: seq<Act>, limit: nat, maxDelay: nat)
    requires 1 <= maxDelay && BoardInv(w, limit, maxDelay) && Legal(w, acts, limit, maxDelay)
    ensures BoardInv(Result(w, acts, limit, maxDelay), limit, maxDelay)
    decreases |acts|
  {
    hide Core, Side, Next, Timer.Consistent, NextDeadline;
    if acts != [] {
      StepBoard(w, acts[0], limit, maxDelay);
      RunBoard(Next(w, acts[0], limit, maxDelay), acts[1..], limit, maxDelay);
    }
  }

  /** After `init`, before its re-arm. */
  function Start(n: nat, counts: seq<nat>, mutexes: nat, callers: nat): Board
    requires 2 <= n <= SLOT_LIMIT
  {
    var k := Boot(n, counts, mutexes);
    Board(k, 0, Timer.Timers(0, Timer.Disarm, Timer.Disarm, Fill(callers, Timer.Outside)), Claim(k, 0, 0, None), true, false, 0, true, 0)
  }

  /** The timer fires by everything the scheduler waits for now, and at the next tick if the running
      task has to give way now. */
  ghost predicate Met(w: Board, limit: nat)
    requires Sized(w.k)
  {
    var (k, at, hardware) := (w.k, w.claim.at, w.timers.hardware);
    && (forall t :: 0 <= t < N(k) && Awaits(k, t) ==> FiresBy(hardware, at, k.wakeAt[t]))
    && (forall t :: 0 <= t < N(k) && k.state[t] == Throttled && k.budget[t].spec.Some? ==> FiresBy(hardware, at, k.budget[t].replenishesAt))
    && (CurrentExhaustion(k).Some? ==> FiresBy(hardware, at, CurrentExhaustion(k).value))
    && (LockDeadline(k, limit).Some? ==> FiresBy(hardware, at, LockDeadline(k, limit).value))
    && (MustYield(k, false) ==> FiresBy(hardware, at, at))
  }

  /** Nobody is in the re-arm loop or on the way to it. */
  predicate Quiet(w: Board) {
    !w.owed && forall c :: 0 <= c < |w.timers.callers| ==> w.timers.callers[c].Outside?
  }

  lemma {:induction false} SameFirst(q: seq<seq<nat>>, q': seq<seq<nat>>, l: nat)
    requires |q| >= LEVELS && |q'| >= LEVELS && q[..LEVELS] == q'[..LEVELS] && l <= LEVELS
    ensures FirstBucket(q, l) == FirstBucket(q', l)
    decreases LEVELS - l
  {
    if l < LEVELS {
      assert q[l] == q[..LEVELS][l] && q'[l] == q'[..LEVELS][l];
      SameFirst(q, q', l + 1);
    }
  }

  lemma SameYield(k: K, r: K)
    requires Alike(k, r) && SamePrices(k, r)
    ensures MustYield(k, false) == MustYield(r, false)
  {
    hide FirstBucket;
    SameFirst(k.q, r.q, 0);
  }

  /** What the latest claim's state waits for is met in every state alike. */
  lemma HeardMeets(w: Board, limit: nat, maxDelay: nat, t: nat)
    requires 1 <= maxDelay && Alike(w.claim.seen, w.k) && t < N(w.k)
    requires w.timers.hardware == Timer.CommandFor(w.claim.at, Heard(w, limit), maxDelay)
    ensures var (k, at, hardware) := (w.k, w.claim.at, w.timers.hardware);
      && (Awaits(k, t) ==> FiresBy(hardware, at, k.wakeAt[t]))
      && (k.state[t] == Throttled && k.budget[t].spec.Some? ==> FiresBy(hardware, at, k.budget[t].replenishesAt))
      && (CurrentExhaustion(k).Some? ==> FiresBy(hardware, at, CurrentExhaustion(k).value))
      && (LockDeadline(k, limit).Some? ==> FiresBy(hardware, at, LockDeadline(k, limit).value))
      && (MustYield(w.claim.seen, false) ==> FiresBy(hardware, at, at))
  {
    hide MustYield, NextDeadline, Covers, FiresBy;
    var c, next := w.claim, Heard(w, limit);
    EverythingCovered(c.seen, c.at, c.slice, limit, c.embassy, t);
    forall d | Covers(next, d) ensures FiresBy(Timer.CommandFor(c.at, next, maxDelay), c.at, d) {
      CommandFires(c.at, next, maxDelay, d);
    }
  }

  /** A quiet timer meets everything in the state the scheduler is in, unless a priority set since
      the latest claim made the running task have to give way and the timer is not due anyway: the
      one operation that makes it so and does not re-arm. */
  lemma QuietBoard(w: Board, limit: nat, maxDelay: nat)
    requires 1 <= maxDelay && BoardInv(w, limit, maxDelay) && Quiet(w)
    ensures Sized(w.claim.seen) && (!w.repriced ==> Met(w, limit))
    ensures Met(w, limit) <==>
      !(MustYield(w.k, false) && !MustYield(w.claim.seen, false) && w.timers.hardware != Timer.Arm(1))
  {
    hide Core, Side, MustYield, NextDeadline, SamePrices, LockDeadline, CurrentExhaustion;
    assert w.timers.hardware == w.timers.latest;
    forall t | 0 <= t < N(w.k)
      ensures Awaits(w.k, t) ==> FiresBy(w.timers.hardware, w.claim.at, w.k.wakeAt[t])
      ensures w.k.state[t] == Throttled && w.k.budget[t].spec.Some? ==> FiresBy(w.timers.hardware, w.claim.at, w.k.budget[t].replenishesAt)
    {
      HeardMeets(w, limit, maxDelay, t);
    }
    HeardMeets(w, limit, maxDelay, IDLE);
    if !w.repriced {
      SameYield(w.claim.seen, w.k);
    }
  }

  /** In every run from the start. */
  lemma ReachableQuiet(n: nat, counts: seq<nat>, mutexes: nat, callers: nat, acts: seq<Act>, limit: nat, maxDelay: nat)
    requires 2 <= n <= SLOT_LIMIT && 1 <= maxDelay && Legal(Start(n, counts, mutexes, callers), acts, limit, maxDelay)
    requires Quiet(Result(Start(n, counts, mutexes, callers), acts, limit, maxDelay))
    ensures var w := Result(Start(n, counts, mutexes, callers), acts, limit, maxDelay);
      && Sized(w.k) && Sized(w.claim.seen) && (!w.repriced ==> Met(w, limit))
      && (Met(w, limit) <==> !(MustYield(w.k, false) && !MustYield(w.claim.seen, false) && w.timers.hardware != Timer.Arm(1)))
  {
    hide Core, Side, Boot, Legal, Result, Met, MustYield;
    BootKeeps(n, counts, mutexes);
    RunBoard(Start(n, counts, mutexes, callers), acts, limit, maxDelay);
    QuietBoard(Result(Start(n, counts, mutexes, callers), acts, limit, maxDelay), limit, maxDelay);
  }

  // ---- When a slice may end a stint ---------------------------------------------------------------------

  /** The end of the first slice of the stint. */
  function FirstSlice(w: Board): nat
    requires Sized(w.k) && w.k.policy[w.k.current].Preemptive?
  {
    Budget.SatAdd(w.since, w.k.policy[w.k.current].timeSlice)
  }

  /** While the stint is steady, no slice deadline is stored, and none was found over, for an instant
      before a whole slice since the dispatch. */
  ghost predicate SliceSound(w: Board)
    requires Sized(w.k)
  {
    w.steady && w.k.policy[w.k.current].Preemptive? ==>
      && (w.slice != 0 ==> w.slice >= FirstSlice(w))
      && (w.k.slicePending ==> w.clock >= FirstSlice(w))
  }

  lemma StepSlice(w: Board, a: Act, limit: nat, maxDelay: nat)
    requires 1 <= maxDelay && Inv(w.k) && Possible(w, a) && SliceSound(w)
    ensures SliceSound(Next(w, a, limit, maxDelay))
  {
    hide Core, Side, Apply, Rearms, NextDeadline, Dispatched, MustYield;
    if a.Does? {
      StepSliceOp(w, a.op, limit, maxDelay);
    }
  }

  lemma TrapEnds(k: K, now: nat)
    requires Inv(k) && now <= Budget.U64_MAX
    ensures var r := Trap(k, now); if Dispatched(k).Some? then !r.slicePending else r == k
  {
    hide Core, Side, PopReady, Dispatch, TakeReschedule, MustYield;
    if Dispatched(k).None? {
      IdleTrap(k, now);
    } else if k.pending.Some? {
      DispatchIs(k.(pending := None, lastSeq := k.pending.value.sequence, current := k.pending.value.previous), k.pending.value.target, now);
    } else if k.state[k.current] != Running {
      DispatchIs(PopReadyOrIdle(k).0, PopReadyOrIdle(k).1, now);
    } else {
      ShuffleBudget(k);
      DispatchIs(TakeReschedule(k, k.slicePending).0, Dispatched(k).value, now);
    }
  }

  lemma OtherStint(k: K, op: Op)
    requires Inv(k) && Enabled(k, op) && !op.Traps? && !op.SetsPolicy? && !op.Spawns? && !op.Exits?
    ensures var r := Apply(k, op).0;
      && N(r) == N(k) && r.current == k.current && r.policy == k.policy
      && (r.slicePending ==> k.slicePending || (op.TimerFires? && op.slice))
  {
    hide Core, Side, Apply, Dispatched;
    BudgetStep(k, op, IDLE);
    if op.TimerFires? {
      ApplyTimer(k, op);
      TimerIds(k, op.now, op.slice);
    } else if op.SetsPriority? {
      PriorityApplied(k, op);
      PriorityIds(k, op.t, op.p);
    } else {
      OtherIds(k, op);
    }
  }

  /** An operation that neither switches nor changes the policy of the current task leaves both, and
      finds no slice over that is not. */
  lemma StintGoesOn(k: K, op: Op)
    requires Inv(k) && Enabled(k, op) && !Switches(k, op) && !(op.SetsPolicy? && op.t == k.current)
    ensures var r := Apply(k, op).0;
      && N(r) == N(k) && r.current == k.current && (r.policy[r.current] == k.policy[k.current] || r.policy[r.current] == Budget.Cooperative)
      && (r.slicePending ==> k.slicePending || (op.TimerFires? && op.slice))
  {
    hide Core, Side, Apply, Dispatched;
    match op
    case Traps(now) => ApplyTrap(k, op); TrapEnds(k, now);
    case SetsPolicy(t, policy, now) => ResetClock(k, op, t); PolicyApplied(k, op); PolicyIds(k, t, policy, now);
    case Spawns(_, _, _, _) => SpawnStint(k, op);
    case Exits => ExitStint(k);
    case _ => OtherStint(k, op);
  }

  lemma SpawnStint(k: K, op: Op)
    requires Sized(k) && Fits(k, op) && op.Spawns? && op.slot != k.current
    ensures var r := Apply(k, op).0;
      N(r) == N(k) && r.current == k.current && r.policy[r.current] == k.policy[k.current] && r.slicePending == k.slicePending
  {
  }

  lemma ExitStint(k: K)
    requires Sized(k)
    ensures var r := Apply(k, Exits).0;
      N(r) == N(k) && r.current == k.current && r.policy[r.current] == Budget.Cooperative && r.slicePending == k.slicePending
  {
    hide FirstBucket;
  }

  lemma StepSliceOp(w: Board, op: Op, limit: nat, maxDelay: nat)
    requires 1 <= maxDelay && Inv(w.k) && Possible(w, Does(op)) && SliceSound(w)
    ensures SliceSound(Next(w, Does(op), limit, maxDelay))
  {
    hide Core, Side, Apply, Rearms, Dispatched;
    if Switches(w.k, op) {
      ApplyTrap(w.k, op);
      TrapEnds(w.k, op.now);
    } else if !(op.SetsPolicy? && op.t == w.k.current) {
      StintGoesOn(w.k, op);
    }
  }

  lemma {:induction false} RunSlice(w: Board, acts: seq<Act>, limit: nat, maxDelay: nat)
    requires 1 <= maxDelay && Inv(w.k) && SliceSound(w) && Legal(w, acts, limit, maxDelay)
    ensures var r := Result(w, acts, limit, maxDelay); Inv(r.k) && SliceSound(r)
    decreases |acts|
  {
    hide Core, Side, Next, SliceSound;
    if acts != [] {
      StepSlice(w, acts[0], limit, maxDelay);
      NextInv(w, acts[0], limit, maxDelay);
      RunSlice(Next(w, acts[0], limit, maxDelay), acts[1..], limit, maxDelay);
    }
  }

  lemma NextInv(w: Board, a: Act, limit: nat, maxDelay: nat)
    requires 1 <= maxDelay && Inv(w.k) && Possible(w, a)
    ensures Inv(Next(w, a, limit, maxDelay).k)
  {
    hide Core, Side, Apply, Rearms, Switches, NextDeadline, DispatchDeadline;
    if a.Does? {
      StepKeeps(w.k, a.op);
    }
  }

  /** A preemption by slice, that is of a task no more urgent one takes the hart from, comes no
      earlier than one slice after the dispatch, unless the policy of the task was changed since or a
      claim came with a reading from before the dispatch. */
  lemma SliceNotEarly(n: nat, counts: seq<nat>, mutexes: nat, callers: nat, acts: seq<Act>, limit: nat, maxDelay: nat)
    requires 2 <= n <= SLOT_LIMIT && 1 <= maxDelay && Legal(Start(n, counts, mutexes, callers), acts, limit, maxDelay)
    ensures var w := Result(Start(n, counts, mutexes, callers), acts, limit, maxDelay);
      && Sized(w.k)
      && (w.k.current != IDLE && MustYield(w.k, w.k.slicePending) && !MustYield(w.k, false) && w.steady ==> w.clock >= FirstSlice(w))
  {
    hide Core, Side, Boot, Legal, Result, FirstBucket;
    BootKeeps(n, counts, mutexes);
    BootSlice(n, counts, mutexes, callers);
    RunSlice(Start(n, counts, mutexes, callers), acts, limit, maxDelay);
  }

  lemma BootSlice(n: nat, counts: seq<nat>, mutexes: nat, callers: nat)
    requires 2 <= n <= SLOT_LIMIT
    ensures SliceSound(Start(n, counts, mutexes, callers))
  {
  }

  // ---- The runs in which they fail --------------------------------------------------------------------

  /** The first task runs at level `p0`, with a slice of `ts`; slot 2 is free, or ready at level `p2`. */
  predicate Pair(k: K, p0: nat, ts: nat, p2: Option<nat>, pend: bool) {
    && Sized(k) && k.state == [Running, Ready, if p2.Some? then Ready else Free] && k.current == 0 && k.pending.None?
    && k.count == [] && k.owner == [] && k.policy[0] == Budget.Preemptive(ts) && k.slicePending == pend && k.lockDepth == [0, 0, 0]
    && k.call == [User, User, User] && k.waitSem == [None, None, None] && k.waitMtx == [None, None, None]
    && k.budget == [Budget.Unbudgeted(), Budget.Unbudgeted(), Budget.Unbudgeted()]
    && k.base[0] == p0 && k.prio[0] == p0 && NoGifts(k.inh[0]) && NoGifts(k.inh[2])
    && (p2.Some? ==> p2.value < LEVELS && k.base[2] == p2.value && k.prio[2] == p2.value)
    && |k.q| == LEVELS && forall l :: 0 <= l < LEVELS ==> k.q[l] == if p2 == Some(l) then [2] else []
  }

  predicate NoGifts(inh: seq<nat>) {
    |inh| == LEVELS && forall l :: 0 <= l < LEVELS ==> inh[l] == 0
  }

  lemma {:induction false} OnlyBucket(q: seq<seq<nat>>, p: nat, l: nat)
    requires |q| >= LEVELS && l <= p < LEVELS && q[p] != [] && forall i :: 0 <= i < p ==> q[i] == []
    ensures FirstBucket(q, l) == p
    decreases LEVELS - l
  {
    if l < p {
      OnlyBucket(q, p, l + 1);
    }
  }

  lemma PairYields(k: K, p0: nat, ts: nat, p2: nat, pend: bool, allowEqual: bool)
    requires Pair(k, p0, ts, Some(p2), pend)
    ensures MustYield(k, allowEqual) <==> p2 < p0 || (allowEqual && p2 == p0)
  {
    hide FirstBucket;
    OnlyBucket(k.q, p2, 0);
  }

  lemma InstallPair(ts: nat)
    ensures var (k, op) := (Boot(3, [], 0), SetsPolicy(0, Budget.Preemptive(ts), 0));
      Enabled(k, op) && Pair(Apply(k, op).0, 31, ts, None, false)
  {
    hide InReady, Without;
  }

  lemma RepolicyPair(k: K, p0: nat, ts: nat, p2: Option<nat>, pend: bool, ts': nat, now: nat)
    requires Pair(k, p0, ts, p2, pend) && now <= Budget.U64_MAX
    ensures var op := SetsPolicy(0, Budget.Preemptive(ts'), now); Enabled(k, op) && Pair(Apply(k, op).0, p0, ts', p2, pend)
  {
    hide InReady, Without;
  }

  lemma SpawnPair(k: K, p0: nat, ts: nat, pend: bool, p: nat)
    requires Pair(k, p0, ts, None, pend) && p < LEVELS
    ensures var op := Spawns(2, p, Budget.Cooperative, 0); Enabled(k, op) && Pair(Apply(k, op).0, p0, ts, Some(p), pend)
  {
  }

  lemma FirePair(k: K, p0: nat, ts: nat, p2: Option<nat>, pend: bool, now: nat)
    requires Pair(k, p0, ts, p2, pend) && now <= Budget.U64_MAX
    ensures var op := TimerFires(now, true); Enabled(k, op) && Pair(Apply(k, op).0, p0, ts, p2, true)
  {
    hide WakeSleepers, ChargeCurrent;
    QuietPair(k, p0, ts, p2, pend, now);
  }

  lemma QuietPair(k: K, p0: nat, ts: nat, p2: Option<nat>, pend: bool, now: nat)
    requires Pair(k, p0, ts, p2, pend) && now <= Budget.U64_MAX
    ensures WakeSleepers(k, now) == k && ChargeCurrent(k, now) == k
  {
    hide WakeSleepers, Budget.OnTimer, WakeFirst, ReplenishFirst;
    NobodyWakes(k, 3, now);
    NobodyRefills(k, 3, now);
    Scans(k, now);
    Unbudgeted(now);
  }

  lemma Unbudgeted(now: nat)
    ensures Budget.OnTimer(Budget.Unbudgeted(), now, false) == (Budget.Unbudgeted(), Budget.NotBudgeted)
  {
  }

  /** A task that waits for nothing gets another base priority. */
  lemma PricedPlain(k: K, t: nat, p: nat)
    requires Sized(k) && t < N(k) && p < LEVELS && k.prio[t] != p && k.waitMtx[t].None? && NoGifts(k.inh[t])
    ensures SetPriority(k, t, p) == SetEffective(k.(base := k.base[t := p]), t, p)
  {
    hide Effective, SetEffective;
    NoDonationsEffective(p, k.inh[t]);
    var k0 := k.(base := k.base[t := p]);
    assert Effective(k0.base[t], k0.inh[t]) == p;
  }

  /** The running task is in no list. */
  lemma OwnPricePair(k: K, p0: nat, ts: nat, pend: bool, p: nat)
    requires Pair(k, p0, ts, None, pend) && p < LEVELS && p != p0
    ensures var op := SetsPriority(0, p); Enabled(k, op) && Pair(Apply(k, op).0, p, ts, None, pend)
  {
    hide InReady, SetPriority;
    PricedPlain(k, 0, p);
  }

  lemma PeerPricePair(k: K, p0: nat, ts: nat, p2: nat, pend: bool, p: nat)
    requires Pair(k, p0, ts, Some(p2), pend) && p < LEVELS && p != p2
    ensures var op := SetsPriority(2, p); Enabled(k, op) && Pair(Apply(k, op).0, p0, ts, Some(p), pend)
  {
    hide InReady, SetPriority;
    PricedPlain(k, 2, p);
    assert InReady(k.(base := k.base[2 := p]), 2) by { ListedReady(k.(base := k.base[2 := p]), p2); }
    assert Without([2], 2) == [];
  }

  lemma ListedReady(k: K, l: nat)
    requires |k.q| >= LEVELS > l && k.q[l] == [2]
    ensures InReady(k, 2)
  {
    assert 2 in k.q[l];
  }

  lemma DeadlinesPair(k: K, p0: nat, ts: nat, p2: nat, pend: bool, now: nat, limit: nat)
    requires Pair(k, p0, ts, Some(p2), pend) && p0 <= p2
    ensures p0 < p2 ==> NextDeadline(k, now, 0, limit, None) == None && DispatchDeadline(k, now, 0).1 == 0
    ensures p0 == p2 ==> DispatchDeadline(k, now, 0).1 == Budget.SatAdd(now, ts)
  {
    hide MustYield, NextDeadline, WakeDeadline, RefillDeadline;
    PairYields(k, p0, ts, p2, pend, false);
    NothingArmed(k, now, 0, limit, None);
  }

  ghost predicate ResultsIn(w: Board, acts: seq<Act>, limit: nat, maxDelay: nat, r: Board)
    requires 1 <= maxDelay
  {
    Legal(w, acts, limit, maxDelay) && Result(w, acts, limit, maxDelay) == r
  }

  lemma ResultsBy(w: Board, acts: seq<Act>, limit: nat, maxDelay: nat, r: Board)
    requires 1 <= maxDelay && Sized(w.k) && acts != [] && Possible(w, acts[0])
    requires var w1 := Next(w, acts[0], limit, maxDelay);
      if acts[1..] == [] then r == w1 else ResultsIn(w1, acts[1..], limit, maxDelay, r)
    ensures ResultsIn(w, acts, limit, maxDelay, r)
  {
    hide Next, Sized;
    var w1 := Next(w, acts[0], limit, maxDelay);
    assert acts[1..] == [] ==> Legal(w1, [], limit, maxDelay) && Result(w1, [], limit, maxDelay) == w1;
  }

  /** A caller claims, programs and checks undisturbed. */
  lemma RoundResults(w: Board, rest: seq<Act>, now: nat, limit: nat, maxDelay: nat, r: Board)
    requires 1 <= maxDelay && Sized(w.k) && w.timers == Timer.Timers(0, Timer.Disarm, Timer.Disarm, [Timer.Outside]) && now >= w.since
    requires var command := Timer.CommandFor(now, NextDeadline(w.k, now, w.slice, limit, None), maxDelay);
      ResultsIn(w.(slice := DispatchDeadline(w.k, now, w.slice).1, timers := Timer.Timers(1, command, command, [Timer.Outside]),
                   claim := Claim(w.k, now, w.slice, None), owed := false, repriced := false, clock := Later(w.clock, Some(now))),
                rest, limit, maxDelay, r) && rest != []
    ensures ResultsIn(w, [Claims(0, now, None), Loops(Timer.Programs(0)), Loops(Timer.Checks(0))] + rest, limit, maxDelay, r)
  {
    hide Sized, NextDeadline, DispatchDeadline, Timer.CommandFor;
    var acts := [Claims(0, now, None), Loops(Timer.Programs(0)), Loops(Timer.Checks(0))] + rest;
    assert acts[1..] == [acts[1], acts[2]] + rest && acts[1..][1..] == [acts[2]] + rest && acts[1..][1..][1..] == rest;
    var w1 := Next(w, acts[0], limit, maxDelay);
    var w2 := Next(w1, acts[1], limit, maxDelay);
    var w3 := Next(w2, acts[2], limit, maxDelay);
    assert w3.timers.callers == [Timer.Outside];
    ResultsBy(w2, acts[1..][1..], limit, maxDelay, r);
    ResultsBy(w1, acts[1..], limit, maxDelay, r);
    ResultsBy(w, acts, limit, maxDelay, r);
  }

  const CLAIM: seq<Act> := [Claims(0, 0, None), Loops(Timer.Programs(0)), Loops(Timer.Checks(0))]

  /** Nothing is armed for a less urgent peer; then that peer is made the more urgent one. */
  const MISSED: seq<Act> :=
    [Does(SetsPolicy(0, Budget.Preemptive(5), 0)), Does(SetsPriority(0, 10)), Does(Spawns(2, 20, Budget.Cooperative, 0))]
    + (CLAIM + [Does(SetsPriority(2, 5))])

  /** A call that is neither timer nor trap. */
  lemma DoesIs(w: Board, op: Op, limit: nat, maxDelay: nat)
    requires 1 <= maxDelay && Sized(w.k) && Enabled(w.k, op) && !op.Traps? && !op.TimerFires?
    ensures Possible(w, Does(op))
    ensures Next(w, Does(op), limit, maxDelay) ==
      w.(k := Apply(w.k, op).0, owed := w.owed || Rearms(w.k, op), repriced := w.repriced || op.SetsPriority?,
         steady := w.steady && !(op.SetsPolicy? && op.t == w.k.current), clock := Later(w.clock, ReadingOf(op)))
    ensures op.SetsPriority? ==> !Rearms(w.k, op)
  {
    hide Apply, Sized;
  }

  lemma PairFacts(k: K, p0: nat, ts: nat, p2: Option<nat>, pend: bool)
    requires Pair(k, p0, ts, p2, pend)
    ensures Sized(k) && k.current == 0 && k.policy[0] == Budget.Preemptive(ts) && k.slicePending == pend
  {
  }

  lemma MissedBegins(limit: nat, maxDelay: nat) returns (w1: Board, w2: Board, w3: Board)
    requires 1 <= maxDelay
    ensures var w0 := Start(3, [], 0, 1);
      && Sized(w1.k) && Sized(w2.k) && Possible(w0, MISSED[0]) && w1 == Next(w0, MISSED[0], limit, maxDelay)
      && Possible(w1, MISSED[1]) && w2 == Next(w1, MISSED[1], limit, maxDelay)
      && Possible(w2, MISSED[2]) && w3 == Next(w2, MISSED[2], limit, maxDelay)
      && Pair(w3.k, 10, 5, Some(20), false) && w3.slice == 0 && w3.since == 0 && w3.clock == 0 && w3.timers == w0.timers
  {
    hide Apply, Pair, Boot, Rearms, Next, Sized;
    var w0 := Start(3, [], 0, 1);
    InstallPair(5);
    DoesIs(w0, MISSED[0].op, limit, maxDelay);
    w1 := Next(w0, MISSED[0], limit, maxDelay);
    PairFacts(w1.k, 31, 5, None, false);
    OwnPricePair(w1.k, 31, 5, false, 10);
    DoesIs(w1, MISSED[1].op, limit, maxDelay);
    w2 := Next(w1, MISSED[1], limit, maxDelay);
    PairFacts(w2.k, 10, 5, None, false);
    SpawnPair(w2.k, 10, 5, false, 20);
    DoesIs(w2, MISSED[2].op, limit, maxDelay);
    w3 := Next(w2, MISSED[2], limit, maxDelay);
  }

  lemma MissedEnds(w3: Board, limit: nat, maxDelay: nat) returns (w: Board)
    requires 1 <= maxDelay && Pair(w3.k, 10, 5, Some(20), false) && w3.slice == 0 && w3.since == 0 && w3.clock == 0
    requires w3.timers == Timer.Timers(0, Timer.Disarm, Timer.Disarm, [Timer.Outside])
    ensures ResultsIn(w3, CLAIM + [Does(SetsPriority(2, 5))], limit, maxDelay, w)
    ensures Quiet(w) && Pair(w.k, 10, 5, Some(5), false) && w.timers.hardware == Timer.Disarm
  {
    hide Apply, Pair, Rearms, Next, Sized, NextDeadline, DispatchDeadline, ResultsIn;
    PairFacts(w3.k, 10, 5, Some(20), false);
    DeadlinesPair(w3.k, 10, 5, 20, false, 0, limit);
    var w4 := w3.(timers := Timer.Timers(1, Timer.Disarm, Timer.Disarm, [Timer.Outside]), claim := Claim(w3.k, 0, 0, None), owed := false, repriced := false);
    PeerPricePair(w3.k, 10, 5, 20, false, 5);
    DoesIs(w4, SetsPriority(2, 5), limit, maxDelay);
    w := Next(w4, Does(SetsPriority(2, 5)), limit, maxDelay);
    ResultsBy(w4, [Does(SetsPriority(2, 5))], limit, maxDelay, w);
    RoundResults(w3, [Does(SetsPriority(2, 5))], 0, limit, maxDelay, w);
  }

  /** A priority call leaves the timer stale: in this run it is disarmed and quiet while the running
      task has to give way. */
  lemma PriorityMissed(limit: nat, maxDelay: nat) returns (w: Board)
    requires 1 <= maxDelay
    ensures ResultsIn(Start(3, [], 0, 1), MISSED, limit, maxDelay, w)
    ensures Quiet(w) && Sized(w.k) && MustYield(w.k, false) && w.timers.hardware == Timer.Disarm && !Met(w, limit)
  {
    hide Pair, Boot, MustYield, Next, Sized, ResultsIn;
    var w1, w2, w3 := MissedBegins(limit, maxDelay);
    w := MissedEnds(w3, limit, maxDelay);
    PairFacts(w.k, 10, 5, Some(5), false);
    PairYields(w.k, 10, 5, 5, false, false);
    assert MISSED[1..][1..] == MISSED[2..] && MISSED[2..][1..] == CLAIM + [Does(SetsPriority(2, 5))];
    ResultsBy(w2, MISSED[2..], limit, maxDelay, w);
    ResultsBy(w1, MISSED[1..], limit, maxDelay, w);
    ResultsBy(Start(3, [], 0, 1), MISSED, limit, maxDelay, w);
  }

  /** A slice of one runs out, and the task gets a slice of a hundred. */
  const EARLY: seq<Act> :=
    [Does(SetsPolicy(0, Budget.Preemptive(1), 0)), Does(Spawns(2, 31, Budget.Cooperative, 0))]
    + (CLAIM + [Does(TimerFires(1, true)), Does(SetsPolicy(0, Budget.Preemptive(100), 1))])

  lemma EarlyBegins(limit: nat, maxDelay: nat) returns (w1: Board, w2: Board)
    requires 1 <= maxDelay
    ensures var w0 := Start(3, [], 0, 1);
      && Sized(w1.k) && Possible(w0, EARLY[0]) && w1 == Next(w0, EARLY[0], limit, maxDelay)
      && Possible(w1, EARLY[1]) && w2 == Next(w1, EARLY[1], limit, maxDelay)
      && Pair(w2.k, 31, 1, Some(31), false) && w2.slice == 0 && w2.since == 0 && w2.clock == 0 && w2.timers == w0.timers
  {
    hide Apply, Pair, Boot, Rearms, Next, Sized;
    var w0 := Start(3, [], 0, 1);
    InstallPair(1);
    DoesIs(w0, EARLY[0].op, limit, maxDelay);
    w1 := Next(w0, EARLY[0], limit, maxDelay);
    PairFacts(w1.k, 31, 1, None, false);
    SpawnPair(w1.k, 31, 1, false, 31);
    DoesIs(w1, EARLY[1].op, limit, maxDelay);
    w2 := Next(w1, EARLY[1], limit, maxDelay);
  }

  lemma EarlyEnds(w3: Board, limit: nat, maxDelay: nat) returns (w: Board)
    requires 1 <= maxDelay && Pair(w3.k, 31, 1, Some(31), false) && w3.slice == 1 && w3.clock == 0
    ensures ResultsIn(w3, [Does(TimerFires(1, true)), Does(SetsPolicy(0, Budget.Preemptive(100), 1))], limit, maxDelay, w)
    ensures Pair(w.k, 31, 100, Some(31), true) && !w.steady && w.clock == 1 && w.since == w3.since
  {
    hide Apply, Pair, Rearms, Sized, Timer.Next, NextDeadline, DispatchDeadline, ResultsIn;
    var last := [Does(TimerFires(1, true)), Does(SetsPolicy(0, Budget.Preemptive(100), 1))];
    PairFacts(w3.k, 31, 1, Some(31), false);
    FirePair(w3.k, 31, 1, Some(31), false, 1);
    var w4 := Next(w3, last[0], limit, maxDelay);
    PairFacts(w4.k, 31, 1, Some(31), true);
    RepolicyPair(w4.k, 31, 1, Some(31), true, 100, 1);
    DoesIs(w4, last[1].op, limit, maxDelay);
    w := Next(w4, last[1], limit, maxDelay);
    ResultsBy(w4, last[1..], limit, maxDelay, w);
    ResultsBy(w3, last, limit, maxDelay, w);
  }

  /** A policy change does not start the slice anew: in this run the task has to give way to an equal
      at once, one tick after its dispatch, with a slice of a hundred. */
  lemma SliceEarly(limit: nat, maxDelay: nat) returns (w: Board)
    requires 1 <= maxDelay
    ensures ResultsIn(Start(3, [], 0, 1), EARLY, limit, maxDelay, w)
    ensures Sized(w.k) && MustYield(w.k, w.k.slicePending) && !MustYield(w.k, false) && !w.steady
    ensures w.k.policy[w.k.current] == Budget.Preemptive(100) && w.since == 0 && w.clock == 1
  {
    hide Pair, Boot, MustYield, Next, Sized, NextDeadline, DispatchDeadline, ResultsIn, Timer.CommandFor;
    var w1, w2 := EarlyBegins(limit, maxDelay);
    PairFacts(w2.k, 31, 1, Some(31), false);
    DeadlinesPair(w2.k, 31, 1, 31, false, 0, limit);
    var command := Timer.CommandFor(0, NextDeadline(w2.k, 0, 0, limit, None), maxDelay);
    var w3 := w2.(slice := 1, timers := Timer.Timers(1, command, command, [Timer.Outside]), claim := Claim(w2.k, 0, 0, None), owed := false, repriced := false);
    w := EarlyEnds(w3, limit, maxDelay);
    PairFacts(w.k, 31, 100, Some(31), true);
    PairYields(w.k, 31, 100, 31, true, true);
    PairYields(w.k, 31, 100, 31, true, false);
    var last := [Does(TimerFires(1, true)), Does(SetsPolicy(0, Budget.Preemptive(100), 1))];
    RoundResults(w2, last, 0, limit, maxDelay, w);
    assert EARLY[1..][1..] == CLAIM + last;
    ResultsBy(w1, EARLY[1..], limit, maxDelay, w);
    ResultsBy(Start(3, [], 0, 1), EARLY, limit, maxDelay, w);
  }
}
