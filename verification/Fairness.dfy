/** First come, first served over whole runs: while a task stays eligible at its priority, nobody gets
    in ahead of it, and nobody is given the hart but the more urgent and those ahead already. */
module Fairness {
  import opened Lists
  import Budget
  import opened Kernel
  import opened Inheritance
  import opened Chains
  import opened Invariant
  import opened Steps
  import opened MutexSteps
  import opened Preserved
  import opened PreservedMutex
  import opened PreservedHart
  import opened Runs
  import opened Locking
  import opened Wakeups
  import opened SchedFacts
  import opened Waits
  import opened Theorems
  import opened Conduct
  import opened Order
  import opened Queueing
  import opened Picks

  /** `y` comes before `x` in the bucket of `x`. */
  ghost predicate Ahead(k: K, y: nat, x: nat)
    requires Sized(k) && x < N(k)
  {
    Precedes(k.q[k.prio[x]], y, x)
  }

  lemma OneWay(xs: seq<nat>, x: nat, y: nat)
    requires NoDup(xs)
    ensures !(Precedes(xs, x, y) && Precedes(xs, y, x))
    ensures x in xs && y in xs && x != y ==> Precedes(xs, x, y) || Precedes(xs, y, x)
  {
    if x in xs && y in xs && x != y {
      var i :| 0 <= i < |xs| && xs[i] == x;
      var j :| 0 <= j < |xs| && xs[j] == y;
      assert i < j || j < i;
    }
  }

  lemma InBucket(k: K, x: nat)
    requires Neat(k) && x < N(k)
    ensures Eligible(k, x) ==> x in k.q[k.prio[x]]
    ensures forall y :: y in k.q[k.prio[x]] ==> y < N(k) && k.prio[y] == k.prio[x]
    ensures NoDup(k.q[k.prio[x]])
  {
    hide WaitSorted;
    assert Homes(k)[x] == Home(k, x);
    forall y | y in k.q[k.prio[x]] ensures y < N(k) && k.prio[y] == k.prio[x] {
      var i :| 0 <= i < |k.q[k.prio[x]]| && k.q[k.prio[x]][i] == y;
      assert Homes(k)[y] == Some(k.prio[x]);
    }
  }

  /** Nobody gets in ahead of a task that keeps its place. */
  lemma NobodyOvertakes(k: K, r: K, also: set<nat>, x: nat, y: nat)
    requires Turns(k, r, also) && Neat(k) && Neat(r) && x < N(k) && x !in also
    requires Eligible(k, x) && Eligible(r, x) && r.prio[x] == k.prio[x] && Ahead(r, y, x)
    ensures Ahead(k, y, x)
  {
    hide Neat, Precedes;
    var p, moved := k.prio[x], Changed(k, r) + also;
    InBucket(k, x);
    InBucket(r, x);
    assert ListOrder(k.q[p], r.q[p], moved, r.prio);
    assert x !in moved;
    AheadIs(r, y, x);
    OneWay(r.q[p], x, y);
    OneWay(k.q[p], x, y);
  }

  lemma AheadIs(k: K, y: nat, x: nat)
    requires Sized(k) && x < N(k) && Ahead(k, y, x) && NoDup(k.q[k.prio[x]])
    ensures y in k.q[k.prio[x]] && y != x
  {
  }

  // ---- Who gets the hart -----------------------------------------------------------------------------

  /** Whom the step gives the hart to, by ticket or in the trap; the trap that only consumes a ticket
      chooses nobody. */
  function Given(k: K, op: Op): Option<nat>
    requires Sized(k) && Fits(k, op)
  {
    var r := Apply(k, op).0;
    if k.pending.Some? then None
    else if r.pending.Some? then Some(r.pending.value.target)
    else if op.Traps? && r != k then Some(r.current)
    else None
  }

  /** The choice was made in `left`, where the caller had left the hart: from `k` to there everybody
      kept their turn, and whoever is eligible afterwards was so there. */
  ghost predicate ChosenIn(k: K, left: K, r: K, z: nat) {
    && Turns(k, left, {}) && Sized(r) && N(r) == N(k) && Core(left) && Chosen(left, z) && left.prio == r.prio
    && forall x :: 0 <= x < N(k) && k.state[x] != Running && Eligible(r, x) ==> Eligible(left, x)
  }

  lemma HandsOverGives(k: K, left: K, r: K)
    requires HandsOver(k, left, r) && Turns(k, left, {})
    ensures ChosenIn(k, left, r, r.pending.value.target)
  {
    hide Core, Turns, Chosen, Sized;
  }

  lemma SleepGives(k: K, until: nat) returns (left: K)
    requires Inv(k) && InUserCode(k) && k.current != IDLE && Sleep(k, until).0.pending.Some?
    ensures var r := Sleep(k, until).0; ChosenIn(k, left, r, r.pending.value.target)
  {
    hide Core, Side, Turns, Sleep, Chosen, ChosenIn, HandsOver;
    RunningFacts(k);
    SleepPicks(k, until);
    left := Asleep(k, until);
    LeftTurns(k, left);
    HandsOverGives(k, left, Sleep(k, until).0);
  }

  lemma ExitGives(k: K) returns (left: K)
    requires Inv(k) && InUserCode(k) && MayExit(k)
    ensures var r := Exit(k); r.pending.Some? && ChosenIn(k, left, r, r.pending.value.target)
  {
    hide Core, Side, Turns, Exit, Chosen, ChosenIn;
    ExitPicks(k);
    left := Emptied(k);
    LeftTurns(k, left);
    HandsOverGives(k, left, Exit(k));
  }

  lemma WaitGives(k: K, op: Op) returns (left: K)
    requires Inv(k) && Enabled(k, op) && (op.Downs? || op.LocksMutex?) && k.pending.None? && Apply(k, op).0.pending.Some?
    ensures var r := Apply(k, op).0; ChosenIn(k, left, r, r.pending.value.target)
  {
    hide Core, Side, Turns, SemDown, MutexLock, Chosen, ChosenIn, Reaches, HandsOver, SemQueued, Enlist;
    match op
    case Downs(s, patience, deliverable) =>
      SemDownPicks(k, s, patience, deliverable);
      left := SemQueued(k, s, patience);
      HandsOverGives(k, left, Apply(k, op).0);
    case LocksMutex(m, patience, deliverable) =>
      MutexLockPicks(k, m, patience, deliverable);
      WhoseMutex(k, m, patience, deliverable);
      left := Enlist(k, m, patience);
      HandsOverGives(k, left, Apply(k, op).0);
  }

  lemma WhoseMutex(k: K, m: nat, patience: Patience, deliverable: bool)
    requires Sized(k) && m < |k.owner| && k.pending.None? && MutexLock(k, m, patience, deliverable).0.pending.Some?
    ensures k.owner[m].Some? && k.owner[m] != Some(k.current) && MutexLock(k, m, patience, deliverable).1.Suspended?
  {
    hide SwitchAway, Enlist, ChainContains;
  }

  lemma UnlockGives(k: K, now: nat) returns (left: K)
    requires Inv(k) && InUserCode(k) && k.current != IDLE && now <= Budget.U64_MAX && k.pending.None? && UnlockScheduler(k, now).0.pending.Some?
    ensures var r := UnlockScheduler(k, now).0; ChosenIn(k, left, r, r.pending.value.target)
  {
    hide Core, Side, Turns, UnlockScheduler, ThrottleCurrent, Chosen, GivesWay, ChosenIn, HandsOver, Budget.Throttled;
    if k.lockDepth[k.current] != 1 {
      NestedUnlock(k, now);
    } else if k.budget[k.current].lockOverrun {
      OverrunTurns(k, now);
      left := Exhausted(Released(k), now);
      LeftTurns(k, left);
      HandsOverGives(k, left, UnlockScheduler(k, now).0);
    } else {
      UnlockPicks(k, now);
      left := Released(k);
      ReleasedKeeps(k);
      SameTurns(k, left);
      RunnerGives(k, left, UnlockScheduler(k, now).0);
    }
  }

  /** The running task sent back to its bucket. */
  lemma RunnerGives(k: K, left: K, r: K)
    requires Sized(k) && Sized(left) && Sized(r) && N(left) == N(r) == N(k) && Core(left) && left.pending.None? && r.pending.Some?
    requires Turns(k, left, {}) && k.state[k.current] == Running && Chosen(left, r.pending.value.target) && r.prio == left.prio && r.state == left.state[k.current := Ready]
    ensures ChosenIn(k, left, r, r.pending.value.target)
  {
    hide Core, Turns, Chosen, Sized;
  }

  lemma YieldGives(k: K, now: nat) returns (left: K)
    requires Inv(k) && InUserCode(k) && now <= Budget.U64_MAX && Yield(k, now).0.pending.Some?
    ensures var r := Yield(k, now).0; ChosenIn(k, left, r, r.pending.value.target)
  {
    hide Core, Side, Turns, Yield, Chosen, ChosenIn, WakeSleepers, Eligible;
    RunningFacts(k);
    YieldPicks(k, now);
    YieldsTurns(k, now);
    left := WakeSleepers(k, now);
    ScanTurns(k, now);
    WakeSleepersKeeps(k, now);
    WakeSleepersHart(k, now);
    assert Yield(k, now).1 in {Refused, Acquired, Suspended} by { YieldReplies(k, now); }
    RunnerGives(k, left, Yield(k, now).0);
  }

  lemma TrapGives(k: K, now: nat)
    requires Inv(k) && now <= Budget.U64_MAX && k.pending.None? && Trap(k, now) != k
    ensures var r := Trap(k, now); ChosenIn(k, k, r, r.current)
  {
    hide Mid, Acyclic, Priced, Side, Turns, Trap, Chosen, GivesWay;
    TrapChoice(k, now);
    TrapTicket(k, now);
    SameTurns(k, k);
  }

  /** Every step that gives the hart to somebody gives it to the first of the most urgent eligible
      tasks, and to idle only when there is none. */
  lemma StepGives(k: K, op: Op) returns (left: K)
    requires Inv(k) && Enabled(k, op) && Given(k, op).Some?
    ensures ChosenIn(k, left, Apply(k, op).0, Given(k, op).value)
  {
    hide Core, Side, ChosenIn, Yield, Sleep, Exit, Spawn, SemDown, ConsumeSem, ReleaseSem, MutexLock, ConsumeMtx, MutexUnlock,
      Cancel, SetPriority, SetPolicy, LockScheduler, UnlockScheduler, OnTimer, Trap;
    match op
    case Yields(now, _) => left := YieldGives(k, now);
    case Sleeps(until, _) => left := SleepGives(k, until);
    case Exits => left := ExitGives(k);
    case Downs(_, _, _) => left := WaitGives(k, op);
    case LocksMutex(_, _, _) => left := WaitGives(k, op);
    case UnlocksScheduler(now, _) => left := UnlockGives(k, now);
    case Traps(now) =>
      left := k;
      TrapTicket(k, now);
      TrapGives(k, now);
    case LocksScheduler(now, _) => LockTicket(k, now);
    case _ => QuietTicket(k, op);
  }

  lemma LockTicket(k: K, now: nat)
    requires Sized(k)
    ensures LockScheduler(k, now).0.pending == k.pending
  {
  }

  // ---- Steps and runs -------------------------------------------------------------------------------------

  /** The step leaves `x` eligible at its priority and policy. */
  ghost predicate Stands(k: K, op: Op, x: nat)
    requires Sized(k) && Fits(k, op)
  {
    && Eligible(k, x) && Eligible(Apply(k, op).0, x) && x < N(Apply(k, op).0) && Apply(k, op).0.prio[x] == k.prio[x]
    && !(op.SetsPolicy? && op.t == x)
  }

  lemma InvNeat(k: K)
    requires Inv(k)
    ensures Neat(k)
  {
    hide Core, Side, Neat;
    InvCore(k);
    CoreNeat(k);
  }

  /** Nobody gets in ahead of a task that stands. */
  lemma StepNobodyOvertakes(k: K, op: Op, x: nat, y: nat)
    requires Inv(k) && Enabled(k, op) && Stands(k, op, x) && Ahead(Apply(k, op).0, y, x)
    ensures Ahead(k, y, x)
  {
    hide Core, Side, Turns, Neat, Ahead, Called, Apply;
    var r := Apply(k, op).0;
    StepKeeps(k, op);
    StepTurns(k, op);
    InvNeat(k);
    InvNeat(r);
    NotCalled(k, op, x);
    NobodyOvertakes(k, r, Called(k, op), x, y);
  }

  lemma NotCalled(k: K, op: Op, x: nat)
    requires Sized(k) && Fits(k, op) && Stands(k, op, x)
    ensures x !in Called(k, op)
  {
    hide Apply, Sized;
  }

  /** The hart goes to nobody but the more urgent and those that are ahead already. */
  lemma GivenAhead(k: K, op: Op, x: nat)
    requires Inv(k) && Enabled(k, op) && Stands(k, op, x) && Given(k, op).Some?
    ensures var (r, z) := (Apply(k, op).0, Given(k, op).value);
      z != IDLE && z < N(k) && N(r) == N(k) && (r.prio[z] < r.prio[x] || Ahead(k, z, x))
  {
    hide Core, Side, Turns, Neat, Precedes, Apply;
    var r, z := Apply(k, op).0, Given(k, op).value;
    var left := StepGives(k, op);
    GivenGone(k, op);
    InvNeat(k);
    CoreNeat(left);
    assert Eligible(left, x);
    if left.prio[z] == left.prio[x] {
      InBucket(left, x);
      HeadPrecedes(left.q[left.prio[x]], x);
      NobodyOvertakes(k, left, {}, x, z);
    }
  }

  lemma HeadPrecedes(xs: seq<nat>, x: nat)
    requires xs != [] && x in xs && x != xs[0]
    ensures Precedes(xs, xs[0], x)
  {
    var i :| 0 <= i < |xs| && xs[i] == x;
  }

  /** Whoever is given the hart waits for it no longer. */
  lemma GivenGone(k: K, op: Op)
    requires Inv(k) && Enabled(k, op) && Given(k, op).Some?
    ensures !Eligible(Apply(k, op).0, Given(k, op).value)
  {
    hide Core, Side, Apply, Trap, Turns, Chosen, GivesWay;
    if op.Traps? && Apply(k, op).0.pending.None? {
      ApplyTrapped(k, op);
      TrapChoice(k, op.now);
    }
  }

  lemma ApplyTrapped(k: K, op: Op)
    requires Sized(k) && Fits(k, op) && op.Traps?
    ensures Apply(k, op).0 == Trap(k, op.now)
  {
    hide Trap;
  }

  /** Through the run `x` stays eligible at its priority and policy. */
  ghost predicate StandsThrough(k: K, ops: seq<Op>, x: nat)
    requires Legal(k, ops)
    decreases |ops|
  {
    ops == [] || (Stands(k, ops[0], x) && StandsThrough(Apply(k, ops[0]).0, ops[1..], x))
  }

  lemma {:induction false} RunNobodyOvertakes(k: K, ops: seq<Op>, x: nat, y: nat)
    requires Inv(k) && Legal(k, ops) && Eligible(k, x) && StandsThrough(k, ops, x)
    ensures var r := Run(k, ops); Inv(r) && Eligible(r, x) && x < N(r) && r.prio[x] == k.prio[x] && (Ahead(r, y, x) ==> Ahead(k, y, x))
    decreases |ops|
  {
    hide Core, Side, Apply, Ahead, Eligible;
    assert x < N(k) by { EligibleIn(k, x); }
    if ops != [] {
      var r := Apply(k, ops[0]).0;
      StepKeeps(k, ops[0]);
      RunNobodyOvertakes(r, ops[1..], x, y);
      if Ahead(r, y, x) {
        StepNobodyOvertakes(k, ops[0], x, y);
      }
    }
  }

  lemma EligibleIn(k: K, x: nat)
    requires Sized(k) && Eligible(k, x)
    ensures x < N(k)
  {
  }

  /** First come, first served: a task that is eligible, and stays so at its priority and policy, sees
      the hart given, however long it waits and whatever happens, to nobody but more urgent tasks and
      those that were ahead of it in its bucket from the start. In particular an equal that became
      ready later is never given the hart first. */
  lemma FirstServed(k: K, ops: seq<Op>, op: Op, x: nat)
    requires Inv(k) && Legal(k, ops) && Eligible(k, x) && StandsThrough(k, ops, x)
    requires var r := Run(k, ops); Sized(r) && Enabled(r, op) && Stands(r, op, x) && Given(r, op).Some?
    ensures var r := Run(k, ops);
      var (r', z) := (Apply(r, op).0, Given(r, op).value);
      && z != IDLE && z < N(r) && x < N(r) && x < N(k) && N(r') == N(r)
      && (r'.prio[z] < r'.prio[x] || Ahead(k, z, x))
  {
    hide Core, Side, Apply, Ahead, Stands, Given, Eligible, Legal, Run, StandsThrough;
    EligibleIn(k, x);
    var r := Run(k, ops);
    RunNobodyOvertakes(k, ops, x, Given(r, op).value);
    GivenAhead(r, op, x);
  }
}
