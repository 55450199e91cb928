/** Periodic CPU quotas: `BudgetSpec` and `BudgetState` with their saturating 64-bit clock. */
module Budget {
  import opened Lists
  import opened Arith

  const U64_MAX: nat := 0xFFFF_FFFF_FFFF_FFFF
  const U32_MAX: nat := 0xFFFF_FFFF

  datatype Spec = Spec(capacity: nat, period: nat)

  predicate ValidSpec(s: Spec) {
    1 <= s.capacity <= s.period <= U32_MAX
  }

  datatype Policy = Cooperative | Budgeted(spec: Spec) | Preemptive(timeSlice: nat)

  predicate ValidPolicy(p: Policy) {
    p.Budgeted? ==> ValidSpec(p.spec)
  }

  datatype Expiry = NotBudgeted | StillAvailable | ThrottleNow | DeferredBySchedulerLock

  /** A `BudgetState` is a copyable value in the task control block. */
  datatype State = State(
    spec: Option<Spec>,
    remaining: nat,
    replenishesAt: nat,
    runningSince: Option<nat>,
    lockOverrun: bool)

  function SatAdd(a: nat, b: nat): nat { if a + b <= U64_MAX then a + b else U64_MAX }
  function SatMul(a: nat, b: nat): nat { if a * b <= U64_MAX then a * b else U64_MAX }
  function SatSub(a: nat, b: nat): nat { if a >= b then a - b else 0 }
  function Min(a: nat, b: nat): nat { if a <= b then a else b }

  function Unbudgeted(): State { State(None, 0, 0, None, false) }

  function ForPolicy(p: Policy, now: nat): State {
    match p
    case Budgeted(spec) => State(Some(spec), spec.capacity, SatAdd(now, spec.period), None, false)
    case _ => Unbudgeted()
  }

  function ChargeUntil(b: State, now: nat): State {
    match b.runningSince
    case None => b
    case Some(started) =>
      var elapsed := Min(SatSub(now, started), U32_MAX);
      b.(remaining := SatSub(b.remaining, elapsed), runningSince := Some(now))
  }

  predicate ReplenishDue(b: State, now: nat) {
    b.spec.Some? && !b.lockOverrun && now >= b.replenishesAt
  }

  function ElapsedPeriods(b: State, now: nat): nat
    requires ReplenishDue(b, now) && b.spec.value.period > 0
  {
    (now - b.replenishesAt) / b.spec.value.period + 1
  }

  function ReplenishIfDue(b: State, now: nat): State
    requires b.spec.Some? ==> b.spec.value.period > 0
  {
    if ReplenishDue(b, now) then
      b.(replenishesAt := SatAdd(b.replenishesAt, SatMul(ElapsedPeriods(b, now), b.spec.value.period)),
         remaining := b.spec.value.capacity)
    else b
  }

  function OnDispatch(b: State, now: nat): State
    requires b.spec.Some? ==> b.spec.value.period > 0
  {
    var b1 := ReplenishIfDue(b, now);
    if b1.spec.Some? then b1.(runningSince := Some(now)) else b1
  }

  function OnSwitchOut(b: State, now: nat): State {
    ChargeUntil(b, now).(runningSince := None)
  }

  function OnTimer(b: State, now: nat, locked: bool): (State, Expiry) {
    if b.spec.None? then (b, NotBudgeted)
    else
      var b1 := ChargeUntil(b, now);
      if b1.remaining != 0 then (b1, StillAvailable)
      else
        var b2 := b1.(runningSince := None);
        if locked then (b2.(lockOverrun := true), DeferredBySchedulerLock) else (b2, ThrottleNow)
  }

  /** `exhaustion_deadline`: when the timer has to look at a running budget. A budget with
      nothing remaining has no deadline, even while its clock runs. */
  function ExhaustionDeadline(b: State): Option<nat> {
    if b.runningSince.Some? && b.remaining != 0 then Some(SatAdd(b.runningSince.value, b.remaining)) else None
  }

  /** What holds of every budget between operations. */
  predicate Valid(b: State) {
    && (b.spec.Some? ==> ValidSpec(b.spec.value) && b.remaining <= b.spec.value.capacity && 1 <= b.replenishesAt <= U64_MAX)
    && (b.spec.None? ==> b == Unbudgeted())
    && (b.lockOverrun ==> b.remaining == 0)
  }

  // ---- The replenishment boundary -------------------------------------------------------

  /** The first instant `r + j * period`, `j >= 0`, strictly after `now`. */
  function Boundary(r: nat, period: nat, now: nat): nat
    requires period > 0
  {
    if now < r then r else r + ((now - r) / period + 1) * period
  }

  lemma BoundaryIsFirst(r: nat, period: nat, now: nat, j: nat)
    requires period > 0
    ensures Boundary(r, period, now) > now
    ensures r + j * period > now ==> Boundary(r, period, now) <= r + j * period
    ensures r <= now ==> r + period <= Boundary(r, period, now) <= now + period
  {
    if now >= r {
      FirstMultiple(now - r, period, j);
    }
  }

  /** Stepping one period does not change the boundary aimed at. */
  lemma BoundaryStep(r: nat, period: nat, now: nat)
    requires period > 0 && r <= now
    ensures Boundary(r + period, period, now) == Boundary(r, period, now)
  {
    if now >= r + period {
      DivDown(now - r, period);
      assert now - (r + period) == (now - r) - period;
    } else {
      DivSmall(now - r, period);
    }
  }

  /** The source's `+ 1` on elapsed periods stays within 64 bits, and its saturating
      closed form is the first boundary of the original phase after `now`, capped. */
  lemma ReplenishClosedForm(b: State, now: nat)
    requires Valid(b) && ReplenishDue(b, now) && now <= U64_MAX
    ensures ElapsedPeriods(b, now) <= U64_MAX
    ensures ReplenishIfDue(b, now).replenishesAt == Min(U64_MAX, Boundary(b.replenishesAt, b.spec.value.period, now))
    ensures ReplenishIfDue(b, now).remaining == b.spec.value.capacity
  {
    SaturatedStep(b.replenishesAt, b.spec.value.period, now);
  }

  /** The arithmetic of the closed form. */
  lemma SaturatedStep(r: nat, p: nat, now: nat)
    requires p >= 1 && 1 <= r <= now <= U64_MAX
    ensures var e := (now - r) / p + 1;
      e <= U64_MAX && SatAdd(r, SatMul(e, p)) == Min(U64_MAX, r + e * p)
  {
    DivAtMost(now - r, p);
  }

  /** `throttle_after_lock_overrun`, with its period-by-period loop. */
  method ThrottleAfterLockOverrun(b: State, now: nat) returns (b': State, eligible: Option<nat>)
    requires Valid(b) && now <= U64_MAX
    ensures b.lockOverrun ==> b' == Throttled(b, now) && eligible == Some(b'.replenishesAt)
    ensures !b.lockOverrun ==> b' == b && eligible == None
  {
    if !b.lockOverrun {
      return b, None;
    }
    var period := b.spec.value.period;
    var at := b.replenishesAt;
    ghost var virtual: nat := at;
    while at <= now
      invariant at == Min(U64_MAX, virtual) && virtual >= 1
      invariant Boundary(virtual, period, now) == Boundary(b.replenishesAt, period, now)
      decreases U64_MAX - at
    {
      BoundaryIsFirst(virtual, period, now, 0);
      var next := SatAdd(at, period);
      if next == at {
        at := U64_MAX;
        break;
      }
      BoundaryStep(virtual, period, now);
      virtual := virtual + period;
      at := next;
    }
    b' := b.(lockOverrun := false, remaining := 0, runningSince := None, replenishesAt := at);
    eligible := Some(at);
  }

  /** The state a lock-deferred exhaustion leaves: nothing remaining, eligible again at the
      first boundary of the original phase strictly after the unlock. */
  function Throttled(b: State, now: nat): State
    requires b.spec.Some? && b.spec.value.period > 0
  {
    b.(lockOverrun := false, remaining := 0, runningSince := None,
       replenishesAt := Min(U64_MAX, Boundary(b.replenishesAt, b.spec.value.period, now)))
  }

  lemma ThrottledLater(b: State, now: nat)
    requires Valid(b) && b.lockOverrun && now < U64_MAX
    ensures Throttled(b, now).replenishesAt > now
    ensures !ReplenishDue(Throttled(b, now), now)
  {
    BoundaryIsFirst(b.replenishesAt, b.spec.value.period, now, 0);
  }

  lemma ValidKept(b: State, p: Policy, now: nat, locked: bool)
    requires Valid(b) && ValidPolicy(p) && now <= U64_MAX
    ensures Valid(ForPolicy(p, now)) && Valid(ReplenishIfDue(b, now)) && Valid(OnDispatch(b, now))
    ensures Valid(OnSwitchOut(b, now)) && Valid(OnTimer(b, now, locked).0)
    ensures b.lockOverrun ==> Valid(Throttled(b, now))
  {
    if b.lockOverrun {
      BoundaryIsFirst(b.replenishesAt, b.spec.value.period, now, 0);
      assert Throttled(b, now).replenishesAt >= 1;
    }
    if ReplenishDue(b, now) {
      ReplenishClosedForm(b, now);
      BoundaryIsFirst(b.replenishesAt, b.spec.value.period, now, 0);
    }
  }

  // ---- How much CPU time one policy lifetime can charge ------------------------------------

  datatype Event =
    | Dispatch(now: nat)
    | SwitchOut(now: nat)
    | Timer(now: nat, locked: bool)
    | Unlock(now: nat)
    | Replenish(now: nat)

  function After(b: State, e: Event): State
    requires Valid(b)
  {
    match e
    case Dispatch(now) => OnDispatch(b, now)
    case SwitchOut(now) => OnSwitchOut(b, now)
    case Timer(now, locked) => OnTimer(b, now, locked).0
    case Unlock(now) => if b.lockOverrun then Throttled(b, now) else b
    case Replenish(now) => ReplenishIfDue(b, now)
  }

  lemma AfterValid(b: State, e: Event)
    requires Valid(b) && e.now <= U64_MAX
    ensures Valid(After(b, e))
  {
    ValidKept(b, Cooperative, e.now, if e.Timer? then e.locked else false);
  }

  /** Whether this event refills the budget. */
  predicate Refills(b: State, e: Event) {
    (e.Dispatch? || e.Replenish?) && ReplenishDue(b, e.now)
  }

  /** The CPU time this event takes off the budget. */
  function Charge(b: State, e: Event): nat {
    if e.SwitchOut? || e.Timer? then SatSub(b.remaining, ChargeUntil(b, e.now).remaining) else 0
  }

  ghost predicate Ordered(es: seq<Event>, from: nat, upTo: nat) {
    && (forall i :: 0 <= i < |es| ==> from <= es[i].now <= upTo)
    && (forall i, j :: 0 <= i < j < |es| ==> es[i].now <= es[j].now)
  }

  ghost function Charged(b: State, es: seq<Event>): nat
    requires Valid(b) && forall i :: 0 <= i < |es| ==> es[i].now <= U64_MAX
    decreases |es|
  {
    if es == [] then 0
    else
      AfterValid(b, es[0]);
      Charge(b, es[0]) + Charged(After(b, es[0]), es[1..])
  }

  ghost function RefillCount(b: State, es: seq<Event>): nat
    requires Valid(b) && forall i :: 0 <= i < |es| ==> es[i].now <= U64_MAX
    decreases |es|
  {
    if es == [] then 0
    else
      AfterValid(b, es[0]);
      (if Refills(b, es[0]) then 1 else 0) + RefillCount(After(b, es[0]), es[1..])
  }

  /** What one event charges comes off the remainder, unless the event refills it. */
  lemma ChargeFacts(b: State, e: Event)
    requires Valid(b) && b.spec.Some? && e.now <= U64_MAX
    ensures var b' := After(b, e);
      && Valid(b') && b'.spec == b.spec
      && if Refills(b, e) then b'.remaining == b.spec.value.capacity && Charge(b, e) == 0 else b'.remaining + Charge(b, e) <= b.remaining
  {
    AfterValid(b, e);
  }

  /** Between two refills, and before the first, at most one capacity is charged. */
  lemma {:induction false} ChargedByRefills(b: State, es: seq<Event>)
    requires Valid(b) && b.spec.Some? && forall i :: 0 <= i < |es| ==> es[i].now <= U64_MAX
    ensures Charged(b, es) <= b.remaining + RefillCount(b, es) * b.spec.value.capacity
    decreases |es|
  {
    hide After, Charge, Refills;
    if es != [] {
      var b' := After(b, es[0]);
      ChargeFacts(b, es[0]);
      ChargedByRefills(b', es[1..]);
      var c := b.spec.value.capacity;
      var n := RefillCount(b', es[1..]);
      assert (n + 1) * c == n * c + c;
    }
  }

  /** The phase window an instant falls in, counted from the policy's installation. */
  function Window(origin: nat, period: nat, t: nat): int
    requires period > 0
  {
    (t - origin) / period
  }

  /** The next replenishment is a boundary of the original phase (unless capped). */
  ghost predicate InPhase(b: State, origin: nat) {
    b.spec.Some? && b.spec.value.period > 0 &&
    (b.replenishesAt == U64_MAX || exists j: nat :: b.replenishesAt == origin + j * b.spec.value.period)
  }

  lemma BoundaryWindow(origin: nat, r: nat, period: nat, now: nat, j: nat)
    requires period > 0 && r == origin + j * period && r <= now
    ensures exists i: nat :: Boundary(r, period, now) == origin + i * period
    ensures Window(origin, period, Boundary(r, period, now)) == Window(origin, period, now) + 1
  {
    var e := (now - r) / period;
    var i := j + e + 1;
    assert i * period == j * period + (e + 1) * period;
    assert Boundary(r, period, now) == origin + i * period;
    DivExact(i, period, 0);
    assert (e + 1) * period == e * period + period;
    var rem := (now - r) % period;
    assert now - r == e * period + rem;
    assert (j + e) * period == j * period + e * period;
    assert now - origin == (j + e) * period + rem;
    DivExact(j + e, period, rem);
  }

  lemma WindowMonotone(origin: nat, period: nat, a: nat, z: nat)
    requires period > 0 && origin <= a <= z
    ensures Window(origin, period, a) <= Window(origin, period, z)
  {
    var x, y := a - origin, z - origin;
    assert x == (x / period) * period + x % period;
    assert y == (y / period) * period + y % period;
    MulLe(y / period + 1, x / period, period);
    assert (y / period + 1) * period == (y / period) * period + period;
  }

  lemma PhaseKept(b: State, e: Event, origin: nat)
    requires Valid(b) && InPhase(b, origin) && e.now < U64_MAX
    ensures InPhase(After(b, e), origin)
  {
    var p := b.spec.value.period;
    if Refills(b, e) || (e.Unlock? && b.lockOverrun) {
      if Refills(b, e) {
        ReplenishClosedForm(b, e.now);
      }
      if e.now >= b.replenishesAt {
        var j: nat :| b.replenishesAt == origin + j * p;
        BoundaryWindow(origin, b.replenishesAt, p, e.now, j);
      }
    }
  }

  /** The windows from the next boundary (or `a`, when that is later) up to `z`. */
  ghost function WindowsLeft(b: State, origin: nat, a: nat, z: nat): int
    requires b.spec.Some? && b.spec.value.period > 0
  {
    if b.replenishesAt > z then 0
    else Window(origin, b.spec.value.period, z)
         - Window(origin, b.spec.value.period, if a < b.replenishesAt then b.replenishesAt else a) + 1
  }

  lemma WindowsLeftShrink(b: State, b': State, origin: nat, a: nat, a': nat, z: nat)
    requires b.spec.Some? && b.spec.value.period > 0 && b'.spec == b.spec
    requires origin <= a <= a' <= z && b.replenishesAt <= b'.replenishesAt
    ensures WindowsLeft(b', origin, a', z) <= WindowsLeft(b, origin, a, z)
  {
    var p := b.spec.value.period;
    var m := if a < b.replenishesAt then b.replenishesAt else a;
    var m' := if a' < b'.replenishesAt then b'.replenishesAt else a';
    WindowMonotone(origin, p, m, m');
    if m <= z {
      WindowMonotone(origin, p, m, z);
    }
  }

  lemma WindowsLeftRefill(b: State, now: nat, origin: nat, a: nat, z: nat)
    requires Valid(b) && InPhase(b, origin) && ReplenishDue(b, now)
    requires origin <= a <= now <= z < U64_MAX
    ensures 1 + WindowsLeft(ReplenishIfDue(b, now), origin, now, z) <= WindowsLeft(b, origin, a, z)
  {
    var p, r' := b.spec.value.period, ReplenishIfDue(b, now).replenishesAt;
    var m := if a < b.replenishesAt then b.replenishesAt else a;
    ReplenishClosedForm(b, now);
    var j: nat :| b.replenishesAt == origin + j * p;
    BoundaryWindow(origin, b.replenishesAt, p, now, j);
    BoundaryIsFirst(b.replenishesAt, p, now, 0);
    WindowMonotone(origin, p, m, now);
    WindowMonotone(origin, p, now, z);
  }

  /** Refills fall in distinct phase windows. */
  lemma {:induction false} RefillsByWindows(b: State, es: seq<Event>, origin: nat, a: nat, z: nat)
    requires Valid(b) && InPhase(b, origin)
    requires origin <= a <= z < U64_MAX && Ordered(es, a, z)
    ensures RefillCount(b, es) <= WindowsLeft(b, origin, a, z)
    decreases |es|
  {
    if es == [] {
      WindowsLeftShrink(b, b, origin, a, z, z);
      WindowMonotone(origin, b.spec.value.period, a, z);
    } else {
      var e, b' := es[0], After(b, es[0]);
      AfterValid(b, e);
      PhaseKept(b, e, origin);
      RefillsByWindows(b', es[1..], origin, e.now, z);
      if Refills(b, e) {
        WindowsLeftRefill(b, e.now, origin, a, z);
        WindowsLeftShrink(ReplenishIfDue(b, e.now), b', origin, e.now, e.now, z);
      } else {
        if e.Unlock? && b.lockOverrun {
          BoundaryIsFirst(b.replenishesAt, b.spec.value.period, e.now, 0);
        }
        WindowsLeftShrink(b, b', origin, a, e.now, z);
      }
    }
  }

  /** The quota over any stretch of one policy lifetime: if the stretch from `a` to `z`
      touches `n` phase windows, at most `n + 1` capacities are charged in it. */
  lemma ChargeBound(b: State, es: seq<Event>, origin: nat, a: nat, z: nat)
    requires Valid(b) && InPhase(b, origin)
    requires origin <= a <= z < U64_MAX && Ordered(es, a, z)
    ensures var spec := b.spec.value;
      var n := Window(origin, spec.period, z) - Window(origin, spec.period, a) + 1;
      Charged(b, es) <= (n + 1) * spec.capacity
  {
    var spec := b.spec.value;
    var n := Window(origin, spec.period, z) - Window(origin, spec.period, a) + 1;
    RefillsByWindows(b, es, origin, a, z);
    ChargedByRefills(b, es);
    WindowMonotone(origin, spec.period, a, z);
    if a < b.replenishesAt {
      WindowMonotone(origin, spec.period, a, b.replenishesAt);
    }
    MulLe(RefillCount(b, es), n, spec.capacity);
    assert (n + 1) * spec.capacity == n * spec.capacity + spec.capacity;
  }

  /** A refill, or the end of a deferred exhaustion, moves eligibility strictly past `now`
      exactly when the clock is not at its very end. */
  lemma RefillIsLater(b: State, now: nat)
    requires Valid(b) && now <= U64_MAX
    ensures ReplenishDue(b, now) ==> (ReplenishIfDue(b, now).replenishesAt > now <==> now < U64_MAX)
    ensures b.lockOverrun ==> (Throttled(b, now).replenishesAt > now <==> now < U64_MAX)
  {
    if ReplenishDue(b, now) {
      ReplenishClosedForm(b, now);
      BoundaryIsFirst(b.replenishesAt, b.spec.value.period, now, 0);
    }
    if b.lockOverrun {
      BoundaryIsFirst(b.replenishesAt, b.spec.value.period, now, 0);
    }
  }

  // ---- One capacity per window, and when it fails -----------------------------------------------

  /** Charged time is time spent running. */
  lemma {:induction false} ChargedByTime(b: State, es: seq<Event>, from: nat, upTo: nat)
    requires Valid(b) && Ordered(es, from, upTo) && from <= upTo <= U64_MAX
    requires b.runningSince.Some? ==> b.runningSince.value <= from
    ensures Charged(b, es) <= upTo - (if b.runningSince.Some? then b.runningSince.value else from)
    decreases |es|
  {
    if es != [] {
      var e, b' := es[0], After(b, es[0]);
      AfterValid(b, e);
      ChargedByTime(b', es[1..], e.now, upTo);
    }
  }

  /** A refill in the window of the awaited boundary aims past the window. */
  lemma RefillFacts(b: State, e: Event, upTo: nat)
    requires Valid(b) && Refills(b, e) && e.now <= upTo < U64_MAX && upTo < b.replenishesAt + b.spec.value.period
    ensures var b' := After(b, e);
      Valid(b') && b'.spec == b.spec && b'.replenishesAt > upTo && b'.remaining == b.spec.value.capacity && Charge(b, e) == 0
  {
    var p := b.spec.value.period;
    AfterValid(b, e);
    ReplenishClosedForm(b, e.now);
    MulLe(1, (e.now - b.replenishesAt) / p + 1, p);
  }

  /** Any other event leaves the spec alone and never moves eligibility back. */
  lemma QuietFacts(b: State, e: Event)
    requires Valid(b) && b.spec.Some? && !Refills(b, e) && e.now <= U64_MAX
    ensures var b' := After(b, e); Valid(b') && b'.spec == b.spec && b'.replenishesAt >= b.replenishesAt
  {
    AfterValid(b, e);
    if e.Unlock? && b.lockOverrun {
      BoundaryIsFirst(b.replenishesAt, b.spec.value.period, e.now, 0);
    }
  }

  /** No refill before the boundary, and only one in its window. */
  lemma {:induction false} NoRefillYet(b: State, es: seq<Event>, from: nat, upTo: nat)
    requires Valid(b) && b.spec.Some? && Ordered(es, from, upTo) && upTo < b.replenishesAt
    ensures RefillCount(b, es) == 0
    decreases |es|
  {
    hide After, Charge;
    if es != [] {
      QuietFacts(b, es[0]);
      NoRefillYet(After(b, es[0]), es[1..], from, upTo);
    }
  }

  lemma {:induction false} OneRefill(b: State, es: seq<Event>, from: nat, upTo: nat)
    requires Valid(b) && b.spec.Some? && Ordered(es, from, upTo) && upTo < U64_MAX
    requires upTo < b.replenishesAt + b.spec.value.period
    ensures RefillCount(b, es) <= 1
    decreases |es|
  {
    hide After, Charge;
    if es != [] {
      if Refills(b, es[0]) {
        RefillFacts(b, es[0], upTo);
        NoRefillYet(After(b, es[0]), es[1..], from, upTo);
      } else {
        QuietFacts(b, es[0]);
        OneRefill(After(b, es[0]), es[1..], from, upTo);
      }
    }
  }

  /** With nothing left at the boundary, its one refill is all there is to charge. */
  lemma NoneLeft(b: State, es: seq<Event>, from: nat, upTo: nat)
    requires Valid(b) && b.spec.Some? && b.remaining == 0 && upTo < U64_MAX
    requires Ordered(es, from, upTo) && upTo < b.replenishesAt + b.spec.value.period
    ensures Charged(b, es) <= b.spec.value.capacity
  {
    OneRefill(b, es, from, upTo);
    ChargedByRefills(b, es);
    MulLe(RefillCount(b, es), 1, b.spec.value.capacity);
  }

  /** Until a task that is not running is dispatched nothing is charged, and the dispatch refills. */
  lemma {:induction false} ChargedOnceRefilled(b: State, es: seq<Event>, from: nat, upTo: nat)
    requires Valid(b) && b.spec.Some? && b.runningSince.None? && !b.lockOverrun && upTo < U64_MAX
    requires b.replenishesAt <= from && Ordered(es, from, upTo) && upTo < b.replenishesAt + b.spec.value.period
    ensures Charged(b, es) <= b.spec.value.capacity
    decreases |es|
  {
    hide After, Charge;
    if es != [] {
      var e, b' := es[0], After(b, es[0]);
      if Refills(b, e) {
        RefillFacts(b, e, upTo);
        NoRefillYet(b', es[1..], from, upTo);
        ChargedByRefills(b', es[1..]);
      } else {
        IdleFacts(b, e);
        if b'.lockOverrun {
          NoneLeft(b', es[1..], from, upTo);
        } else {
          ChargedOnceRefilled(b', es[1..], from, upTo);
        }
      }
    }
  }

  /** An event that refills nothing charges nothing to a task that does not run. */
  lemma IdleFacts(b: State, e: Event)
    requires Valid(b) && b.spec.Some? && b.runningSince.None? && !b.lockOverrun && b.replenishesAt <= e.now <= U64_MAX && !Refills(b, e)
    ensures var b' := After(b, e);
      && Valid(b') && b'.spec == b.spec && Charge(b, e) == 0 && b'.runningSince.None? && b'.replenishesAt == b.replenishesAt
      && (b'.lockOverrun ==> b'.remaining == 0)
  {
    AfterValid(b, e);
  }

  /** The time a running clock has already covered when the awaited boundary comes, as far as
      the remainder reaches. */
  function Early(b: State): nat {
    match b.runningSince
    case None => 0
    case Some(since) => Min(b.remaining, SatSub(b.replenishesAt, since))
  }

  /** The clock stands still, or its remainder does not reach past the boundary `b` awaits. */
  predicate StopsAtBoundary(b: State) {
    b.runningSince.None? || b.remaining <= SatSub(b.replenishesAt, b.runningSince.value)
  }

  /** Whatever happens in the window of the boundary `b` awaits, it is charged at most one
      capacity on top of what was used before the boundary. */
  ghost predicate KeepsToOne(b: State)
    requires Valid(b) && b.spec.Some? && b.replenishesAt + b.spec.value.period <= U64_MAX
  {
    var upTo := b.replenishesAt + b.spec.value.period - 1;
    forall es :: Ordered(es, b.replenishesAt, upTo) ==> Charged(b, es) <= Early(b) + b.spec.value.capacity
  }

  /** A task that runs across its boundary with something left uses it, is switched out and in
      again, and spends a whole capacity more before the window ends. */
  lemma CrossingOvercharges(b: State) returns (es: seq<Event>)
    requires Valid(b) && b.spec.Some? && !StopsAtBoundary(b) && b.runningSince.value <= b.replenishesAt
    requires b.spec.value.capacity + 2 <= b.spec.value.period && b.replenishesAt + b.spec.value.period <= U64_MAX
    ensures Ordered(es, b.replenishesAt, b.replenishesAt + b.spec.value.period - 1)
    ensures var (t, c) := (b.replenishesAt + 1, b.spec.value.capacity); es == [SwitchOut(t), Dispatch(t), SwitchOut(t + c)]
    ensures Charged(b, es) == Early(b) + b.spec.value.capacity + 1
  {
    var t, c := b.replenishesAt + 1, b.spec.value.capacity;
    es := [SwitchOut(t), Dispatch(t), SwitchOut(t + c)];
    var b1 := After(b, es[0]);
    var b2 := After(b1, es[1]);
    var b3 := After(b2, es[2]);
    AfterValid(b, es[0]);
    AfterValid(b1, es[1]);
    AfterValid(b2, es[2]);
    assert es[1..] == [Dispatch(t), SwitchOut(t + c)] && es[1..][1..] == [SwitchOut(t + c)] && es[1..][1..][1..] == [];
    assert Charge(b, es[0]) == Early(b) + 1 && Charge(b1, es[1]) == 0 && Charge(b2, es[2]) == c;
    assert Charged(b3, []) == 0;
    assert Charged(b2, es[1..][1..]) == c;
    assert Charged(b1, es[1..]) == c;
  }

  /** For every budget whose clock was started before the boundary it awaits: one capacity per
      window holds for everything that may happen in the window if and only if the task does
      not run across the boundary with budget left, or the window is too short to matter. */
  lemma OnePerWindowExact(b: State)
    requires Valid(b) && b.spec.Some? && b.replenishesAt + b.spec.value.period <= U64_MAX
    requires b.runningSince.Some? ==> b.runningSince.value <= b.replenishesAt
    ensures KeepsToOne(b) <==> StopsAtBoundary(b) || b.spec.value.capacity + 2 > b.spec.value.period
  {
    var upTo := b.replenishesAt + b.spec.value.period - 1;
    if StopsAtBoundary(b) || b.spec.value.capacity + 2 > b.spec.value.period {
      forall es | Ordered(es, b.replenishesAt, upTo) ensures Charged(b, es) <= Early(b) + b.spec.value.capacity {
        if b.lockOverrun {
          NoneLeft(b, es, b.replenishesAt, upTo);
        } else if b.runningSince.None? {
          ChargedOnceRefilled(b, es, b.replenishesAt, upTo);
        } else if StopsAtBoundary(b) {
          OneRefill(b, es, b.replenishesAt, upTo);
          ChargedByRefills(b, es);
          MulLe(RefillCount(b, es), 1, b.spec.value.capacity);
        } else {
          ChargedByTime(b, es, b.replenishesAt, upTo);
        }
      }
    } else {
      var es := CrossingOvercharges(b);
      assert Charged(b, es) > Early(b) + b.spec.value.capacity;
    }
  }

  /** The condition fails in ordinary use: a task dispatched one instant before its boundary,
      with or without a timer interrupt at the boundary. */
  lemma CrossingIsReached()
    ensures var b0 := ForPolicy(Budgeted(Spec(2, 10)), 0);
      var b1 := OnDispatch(b0, 9);
      var b2 := OnTimer(b1, 10, false).0;
      && Valid(b1) && b1.replenishesAt == 10 && !KeepsToOne(b1)
      && Valid(b2) && b2.replenishesAt == 10 && b2.runningSince == Some(10) && !KeepsToOne(b2)
  {
    var b0 := ForPolicy(Budgeted(Spec(2, 10)), 0);
    var b1 := OnDispatch(b0, 9);
    var b2 := OnTimer(b1, 10, false).0;
    assert b1 == State(Some(Spec(2, 10)), 2, 10, Some(9), false);
    assert b2 == State(Some(Spec(2, 10)), 1, 10, Some(10), false);
    OnePerWindowExact(b1);
    OnePerWindowExact(b2);
  }
}
