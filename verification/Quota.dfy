/** What a budgeted task consumes, as opposed to what its budget is charged. The time a task has
    the hart is measured from its dispatches and switch-outs alone and then accounted for: what
    the budget was charged, what passed while the budget clock stood still, what passed after an
    exhaustion deadline, and what passed in stints that began with nothing remaining. */
module Quota {
  import opened Lists
  import opened Arith
  import opened Budget

  // ---- Measuring ---------------------------------------------------------------------------------

  /** Since when the task has the hart, counted anew from each timer interrupt. */
  function Onward(on: Option<nat>, e: Event): Option<nat> {
    match e
    case Dispatch(now) => Some(now)
    case SwitchOut(_) => None
    case Timer(now, _) => if on.Some? then Some(now) else None
    case _ => on
  }

  /** The time on the hart that ends with this event. */
  function Stretch(on: Option<nat>, e: Event): nat {
    if (e.SwitchOut? || e.Timer?) && on.Some? then SatSub(e.now, on.value) else 0
  }

  /** The budget clock stood still: the exhaustion is known, and the lock or the way to the
      switch keeps the task on the hart. */
  function LateAt(b: State, on: Option<nat>, e: Event): nat {
    if b.runningSince.None? then Stretch(on, e) else 0
  }

  /** Past the exhaustion deadline: the timer, or the trap, came late. */
  function SlowAt(b: State, on: Option<nat>, e: Event): nat {
    if b.runningSince.Some? && b.remaining > 0 then SatSub(Stretch(on, e), b.remaining) else 0
  }

  /** With nothing remaining and the clock running: no deadline is armed for this time. */
  function EmptyAt(b: State, on: Option<nat>, e: Event): nat {
    if b.runningSince.Some? && b.remaining == 0 then Stretch(on, e) else 0
  }

  datatype Account = Account(ran: nat, late: nat, slow: nat, empty: nat)

  ghost predicate InTime(es: seq<Event>) {
    forall i :: 0 <= i < |es| ==> es[i].now <= U64_MAX
  }

  ghost function Spent(b: State, on: Option<nat>, es: seq<Event>): Account
    requires Valid(b) && InTime(es)
    decreases |es|
  {
    if es == [] then Account(0, 0, 0, 0)
    else
      AfterValid(b, es[0]);
      var rest := Spent(After(b, es[0]), Onward(on, es[0]), es[1..]);
      Account(Stretch(on, es[0]) + rest.ran, LateAt(b, on, es[0]) + rest.late, SlowAt(b, on, es[0]) + rest.slow,
              EmptyAt(b, on, es[0]) + rest.empty)
  }

  /** The budget clock runs only on the hart, since the last dispatch or timer interrupt. */
  predicate Synced(b: State, on: Option<nat>) {
    b.runningSince.Some? ==> on == b.runningSince
  }

  /** A task is dispatched when it is off the hart, and interrupted or switched out when on it. */
  ghost predicate Proper(on: Option<nat>, es: seq<Event>)
    decreases |es|
  {
    es == [] ||
    ((es[0].Dispatch? ==> on.None?) && (es[0].Timer? || es[0].SwitchOut? ==> on.Some?) && Proper(Onward(on, es[0]), es[1..]))
  }

  // ---- Every instant is accounted for -----------------------------------------------------------

  lemma AccountStep(b: State, on: Option<nat>, e: Event)
    requires Valid(b) && b.spec.Some? && Synced(b, on) && e.now <= U64_MAX
    requires (e.Dispatch? ==> on.None?) && (e.Timer? || e.SwitchOut? ==> on.Some? && on.value <= e.now)
    ensures Stretch(on, e) == Charge(b, e) + LateAt(b, on, e) + SlowAt(b, on, e) + EmptyAt(b, on, e)
    ensures Valid(After(b, e)) && After(b, e).spec == b.spec && Synced(After(b, e), Onward(on, e))
  {
    AfterValid(b, e);
  }

  /** The time on the hart is what was charged plus the three terms, exactly, for every sequence
      of events. */
  lemma {:induction false} RanIsAccounted(b: State, on: Option<nat>, es: seq<Event>, from: nat, upTo: nat)
    requires Valid(b) && b.spec.Some? && Synced(b, on) && Proper(on, es)
    requires Ordered(es, from, upTo) && upTo <= U64_MAX && (on.Some? ==> on.value <= from)
    ensures var s := Spent(b, on, es); s.ran == Charged(b, es) + s.late + s.slow + s.empty
    decreases |es|
  {
    hide After, Charge, Stretch, LateAt, SlowAt, EmptyAt;
    if es != [] {
      AccountStep(b, on, es[0]);
      RanIsAccounted(After(b, es[0]), Onward(on, es[0]), es[1..], es[0].now, upTo);
    }
  }

  lemma {:induction false} RanByTime(b: State, on: Option<nat>, es: seq<Event>, from: nat, upTo: nat)
    requires Valid(b) && Ordered(es, from, upTo) && from <= upTo <= U64_MAX && (on.Some? ==> on.value <= from)
    ensures Spent(b, on, es).ran <= upTo - (if on.Some? then on.value else from)
    decreases |es|
  {
    hide After, LateAt, SlowAt, EmptyAt;
    if es != [] {
      AfterValid(b, es[0]);
      RanByTime(After(b, es[0]), Onward(on, es[0]), es[1..], es[0].now, upTo);
    }
  }

  // ---- The timer is in time ---------------------------------------------------------------------

  /** No timer interrupt or switch comes after the exhaustion deadline it was armed for. */
  ghost predicate Prompt(b: State, on: Option<nat>, es: seq<Event>)
    requires Valid(b) && InTime(es)
    decreases |es|
  {
    es == [] ||
    (AfterValid(b, es[0]);
     && ((es[0].Timer? || es[0].SwitchOut?) && ExhaustionDeadline(b).Some? ==> es[0].now <= ExhaustionDeadline(b).value)
     && Prompt(After(b, es[0]), Onward(on, es[0]), es[1..]))
  }

  /** Time past a deadline passes exactly when some deadline is missed. */
  lemma {:induction false} SlowExact(b: State, on: Option<nat>, es: seq<Event>, from: nat, upTo: nat)
    requires Valid(b) && b.spec.Some? && Synced(b, on) && Proper(on, es)
    requires Ordered(es, from, upTo) && upTo <= U64_MAX && (on.Some? ==> on.value <= from)
    ensures Spent(b, on, es).slow == 0 <==> Prompt(b, on, es)
    decreases |es|
  {
    hide After, Charge, LateAt, EmptyAt;
    if es != [] {
      AccountStep(b, on, es[0]);
      SlowExact(After(b, es[0]), Onward(on, es[0]), es[1..], es[0].now, upTo);
    }
  }

  // ---- Empty dispatches --------------------------------------------------------------------------

  /** The dispatch finds nothing remaining and its boundary not reached: nothing the scheduler
      checks, but a caller of `on_dispatch` could. */
  predicate EmptyDispatch(b: State, now: nat) {
    b.remaining == 0 && !ReplenishDue(b, now)
  }

  ghost predicate NoEmptyDispatch(b: State, es: seq<Event>)
    requires Valid(b) && InTime(es)
    decreases |es|
  {
    es == [] ||
    (AfterValid(b, es[0]);
     (es[0].Dispatch? ==> !EmptyDispatch(b, es[0].now)) && NoEmptyDispatch(After(b, es[0]), es[1..]))
  }

  predicate RunsEmpty(b: State) {
    b.runningSince.Some? && b.remaining == 0
  }

  lemma StaysFull(b: State, e: Event)
    requires Valid(b) && b.spec.Some? && e.now <= U64_MAX && !RunsEmpty(b) && (e.Dispatch? ==> !EmptyDispatch(b, e.now))
    ensures Valid(After(b, e)) && After(b, e).spec == b.spec && !RunsEmpty(After(b, e))
  {
    AfterValid(b, e);
  }

  /** Without an empty dispatch no time is spent empty. */
  lemma {:induction false} NothingEmpty(b: State, on: Option<nat>, es: seq<Event>)
    requires Valid(b) && b.spec.Some? && InTime(es) && !RunsEmpty(b) && NoEmptyDispatch(b, es)
    ensures Spent(b, on, es).empty == 0
    decreases |es|
  {
    hide After, EmptyDispatch, LateAt, SlowAt, Stretch;
    if es != [] {
      StaysFull(b, es[0]);
      NothingEmpty(After(b, es[0]), Onward(on, es[0]), es[1..]);
    }
  }

  /** What can happen to a budget between a dispatch and the switch that ends the stint. */
  ghost predicate Stint(es: seq<Event>) {
    && (forall i :: 0 <= i < |es| ==> es[i].Timer? || es[i].Unlock? || es[i].SwitchOut?)
    && (forall i :: 0 <= i < |es| && es[i].SwitchOut? ==> i == |es| - 1)
  }

  /** However the stint after a dispatch at `now` goes, it lasts no longer than a capacity plus
      the time the clock stood still and the time some deadline was missed by. */
  ghost predicate StintBounded(b: State, now: nat)
    requires Valid(b) && b.spec.Some? && now <= U64_MAX
  {
    AfterValid(b, Dispatch(now));
    forall es, upTo: nat :: Ordered(es, now, upTo) && upTo <= U64_MAX && Stint(es) ==>
      (assert InTime(es);
       var s := Spent(OnDispatch(b, now), Some(now), es); s.ran <= b.spec.value.capacity + s.late + s.slow)
  }

  lemma {:induction false} StintProper(on: Option<nat>, es: seq<Event>)
    requires on.Some? && Stint(es)
    ensures Proper(on, es)
    decreases |es|
  {
    if es != [] && !es[0].SwitchOut? {
      assert forall i :: 0 <= i < |es[1..]| ==> es[1..][i] == es[i + 1];
      StintProper(Onward(on, es[0]), es[1..]);
    }
  }

  lemma {:induction false} StintRefillsNothing(b: State, es: seq<Event>)
    requires Valid(b) && InTime(es) && Stint(es)
    ensures RefillCount(b, es) == 0 && NoEmptyDispatch(b, es)
    decreases |es|
  {
    hide After;
    if es != [] {
      AfterValid(b, es[0]);
      assert forall i :: 0 <= i < |es[1..]| ==> es[1..][i] == es[i + 1];
      StintRefillsNothing(After(b, es[0]), es[1..]);
    }
  }

  lemma FullStint(b: State, now: nat, es: seq<Event>, upTo: nat)
    requires Valid(b) && b.spec.Some? && now <= U64_MAX && !EmptyDispatch(b, now)
    requires Ordered(es, now, upTo) && upTo <= U64_MAX && Stint(es)
    ensures Valid(OnDispatch(b, now)) && InTime(es)
    ensures var s := Spent(OnDispatch(b, now), Some(now), es); s.ran <= b.spec.value.capacity + s.late + s.slow
  {
    AfterValid(b, Dispatch(now));
    var b' := OnDispatch(b, now);
    StintProper(Some(now), es);
    RanIsAccounted(b', Some(now), es, now, upTo);
    StintRefillsNothing(b', es);
    ChargedByRefills(b', es);
    NothingEmpty(b', Some(now), es);
  }

  lemma EmptyStint(b: State, now: nat, length: nat)
    requires Valid(b) && b.spec.Some? && now + length <= U64_MAX && EmptyDispatch(b, now)
    ensures Valid(OnDispatch(b, now)) && ExhaustionDeadline(OnDispatch(b, now)) == None
    ensures Stint([SwitchOut(now + length)]) && Ordered([SwitchOut(now + length)], now, now + length)
    ensures Spent(OnDispatch(b, now), Some(now), [SwitchOut(now + length)]) == Account(length, 0, 0, length)
  {
    AfterValid(b, Dispatch(now));
    var b', es := OnDispatch(b, now), [SwitchOut(now + length)];
    AfterValid(b', es[0]);
    assert es[1..] == [];
    assert Spent(After(b', es[0]), None, []) == Account(0, 0, 0, 0);
  }

  /** The exact condition, to be checked at the dispatch: the stint is bounded if and only if
      something remains or the boundary has come. An empty stint has no deadline and lasts for
      any length of time. */
  lemma DispatchExact(b: State, now: nat)
    requires Valid(b) && b.spec.Some? && now + b.spec.value.capacity < U64_MAX
    ensures StintBounded(b, now) <==> !EmptyDispatch(b, now)
    ensures !b.lockOverrun ==> (EmptyDispatch(b, now) <==> b.remaining == 0 && now < b.replenishesAt)
  {
    AfterValid(b, Dispatch(now));
    if !EmptyDispatch(b, now) {
      forall es, upTo: nat | Ordered(es, now, upTo) && upTo <= U64_MAX && Stint(es)
        ensures InTime(es) && var s := Spent(OnDispatch(b, now), Some(now), es); s.ran <= b.spec.value.capacity + s.late + s.slow
      {
        FullStint(b, now, es, upTo);
      }
    } else {
      EmptyStint(b, now, b.spec.value.capacity + 1);
      var es := [SwitchOut(now + b.spec.value.capacity + 1)];
      assert Ordered(es, now, now + b.spec.value.capacity + 1) && Stint(es);
    }
  }

  // ---- Over phase windows ------------------------------------------------------------------------

  /** Over a stretch that touches `n` phase windows a task has the hart for at most `n + 1`
      capacities, plus the time its clock stood still, deadlines were missed by, and it ran
      empty; and it never runs empty if no dispatch is empty. */
  lemma QuotaBound(b: State, on: Option<nat>, es: seq<Event>, origin: nat, a: nat, z: nat)
    requires Valid(b) && InPhase(b, origin) && Synced(b, on) && Proper(on, es)
    requires origin <= a <= z < U64_MAX && Ordered(es, a, z) && (on.Some? ==> on.value <= a)
    ensures var (spec, s) := (b.spec.value, Spent(b, on, es));
      var n := Window(origin, spec.period, z) - Window(origin, spec.period, a) + 1;
      && s.ran <= (n + 1) * spec.capacity + s.late + s.slow + s.empty
      && (!RunsEmpty(b) && NoEmptyDispatch(b, es) ==> s.empty == 0)
      && (Prompt(b, on, es) <==> s.slow == 0)
  {
    hide Window, Spent, Charged, Prompt, NoEmptyDispatch, Proper;
    RanIsAccounted(b, on, es, a, z);
    ChargeBound(b, es, origin, a, z);
    SlowExact(b, on, es, a, z);
    if !RunsEmpty(b) && NoEmptyDispatch(b, es) {
      NothingEmpty(b, on, es);
    }
  }

  /** How long the task has had the hart when the boundary it awaits comes. */
  function Before(b: State): nat {
    if b.runningSince.None? then 0 else SatSub(b.replenishesAt, b.runningSince.value)
  }

  ghost predicate ConsumesOne(b: State)
    requires Valid(b) && b.spec.Some? && b.replenishesAt + b.spec.value.period <= U64_MAX
  {
    var upTo := b.replenishesAt + b.spec.value.period - 1;
    forall es :: Ordered(es, b.replenishesAt, upTo) && Proper(b.runningSince, es) ==>
      (assert InTime(es);
       var s := Spent(b, b.runningSince, es);
       s.ran <= Before(b) + b.spec.value.capacity + s.late + s.slow + s.empty)
  }

  /** Consumption in the window after a boundary: one capacity, apart from the three terms, if
      and only if the task does not run across the boundary with budget left, or the window is
      too short to matter. */
  lemma WindowExact(b: State)
    requires Valid(b) && b.spec.Some? && b.replenishesAt + b.spec.value.period <= U64_MAX
    requires b.runningSince.Some? ==> b.runningSince.value <= b.replenishesAt
    ensures ConsumesOne(b) <==> StopsAtBoundary(b) || b.spec.value.capacity + 2 > b.spec.value.period
  {
    hide Spent, Charged;
    var upTo, c := b.replenishesAt + b.spec.value.period - 1, b.spec.value.capacity;
    OnePerWindowExact(b);
    if KeepsToOne(b) {
      forall es | Ordered(es, b.replenishesAt, upTo) && Proper(b.runningSince, es)
        ensures InTime(es) && var s := Spent(b, b.runningSince, es); s.ran <= Before(b) + c + s.late + s.slow + s.empty
      {
        RanIsAccounted(b, b.runningSince, es, b.replenishesAt, upTo);
      }
    } else {
      var t := b.replenishesAt + 1;
      var es := [SwitchOut(t), Dispatch(t), SwitchOut(t + c)];
      CrossingIs(b, es);
      RanIsAccounted(b, b.runningSince, es, b.replenishesAt, upTo);
      assert Ordered(es, b.replenishesAt, upTo) && Proper(b.runningSince, es);
    }
  }

  lemma CrossingIs(b: State, es: seq<Event>)
    requires Valid(b) && b.spec.Some? && !StopsAtBoundary(b) && b.runningSince.value <= b.replenishesAt
    requires b.spec.value.capacity + 2 <= b.spec.value.period && b.replenishesAt + b.spec.value.period <= U64_MAX
    requires var (t, c) := (b.replenishesAt + 1, b.spec.value.capacity); es == [SwitchOut(t), Dispatch(t), SwitchOut(t + c)]
    ensures Ordered(es, b.replenishesAt, b.replenishesAt + b.spec.value.period - 1) && Proper(b.runningSince, es)
    ensures Charged(b, es) == Before(b) + b.spec.value.capacity + 1
  {
    hide Charged;
    var fs := CrossingOvercharges(b);
    assert es[1..] == [es[1], es[2]] && es[1..][1..] == [es[2]] && es[1..][1..][1..] == [];
    assert Proper(None, []);
    assert Proper(Onward(Some(0), es[1]), es[1..][1..]);
  }

  // ---- What may happen ----------------------------------------------------------------------------

  /** Whether a dispatch may pick the task: it may; it is throttled; or it was refilled while still
      on its way off the hart. */
  datatype Standing = Eligible | Barred | Leaving

  /** Only exhaustion found by a timer interrupt or by the outermost unlock throttles, only a due
      replenishment ends that. A switch-out never throttles. */
  function NextStanding(b: State, on: Option<nat>, m: Standing, e: Event): Standing
    requires Valid(b)
  {
    match e
    case Timer(now, locked) => if OnTimer(b, now, locked).1.ThrottleNow? then Barred else m
    case Unlock(_) => if b.lockOverrun then Barred else m
    case Replenish(now) => if m.Barred? && ReplenishDue(b, now) then (if on.Some? then Leaving else Eligible) else m
    case SwitchOut(_) => if m.Leaving? then Eligible else m
    case Dispatch(_) => m
  }

  /** What the scheduler may do to a budget: it dispatches eligible tasks that are off the hart,
      looks at the budget of the running task, and refills throttled ones. A task with a pending
      overrun holds the scheduler lock, so it keeps the hart until the unlock. */
  predicate May(b: State, on: Option<nat>, m: Standing, e: Event) {
    match e
    case Dispatch(_) => on.None? && m.Eligible?
    case SwitchOut(_) => on.Some? && !b.lockOverrun
    case Timer(_, locked) => on.Some? && m.Eligible? && (b.lockOverrun ==> locked)
    case Unlock(_) => on.Some? && m.Eligible? && b.lockOverrun
    case Replenish(_) => m.Barred?
  }

  ghost predicate Lawful(b: State, on: Option<nat>, m: Standing, es: seq<Event>)
    requires Valid(b) && InTime(es)
    decreases |es|
  {
    es == [] ||
    (AfterValid(b, es[0]);
     && May(b, on, m, es[0])
     && Lawful(After(b, es[0]), Onward(on, es[0]), NextStanding(b, on, m, es[0]), es[1..]))
  }

  /** A throttled task has nothing left and its clock stands still; so does that of a task that is
      leaving, and of one with a pending overrun, which is on the hart. Otherwise the clock of a task
      on the hart runs. */
  predicate Coherent(b: State, on: Option<nat>, m: Standing) {
    && Synced(b, on) && (!m.Eligible? ==> b.runningSince.None? && !b.lockOverrun) && (m.Barred? ==> b.remaining == 0)
    && (m.Leaving? ==> on.Some?) && (b.lockOverrun ==> on.Some? && b.runningSince.None?)
    && (m.Eligible? && on.Some? && !b.lockOverrun ==> b.runningSince.Some?)
  }

  /** Lawful events keep a budget and its standing coherent. */
  lemma CoherentStep(b: State, on: Option<nat>, m: Standing, e: Event)
    requires Valid(b) && b.spec.Some? && Coherent(b, on, m) && May(b, on, m, e) && e.now <= U64_MAX
    ensures Valid(After(b, e)) && After(b, e).spec == b.spec
    ensures Coherent(After(b, e), Onward(on, e), NextStanding(b, on, m, e))
  {
    AfterValid(b, e);
  }

  // ---- The promise ----------------------------------------------------------------------------------

  /** Whatever may happen in the window of the boundary `b` awaits, the task consumes at most one
      capacity there, lock, interrupt and timer lateness apart. */
  ghost predicate WindowKept(b: State, on: Option<nat>, m: Standing)
    requires Valid(b) && b.spec.Some? && b.replenishesAt + b.spec.value.period <= U64_MAX
  {
    var upTo := b.replenishesAt + b.spec.value.period - 1;
    forall es :: Ordered(es, b.replenishesAt, upTo) ==>
      (assert InTime(es);
       var s := Spent(b, on, es);
       Lawful(b, on, m, es) ==> s.ran <= Before(b) + b.spec.value.capacity + s.late + s.slow)
  }

  /** What that allows before anything happens: a capacity, and what a running clock has covered
      beyond its remainder. */
  function Allowance(b: State): nat
    requires b.spec.Some?
  {
    b.spec.value.capacity + (if b.runningSince.None? || b.remaining == 0 then 0 else SatSub(Before(b), b.remaining))
  }

  /** One event in front of others. */
  lemma InFront(b: State, on: Option<nat>, m: Standing, e: Event, fs: seq<Event>, upTo: nat)
    requires Valid(b) && Ordered(fs, e.now, upTo) && e.now <= upTo <= U64_MAX
    ensures InTime(fs) && Valid(After(b, e)) && Ordered([e] + fs, e.now, upTo) && InTime([e] + fs)
    ensures var rest := Spent(After(b, e), Onward(on, e), fs);
      Spent(b, on, [e] + fs) == Account(Stretch(on, e) + rest.ran, LateAt(b, on, e) + rest.late,
                                        SlowAt(b, on, e) + rest.slow, EmptyAt(b, on, e) + rest.empty)
    ensures May(b, on, m, e) && Lawful(After(b, e), Onward(on, e), NextStanding(b, on, m, e), fs) ==> Lawful(b, on, m, [e] + fs)
  {
    hide After, Stretch, LateAt, SlowAt, EmptyAt, Onward, NextStanding, May;
    AfterValid(b, e);
    var es := [e] + fs;
    assert es[0] == e && es[1..] == fs;
    assert forall i :: 0 < i < |es| ==> es[i] == fs[i - 1];
  }

  lemma Nothing(b: State, on: Option<nat>, m: Standing)
    requires Valid(b)
    ensures Spent(b, on, []) == Account(0, 0, 0, 0) && Lawful(b, on, m, [])
  {
  }

  /** Off the hart at `r`, and refilled there already or by a dispatch there. */
  predicate Rests(b: State, r: nat) {
    && Valid(b) && b.spec.Some? && b.runningSince.None? && !b.lockOverrun
    && (b.replenishesAt == r || b.replenishesAt == r + b.spec.value.period)
    && r + b.spec.value.period <= U64_MAX && b.spec.value.capacity + 1 < b.spec.value.period
  }

  /** Dispatched at `r`, switched out exhausted, and dispatched again at once: the budget after
      each event. */
  lemma EmptyStates(b: State, r: nat)
    requires Rests(b, r)
    ensures var (c, p) := (if b.replenishesAt == r then b.spec.value.capacity else b.remaining, b.spec.value.period);
      var (b1, b2, b3) := (State(b.spec, c, r + p, Some(r), false), State(b.spec, 0, r + p, None, false), State(b.spec, 0, r + p, Some(r + c), false));
      && After(b, Dispatch(r)) == b1 && Valid(b1) && After(b1, SwitchOut(r + c)) == b2 && Valid(b2)
      && After(b2, Dispatch(r + c)) == b3 && Valid(b3)
  {
    if b.replenishesAt == r {
      BoundaryIsFirst(r, b.spec.value.period, r, 1);
      ReplenishClosedForm(b, r);
    }
  }

  /** However much remains, what follows it is free until the end of the window. */
  lemma EmptyAgain(b: State, r: nat) returns (es: seq<Event>)
    requires Rests(b, r)
    ensures Ordered(es, r, r + b.spec.value.period - 1) && InTime(es) && Lawful(b, None, Eligible, es)
    ensures var s := Spent(b, None, es); s.ran == b.spec.value.period - 1 && s.late == s.slow == 0
  {
    hide After, Spent, Lawful;
    var c, p := if b.replenishesAt == r then b.spec.value.capacity else b.remaining, b.spec.value.period;
    var upTo := r + p - 1;
    EmptyStates(b, r);
    var b1 := After(b, Dispatch(r));
    var b2 := After(b1, SwitchOut(r + c));
    var b3 := After(b2, Dispatch(r + c));
    AfterValid(b3, SwitchOut(upTo));
    Nothing(After(b3, SwitchOut(upTo)), None, Eligible);
    InFront(b3, Some(r + c), Eligible, SwitchOut(upTo), [], upTo);
    InFront(b2, None, Eligible, Dispatch(r + c), [SwitchOut(upTo)] + [], upTo);
    InFront(b1, Some(r), Eligible, SwitchOut(r + c), [Dispatch(r + c)] + ([SwitchOut(upTo)] + []), upTo);
    InFront(b, None, Eligible, Dispatch(r), [SwitchOut(r + c)] + ([Dispatch(r + c)] + ([SwitchOut(upTo)] + [])), upTo);
    es := [Dispatch(r)] + ([SwitchOut(r + c)] + ([Dispatch(r + c)] + ([SwitchOut(upTo)] + [])));
  }

  /** Switched out at the boundary, if it is on the hart, and so on. */
  lemma EmptyOut(b: State, on: Option<nat>, m: Standing, r: nat) returns (es: seq<Event>)
    requires Valid(b) && b.spec.Some? && Coherent(b, on, m) && !m.Barred? && !b.lockOverrun && Rests(b.(runningSince := None), r)
    requires on.Some? ==> on.value <= r
    ensures Ordered(es, r, r + b.spec.value.period - 1) && InTime(es) && Lawful(b, on, m, es)
    ensures var (s, before) := (Spent(b, on, es), if on.Some? then r - on.value else 0);
      && s.ran == before + b.spec.value.period - 1
      && s.late == (if b.runningSince.None? then before else 0)
      && s.slow == if b.runningSince.None? || b.remaining == 0 then 0 else SatSub(before, b.remaining)
  {
    hide Spent, Lawful;
    if on.None? {
      es := EmptyAgain(b, r);
    } else {
      AfterValid(b, SwitchOut(r));
      var fs := EmptyAgain(After(b, SwitchOut(r)), r);
      InFront(b, on, m, SwitchOut(r), fs, r + b.spec.value.period - 1);
      es := [SwitchOut(r)] + fs;
    }
  }

  lemma EmptyInWindow(b: State, on: Option<nat>, m: Standing) returns (es: seq<Event>)
    requires Valid(b) && b.spec.Some? && Coherent(b, on, m) && b.replenishesAt + b.spec.value.period <= U64_MAX
    requires (on.Some? ==> on.value <= b.replenishesAt) && !b.lockOverrun && b.spec.value.capacity + 1 < b.spec.value.period
    ensures Ordered(es, b.replenishesAt, b.replenishesAt + b.spec.value.period - 1) && InTime(es) && Lawful(b, on, m, es)
    ensures var (s, before) := (Spent(b, on, es), if on.Some? then b.replenishesAt - on.value else 0);
      && s.ran == before + b.spec.value.period - 1 && s.late == (if b.runningSince.None? then before else 0)
      && b.spec.value.capacity + s.slow == Allowance(b)
  {
    hide Spent, Lawful;
    var r := b.replenishesAt;
    if m.Barred? {
      AfterValid(b, Replenish(r));
      BoundaryIsFirst(r, b.spec.value.period, r, 1);
      ReplenishClosedForm(b, r);
      var m' := if on.Some? then Leaving else Eligible;
      var fs := EmptyOut(After(b, Replenish(r)), on, m', r);
      InFront(b, on, m, Replenish(r), fs, r + b.spec.value.period - 1);
      es := [Replenish(r)] + fs;
    } else {
      es := EmptyOut(b, on, m, r);
    }
  }

  lemma SpentUnfolds(b: State, on: Option<nat>, es: seq<Event>)
    requires Valid(b) && InTime(es) && es != []
    ensures Valid(After(b, es[0])) && InTime(es[1..])
    ensures var (s, rest) := (Spent(b, on, es), Spent(After(b, es[0]), Onward(on, es[0]), es[1..]));
      && s.ran == Stretch(on, es[0]) + rest.ran && s.slow == SlowAt(b, on, es[0]) + rest.slow
      && s.late == LateAt(b, on, es[0]) + rest.late && s.empty == EmptyAt(b, on, es[0]) + rest.empty
  {
    hide After, Stretch, LateAt, SlowAt, EmptyAt, Onward;
    AfterValid(b, es[0]);
  }

  /** What a task on the hart has had before `from` is its remainder, and late beyond that. */
  lemma {:induction false} LateStart(b: State, on: Option<nat>, m: Standing, es: seq<Event>, from: nat, upTo: nat)
    requires Valid(b) && b.spec.Some? && Coherent(b, on, m) && on.Some? && on.value <= from && !RunsEmpty(b) && !b.lockOverrun
    requires Ordered(es, from, upTo) && upTo <= U64_MAX && InTime(es) && Lawful(b, on, m, es)
    ensures var s := Spent(b, on, es);
      s.ran == 0 || s.late + s.slow + (if b.runningSince.None? then 0 else b.remaining) >= from - on.value
    decreases |es|
  {
    hide Spent;
    if es == [] {
      Nothing(b, on, m);
    } else {
      SpentUnfolds(b, on, es);
      if es[0].Replenish? {
        CoherentStep(b, on, m, es[0]);
        LateStart(After(b, es[0]), on, NextStanding(b, on, m, es[0]), es[1..], from, upTo);
      }
    }
  }

  /** Throttled until after the window: whatever the task still has of the hart is late. */
  lemma {:induction false} BarredRuns(b: State, on: Option<nat>, m: Standing, es: seq<Event>, from: nat, upTo: nat)
    requires Valid(b) && b.spec.Some? && Coherent(b, on, m) && Ordered(es, from, upTo) && upTo <= U64_MAX && InTime(es)
    requires m.Barred? && upTo < b.replenishesAt && Lawful(b, on, m, es)
    ensures var s := Spent(b, on, es); s.ran == s.late
    decreases |es|
  {
    hide Spent;
    if es == [] {
      Nothing(b, on, m);
    } else {
      SpentUnfolds(b, on, es);
      CoherentStep(b, on, m, es[0]);
      BarredRuns(After(b, es[0]), Onward(on, es[0]), NextStanding(b, on, m, es[0]), es[1..], from, upTo);
    }
  }

  /** With an overrun pending at the boundary the task is throttled past the window as soon as it
      unlocks. */
  lemma {:induction false} OverrunRuns(b: State, on: Option<nat>, es: seq<Event>, from: nat, upTo: nat)
    requires Valid(b) && b.spec.Some? && Coherent(b, on, Eligible) && b.lockOverrun && b.replenishesAt <= from
    requires Ordered(es, from, upTo) && upTo < U64_MAX && upTo < b.replenishesAt + b.spec.value.period
    requires InTime(es) && Lawful(b, on, Eligible, es)
    ensures var s := Spent(b, on, es); s.ran == s.late
    decreases |es|
  {
    hide Spent;
    if es == [] {
      Nothing(b, on, Eligible);
    } else {
      SpentUnfolds(b, on, es);
      CoherentStep(b, on, Eligible, es[0]);
      if es[0].Unlock? {
        BoundaryIsFirst(b.replenishesAt, b.spec.value.period, es[0].now, 0);
        BarredRuns(After(b, es[0]), on, Barred, es[1..], from, upTo);
      } else {
        OverrunRuns(After(b, es[0]), Onward(on, es[0]), es[1..], from, upTo);
      }
    }
  }

  lemma KeptWhenShort(b: State, on: Option<nat>, m: Standing, es: seq<Event>)
    requires Valid(b) && b.spec.Some? && Coherent(b, on, m) && b.replenishesAt + b.spec.value.period <= U64_MAX
    requires (on.Some? ==> on.value <= b.replenishesAt) && !b.lockOverrun && Allowance(b) + 1 >= b.spec.value.period
    requires Ordered(es, b.replenishesAt, b.replenishesAt + b.spec.value.period - 1) && InTime(es) && Lawful(b, on, m, es)
    ensures var s := Spent(b, on, es); s.ran <= Before(b) + b.spec.value.capacity + s.late + s.slow
  {
    hide Spent, Lawful;
    var upTo := b.replenishesAt + b.spec.value.period - 1;
    RanByTime(b, on, es, b.replenishesAt, upTo);
    if on.Some? && !RunsEmpty(b) {
      LateStart(b, on, m, es, b.replenishesAt, upTo);
    }
  }

  /** The promise of one capacity per window, with lock, interrupt and timer lateness allowed for
      but empty stints not. An exhausted task may be switched out, stay ready and be dispatched
      again, so against everything that may happen in the window the promise holds if and only if
      an overrun is pending, which throttles the task past the window, or what is allowed covers
      the whole window anyway. */
  lemma PromiseExact(b: State, on: Option<nat>, m: Standing)
    requires Valid(b) && b.spec.Some? && Coherent(b, on, m) && b.replenishesAt + b.spec.value.period <= U64_MAX
    requires on.Some? ==> on.value <= b.replenishesAt
    ensures WindowKept(b, on, m) <==> b.lockOverrun || Allowance(b) + 1 >= b.spec.value.period
  {
    hide Spent, Lawful;
    var upTo := b.replenishesAt + b.spec.value.period - 1;
    if b.lockOverrun || Allowance(b) + 1 >= b.spec.value.period {
      forall es | Ordered(es, b.replenishesAt, upTo) && InTime(es) && Lawful(b, on, m, es)
        ensures var s := Spent(b, on, es); s.ran <= Before(b) + b.spec.value.capacity + s.late + s.slow
      {
        if b.lockOverrun {
          OverrunRuns(b, on, es, b.replenishesAt, upTo);
        } else {
          KeptWhenShort(b, on, m, es);
        }
      }
    } else {
      var es := EmptyInWindow(b, on, m);
      assert Ordered(es, b.replenishesAt, upTo) && Lawful(b, on, m, es);
    }
  }
}
