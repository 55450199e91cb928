/** How long a budgeted task really has the hart in whole runs of the kernel, and the run in
    which a quota does not hold it. */
module Consumption {
  import opened Lists
  import Budget
  import Quota
  import opened Kernel
  import opened Inheritance
  import opened Invariant
  import opened Runs
  import opened Charging
  import opened Deadlines

  // ---- Time on the hart ------------------------------------------------------------------------------

  /** When a step happens, as far as it reads the clock. */
  function Reading(op: Op, from: nat): nat {
    if Timed(op) then op.now else from
  }

  /** How long `t` is the current task from `from` to `z`, going by the clock readings. */
  ghost function HartTime(k: K, ops: seq<Op>, t: nat, from: nat, z: nat): nat
    requires Legal(k, ops) && Clocked(ops, from, z)
    decreases |ops|
  {
    if ops == [] then (if t == k.current then z - from else 0)
    else
      var m := Reading(ops[0], from);
      (if t == k.current then m - from else 0) + HartTime(Apply(k, ops[0]).0, ops[1..], t, m, z)
  }

  /** The events of `t` up to `z`, where a task still on the hart is looked at once more. */
  ghost function ClosedEvents(k: K, ops: seq<Op>, t: nat, z: nat): seq<Budget.Event>
    requires Inv(k) && Legal(k, ops) && t < N(k)
  {
    AllEvents(k, ops, t) + (if Run(k, ops).current == t then [Budget.SwitchOut(z)] else [])
  }

  // ---- Accounts of concatenated events ------------------------------------------------------------

  function OnAfter(on: Option<nat>, es: seq<Budget.Event>): Option<nat>
    decreases |es|
  {
    if es == [] then on else OnAfter(Quota.Onward(on, es[0]), es[1..])
  }

  function Plus(x: Quota.Account, y: Quota.Account): Quota.Account {
    Quota.Account(x.ran + y.ran, x.late + y.late, x.slow + y.slow, x.empty + y.empty)
  }

  lemma {:induction false} SpentAppend(b: Budget.State, on: Option<nat>, es: seq<Budget.Event>, fs: seq<Budget.Event>)
    requires Budget.Valid(b) && InTime(es) && InTime(fs)
    ensures InTime(es + fs) && Quota.InTime(es + fs) && Quota.InTime(es) && Quota.InTime(fs) && Budget.Valid(AfterAll(b, es))
    ensures Quota.Spent(b, on, es + fs) == Plus(Quota.Spent(b, on, es), Quota.Spent(AfterAll(b, es), OnAfter(on, es), fs))
    ensures Quota.Proper(on, es) && Quota.Proper(OnAfter(on, es), fs) ==> Quota.Proper(on, es + fs)
    decreases |es|
  {
    hide Budget.After, Quota.Onward, Quota.Stretch, Quota.LateAt, Quota.SlowAt, Quota.EmptyAt;
    if es == [] {
      assert es + fs == fs;
    } else {
      Budget.AfterValid(b, es[0]);
      assert (es + fs)[0] == es[0] && (es + fs)[1..] == es[1..] + fs;
      SpentAppend(Budget.After(b, es[0]), Quota.Onward(on, es[0]), es[1..], fs);
    }
  }

  // ---- One step --------------------------------------------------------------------------------------

  /** The possible events of one step for a task that has, or has not, the hart. */
  lemma EventShapes(k: K, op: Op, t: nat)
    requires Inv(k) && Enabled(k, op) && t < N(k) && !Resets(k, op, t)
    ensures var (es, r, m) := (EventsOf(k, op, t), Apply(k, op).0, if Timed(op) then op.now else 0);
      && (t == k.current ==>
            || ((es == [] || (Timed(op) && es == [Budget.Replenish(m)]) || (op.UnlocksScheduler? && es == [Budget.Unlock(m)])) && r.current == t)
            || (op.TimerFires? && es == [Budget.Timer(m, k.lockDepth[t] != 0)] && r.current == t)
            || (op.Traps? && es == [Budget.SwitchOut(m)] && r.current != t)
            || (op.Traps? && es == [Budget.SwitchOut(m), Budget.Dispatch(m)] && r.current == t))
      && (t != k.current ==>
            || ((es == [] || (Timed(op) && es == [Budget.Replenish(m)])) && r.current != t)
            || (op.Traps? && es == [Budget.Dispatch(m)] && r.current == t))
  {
    hide Core, Side, Apply, Dispatched;
    BudgetStep(k, op, t);
    if op.TimerFires? && t == k.current {
      assert k.state[t] == Running ==> RefillEvents(k, t, op.now) == [];
    }
  }

  /** What one step adds to the account of `t` is the time `t` had the hart in it. */
  lemma StepSpent(k: K, op: Op, t: nat, on: Option<nat>, from: nat)
    requires Inv(k) && Enabled(k, op) && t < N(k) && !Resets(k, op, t)
    requires (on.Some? <==> t == k.current) && (on.Some? ==> on.value <= from) && (Timed(op) ==> from <= op.now)
    ensures InTime(EventsOf(k, op, t)) && Quota.InTime(EventsOf(k, op, t)) && Budget.Valid(k.budget[t])
    ensures var (es, r, m) := (EventsOf(k, op, t), Apply(k, op).0, Reading(op, from));
      && Quota.Proper(on, es) && (OnAfter(on, es).Some? <==> t == r.current) && (OnAfter(on, es).Some? ==> OnAfter(on, es).value <= m)
      && Quota.Spent(k.budget[t], on, es).ran + (if t == r.current then m - OnAfter(on, es).value else 0)
         == (if t == k.current then m - on.value else 0)
  {
    hide Core, Side, Apply, EventsOf;
    BudgetStep(k, op, t);
    EventShapes(k, op, t);
    var es := EventsOf(k, op, t);
    FewSpent(k.budget[t], on, es);
    FewAfter(on, es);
  }

  lemma FewAfter(on: Option<nat>, es: seq<Budget.Event>)
    requires |es| <= 2
    ensures |es| == 0 ==> OnAfter(on, es) == on
    ensures |es| == 1 ==> OnAfter(on, es) == Quota.Onward(on, es[0])
    ensures |es| == 2 ==> OnAfter(on, es) == Quota.Onward(Quota.Onward(on, es[0]), es[1])
  {
    hide Quota.Onward;
    if |es| >= 1 {
      var on1 := Quota.Onward(on, es[0]);
      assert OnAfter(on, es) == OnAfter(on1, es[1..]);
      if |es| == 2 {
        assert es[1..] == [es[1]] && es[1..][1..] == [];
        assert OnAfter(on1, es[1..]) == OnAfter(Quota.Onward(on1, es[1]), []);
      }
    }
  }

  /** The accounts of at most two events, unfolded. */
  lemma FewSpent(b: Budget.State, on: Option<nat>, es: seq<Budget.Event>)
    requires Budget.Valid(b) && InTime(es) && |es| <= 2
    ensures Quota.InTime(es)
    ensures Quota.Spent(b, on, es).ran ==
      (if |es| == 0 then 0
       else if |es| == 1 then Quota.Stretch(on, es[0])
       else Quota.Stretch(on, es[0]) + Quota.Stretch(Quota.Onward(on, es[0]), es[1]))
    ensures Quota.Proper(on, es) <==>
      && (|es| >= 1 ==> (es[0].Dispatch? ==> on.None?) && (es[0].Timer? || es[0].SwitchOut? ==> on.Some?))
      && (|es| == 2 && es[1].Dispatch? ==> Quota.Onward(on, es[0]).None?)
      && (|es| == 2 && (es[1].Timer? || es[1].SwitchOut?) ==> Quota.Onward(on, es[0]).Some?)
  {
    hide Budget.After, Quota.Onward, Quota.Stretch, Quota.LateAt, Quota.SlowAt, Quota.EmptyAt;
    if |es| >= 1 {
      Budget.AfterValid(b, es[0]);
      var on1, b1 := Quota.Onward(on, es[0]), Budget.After(b, es[0]);
      if |es| == 2 {
        Budget.AfterValid(b1, es[1]);
        assert es[1..] == [es[1]] && es[1..][1..] == [];
        assert Quota.Spent(Budget.After(b1, es[1]), Quota.Onward(on1, es[1]), []).ran == 0;
        assert Quota.Proper(Quota.Onward(on1, es[1]), []);
      } else {
        assert es[1..] == [];
      }
    }
  }

  // ---- Whole runs ---------------------------------------------------------------------------------------

  /** A run in its first step and the rest. */
  lemma RunUnfolds(k: K, ops: seq<Op>, t: nat, from: nat, z: nat)
    requires Inv(k) && Legal(k, ops) && t < N(k) && OneLifetime(k, ops, t) && Clocked(ops, from, z) && ops != []
    ensures var (op, m, rest) := (ops[0], Reading(ops[0], from), ops[1..]);
      && Enabled(k, op) && !Resets(k, op, t) && (Timed(op) ==> from <= op.now)
      && var r := Apply(k, op).0;
         && Inv(r) && N(r) == N(k) && Legal(r, rest) && OneLifetime(r, rest, t) && Clocked(rest, m, z)
         && ClosedEvents(k, ops, t, z) == EventsOf(k, op, t) + ClosedEvents(r, rest, t, z)
         && HartTime(k, ops, t, from, z) == (if t == k.current then m - from else 0) + HartTime(r, rest, t, m, z)
  {
    hide Core, Side, Apply, EventsOf, Resets, Enabled;
    StepKeeps(k, ops[0]);
    SameSize(k, ops[0]);
  }

  lemma NoSteps(k: K, t: nat, on: Option<nat>, from: nat, z: nat)
    requires Inv(k) && t < N(k) && from <= z <= Budget.U64_MAX
    requires (on.Some? <==> t == k.current) && (on.Some? ==> on.value <= from)
    ensures var es := ClosedEvents(k, [], t, z);
      && InTime(es) && Quota.InTime(es) && Budget.Valid(k.budget[t]) && Quota.Proper(on, es)
      && Quota.Spent(k.budget[t], on, es).ran == HartTime(k, [], t, from, z) + (if on.Some? then from - on.value else 0)
  {
    hide Core, Side, Apply;
    assert Budget.Valid(k.budget[t]);
    var es := ClosedEvents(k, [], t, z);
    assert es == if t == k.current then [Budget.SwitchOut(z)] else [];
    FewSpent(k.budget[t], on, es);
    FewAfter(on, es);
  }

  /** The events of a run, accounted for from `on`, measure exactly the time `t` is the current
      task, plus what it had the hart before the run. */
  lemma {:induction false} HartTimeIsRan(k: K, ops: seq<Op>, t: nat, on: Option<nat>, from: nat, z: nat)
    requires Inv(k) && Legal(k, ops) && t < N(k) && OneLifetime(k, ops, t) && Clocked(ops, from, z) && z <= Budget.U64_MAX
    requires (on.Some? <==> t == k.current) && (on.Some? ==> on.value <= from)
    ensures var es := ClosedEvents(k, ops, t, z);
      && InTime(es) && Quota.InTime(es) && Budget.Valid(k.budget[t]) && Quota.Proper(on, es)
      && Quota.Spent(k.budget[t], on, es).ran == HartTime(k, ops, t, from, z) + (if on.Some? then from - on.value else 0)
    decreases |ops|
  {
    hide Core, Side, Apply, EventsOf, Resets, Legal, Run, ClosedEvents, HartTime, OneLifetime, Quota.Spent, Quota.Proper, OnAfter, AfterAll;
    if ops == [] {
      NoSteps(k, t, on, from, z);
    } else {
      var op, m := ops[0], Reading(ops[0], from);
      RunUnfolds(k, ops, t, from, z);
      var r, es := Apply(k, op).0, EventsOf(k, op, t);
      BudgetStep(k, op, t);
      StepSpent(k, op, t, on, from);
      HartTimeIsRan(r, ops[1..], t, OnAfter(on, es), m, z);
      SpentAppend(k.budget[t], on, es, ClosedEvents(r, ops[1..], t, z));
    }
  }

  lemma ClosedOrdered(k: K, ops: seq<Op>, t: nat, from: nat, z: nat)
    requires Inv(k) && Legal(k, ops) && t < N(k) && Clocked(ops, from, z)
    ensures Budget.Ordered(ClosedEvents(k, ops, t, z), from, z)
  {
    hide Core, Side, Run, Legal, AllEvents;
    RunOrdered(k, ops, t, from, z);
    ClockedBounds(ops, from, z);
    var es := AllEvents(k, ops, t);
    var gs := es + [Budget.SwitchOut(z)];
    assert forall i :: 0 <= i < |gs| ==> gs[i] == if i < |es| then es[i] else Budget.SwitchOut(z);
    assert es + [] == es;
  }

  /** Since when `t` has the hart at `a`. */
  function Since(k: K, t: nat, a: nat): Option<nat>
    requires Sized(k) && t < N(k)
  {
    if t != k.current then None else if k.budget[t].runningSince.Some? then k.budget[t].runningSince else Some(a)
  }

  /** The quota on consumption, for every run: over a stretch that touches `n` phase windows the
      task is current for at most `n + 1` capacities, plus the time its clock stood still (a
      pending overrun, or on the way to the switch), the time deadlines were missed by, and the
      time of stints dispatched empty. The second term vanishes if and only if no deadline is
      missed; the last one if no dispatch is empty. */
  lemma KernelConsumption(k: K, ops: seq<Op>, t: nat, origin: nat, a: nat, z: nat)
    requires Inv(k) && ClockSound(k) && Legal(k, ops) && t < N(k) && OneLifetime(k, ops, t) && Clocked(ops, a, z)
    requires Budget.InPhase(k.budget[t], origin) && origin <= a <= z < Budget.U64_MAX
    requires k.budget[t].runningSince.Some? ==> k.budget[t].runningSince.value <= a
    ensures var (b, on, es) := (k.budget[t], Since(k, t, a), ClosedEvents(k, ops, t, z));
      && Budget.Valid(b) && Quota.InTime(es)
      && var (spec, s) := (b.spec.value, Quota.Spent(b, on, es));
         var n := Budget.Window(origin, spec.period, z) - Budget.Window(origin, spec.period, a) + 1;
         && HartTime(k, ops, t, a, z) <= s.ran <= (n + 1) * spec.capacity + s.late + s.slow + s.empty
         && (s.slow == 0 <==> Quota.Prompt(b, on, es))
         && (!Quota.RunsEmpty(b) && Quota.NoEmptyDispatch(b, es) ==> s.empty == 0)
  {
    hide Core, Side, Legal, HartTime, ClosedEvents, OneLifetime, Clocked, Quota.Spent, Budget.Window, Budget.Ordered;
    var on := Since(k, t, a);
    HartTimeIsRan(k, ops, t, on, a, z);
    ClosedOrdered(k, ops, t, a, z);
    Quota.QuotaBound(k.budget[t], on, ClosedEvents(k, ops, t, z), origin, a, z);
  }

  // ---- The run in which the quota fails --------------------------------------------------------------

  const QUOTA: Budget.Spec := Budget.Spec(2, 100)

  /** Two tasks, the first one and idle, with nothing else in the system. */
  predicate Duo(k: K, s0: Status, s1: Status, cur: nat, target: Option<nat>, b0: Budget.State, wake: nat, queued: bool) {
    && Sized(k) && k.state == [s0, s1] && k.current == cur && k.count == [] && k.owner == [] && k.prio == [31, 31]
    && (target.None? ==> k.pending.None?)
    && (target.Some? ==> k.pending.Some? && k.pending.value.target == target.value && k.pending.value.previous == cur)
    && k.budget == [b0, Budget.Unbudgeted()] && k.wakeAt[0] == wake && !k.policy[0].Preemptive?
    && k.lockDepth == [0, 0] && k.call == [User, User] && k.waitSem == [None, None] && k.waitMtx == [None, None]
    && |k.q| == LEVELS && k.q[31] == (if queued then [0] else []) && forall l :: 0 <= l < 31 ==> k.q[l] == []
  }

  lemma Buckets(q: seq<seq<nat>>, l: nat)
    requires |q| == LEVELS && l <= 31 && forall i :: 0 <= i < 31 ==> q[i] == []
    ensures FirstBucket(q, l) == if q[31] == [] then 32 else 31
    decreases LEVELS - l
  {
    if l == 31 {
      assert FirstBucket(q, 32) == 32;
    } else {
      Buckets(q, l + 1);
    }
  }

  lemma BootDuo()
    ensures Duo(Boot(2, [], 0), Running, Ready, 0, None, Budget.Unbudgeted(), 0, false)
  {
  }

  lemma PolicyDuo(k: K)
    requires Duo(k, Running, Ready, 0, None, Budget.Unbudgeted(), 0, false)
    ensures var op := SetsPolicy(0, Budget.Budgeted(QUOTA), 0);
      Enabled(k, op) && Duo(Apply(k, op).0, Running, Ready, 0, None, Budget.State(Some(QUOTA), 2, 100, Some(0), false), 0, false)
  {
    hide InReady, Without;
  }

  lemma SleepDuo(k: K, b0: Budget.State, wake: nat, until: nat)
    requires Duo(k, Running, Ready, 0, None, b0, wake, false)
    ensures var op := Sleeps(until, true); Enabled(k, op) && Duo(Apply(k, op).0, Sleeping, Ready, 0, Some(IDLE), b0, until, false)
  {
    hide FirstBucket;
    Buckets(k.q, 0);
  }

  lemma AwayDuo(k: K, b0: Budget.State, wake: nat, now: nat)
    requires Duo(k, Sleeping, Ready, 0, Some(IDLE), b0, wake, false) && now <= Budget.U64_MAX
    ensures var op := Traps(now);
      Enabled(k, op) && Duo(Apply(k, op).0, Sleeping, Running, IDLE, None, Budget.OnSwitchOut(b0, now), wake, false)
  {
  }

  lemma NoRefills(k: K, n: nat, now: nat)
    requires Sized(k) && n <= N(k) && now <= Budget.U64_MAX && Throttled !in k.state
    ensures ReplenishFirst(k, n, now) == k
  {
  }

  lemma WokenDuo(k: K, b0: Budget.State, wake: nat, now: nat)
    requires Duo(k, Sleeping, Running, IDLE, None, b0, wake, false) && wake <= now
    ensures WakeOne(k, 0, now) == MakeReady(k, 0) && Duo(MakeReady(k, 0), Ready, Running, IDLE, None, b0, wake, true)
    ensures WakeOne(MakeReady(k, 0), 1, now) == MakeReady(k, 0)
  {
  }

  lemma WakeDuo(k: K, b0: Budget.State, wake: nat, now: nat)
    requires Duo(k, Sleeping, Running, IDLE, None, b0, wake, false) && wake <= now <= Budget.U64_MAX
    ensures var op := TimerFires(now, false);
      Enabled(k, op) && Duo(Apply(k, op).0, Ready, Running, IDLE, None, b0, wake, true)
  {
    hide WakeOne, ReplenishFirst, Sized, Budget.OnTimer, Budget.Valid, InReady;
    var k1 := MakeReady(k, 0);
    WokenDuo(k, b0, wake, now);
    assert WakeFirst(k, 0, now) == k;
    assert WakeFirst(k, 1, now) == k1;
    assert WakeFirst(k, 2, now) == k1;
    NoRefills(k1, 2, now);
    assert WakeSleepers(k, now) == k1;
    Uncharged(now);
    assert Sized(k1);
    assert ChargeCurrent(k1, now) == k1;
  }

  lemma Uncharged(now: nat)
    requires now <= Budget.U64_MAX
    ensures Budget.OnTimer(Budget.Unbudgeted(), now, false).0 == Budget.Unbudgeted()
    ensures !Budget.OnTimer(Budget.Unbudgeted(), now, false).1.ThrottleNow?
  {
  }

  lemma BackDuo(k: K, b0: Budget.State, wake: nat, now: nat)
    requires Duo(k, Ready, Running, IDLE, None, b0, wake, true) && now <= Budget.U64_MAX
    ensures var op := Traps(now);
      Enabled(k, op) && Duo(Apply(k, op).0, Running, Ready, 0, None, Budget.OnDispatch(b0, now), wake, false)
  {
    hide FirstBucket;
    Buckets(k.q, 0);
  }

  /** What each step tells the budget of task 0. */
  lemma DuoEvents(k: K, now: nat, until: nat)
    requires Sized(k) && k.current <= 1
    ensures EventsOf(k, Sleeps(until, true), 0) == []
    ensures k.current == IDLE && k.state[0] == Sleeping ==> EventsOf(k, TimerFires(now, false), 0) == []
    ensures k.pending.Some? && k.pending.value.target == IDLE && k.current == 0 ==> EventsOf(k, Traps(now), 0) == [Budget.SwitchOut(now)]
    ensures k.pending.None? && k.current == IDLE && MustYield(k, k.slicePending) && PopReady(k).1 == Some(0) ==>
      EventsOf(k, Traps(now), 0) == [Budget.Dispatch(now)]
  {
    hide MustYield, PopReady;
  }

  lemma DuoGivesWay(k: K, b0: Budget.State, wake: nat)
    requires Duo(k, Ready, Running, IDLE, None, b0, wake, true)
    ensures MustYield(k, k.slicePending) && PopReady(k).1 == Some(0) && k.pending.None?
  {
    hide FirstBucket;
    Buckets(k.q, 0);
  }

  /** Task 0 has the hart for `hart` and its budget sees `es`. */
  ghost predicate Traced(k: K, ops: seq<Op>, es: seq<Budget.Event>, hart: nat, from: nat, z: nat) {
    && Inv(k) && Legal(k, ops) && Clocked(ops, from, z) && OneLifetime(k, ops, 0)
    && AllEvents(k, ops, 0) == es && HartTime(k, ops, 0, from, z) == hart
  }

  lemma Prepend(k: K, op: Op, ops: seq<Op>, es: seq<Budget.Event>, hart: nat, from: nat, z: nat)
    requires Inv(k) && Enabled(k, op) && !Resets(k, op, 0) && ops != [] && ops[0] == op
    requires from <= Reading(op, from) && Traced(Apply(k, op).0, ops[1..], es, hart, Reading(op, from), z) && Reading(op, from) <= z
    ensures Traced(k, ops, EventsOf(k, op, 0) + es, (if k.current == 0 then Reading(op, from) - from else 0) + hart, from, z)
  {
    hide Core, Side, Apply, EventsOf, Resets, Enabled;
    StepKeeps(k, op);
  }

  /** Sleep after using the whole quota, be woken at once, and run on until `z`. */
  function EmptyRun(z: nat): seq<Op> {
    [Sleeps(3, true), Traps(2), TimerFires(3, false), Traps(3), Sleeps(z + 1, true), Traps(z)]
  }

  /** The budget of task 0 at first, after the charge of its first stint, and in the empty one. */
  const FRESH: Budget.State := Budget.State(Some(QUOTA), 2, 100, Some(0), false)
  const OUT: Budget.State := Budget.State(Some(QUOTA), 0, 100, None, false)
  const BACK: Budget.State := Budget.State(Some(QUOTA), 0, 100, Some(3), false)

  /** A step that happens, and what it tells the budget of task 0. */
  ghost predicate Leads(k: K, op: Op, es: seq<Budget.Event>) {
    Inv(k) && Enabled(k, op) && !Resets(k, op, 0) && EventsOf(k, op, 0) == es && Inv(Apply(k, op).0)
  }

  lemma SleepLeads(k: K, b0: Budget.State, wake: nat, until: nat)
    requires Inv(k) && Duo(k, Running, Ready, 0, None, b0, wake, false)
    ensures Leads(k, Sleeps(until, true), []) && Duo(Apply(k, Sleeps(until, true)).0, Sleeping, Ready, 0, Some(IDLE), b0, until, false)
  {
    hide Core, Side, Apply, EventsOf;
    SleepDuo(k, b0, wake, until);
    DuoEvents(k, 0, until);
    StepKeeps(k, Sleeps(until, true));
  }

  lemma AwayLeads(k: K, b0: Budget.State, wake: nat, now: nat)
    requires Inv(k) && Duo(k, Sleeping, Ready, 0, Some(IDLE), b0, wake, false) && now <= Budget.U64_MAX
    ensures Leads(k, Traps(now), [Budget.SwitchOut(now)])
    ensures Duo(Apply(k, Traps(now)).0, Sleeping, Running, IDLE, None, Budget.OnSwitchOut(b0, now), wake, false)
  {
    hide Core, Side, Apply, EventsOf, Budget.OnSwitchOut;
    AwayDuo(k, b0, wake, now);
    DuoEvents(k, now, 0);
    StepKeeps(k, Traps(now));
  }

  lemma WakeLeads(k: K, b0: Budget.State, wake: nat, now: nat)
    requires Inv(k) && Duo(k, Sleeping, Running, IDLE, None, b0, wake, false) && wake <= now <= Budget.U64_MAX
    ensures Leads(k, TimerFires(now, false), []) && Duo(Apply(k, TimerFires(now, false)).0, Ready, Running, IDLE, None, b0, wake, true)
  {
    hide Core, Side, Apply, EventsOf;
    WakeDuo(k, b0, wake, now);
    DuoEvents(k, now, 0);
    StepKeeps(k, TimerFires(now, false));
  }

  lemma BackLeads(k: K, b0: Budget.State, wake: nat, now: nat)
    requires Inv(k) && Duo(k, Ready, Running, IDLE, None, b0, wake, true) && now <= Budget.U64_MAX
    ensures Leads(k, Traps(now), [Budget.Dispatch(now)])
    ensures Duo(Apply(k, Traps(now)).0, Running, Ready, 0, None, Budget.OnDispatch(b0, now), wake, false)
  {
    hide Core, Side, Apply, EventsOf, MustYield, PopReady, Budget.OnDispatch;
    BackDuo(k, b0, wake, now);
    DuoGivesWay(k, b0, wake);
    DuoEvents(k, now, 0);
    StepKeeps(k, Traps(now));
  }

  lemma DuoCurrent(k: K, s0: Status, s1: Status, cur: nat, target: Option<nat>, b0: Budget.State, wake: nat, queued: bool)
    requires Duo(k, s0, s1, cur, target, b0, wake, queued)
    ensures Sized(k) && k.current == cur && N(k) == 2 && k.budget[0] == b0
  {
  }

  /** The second half: on the hart with nothing remaining, until `z`. */
  lemma RunsOn(k: K, z: nat)
    requires Inv(k) && Duo(k, Running, Ready, 0, None, BACK, 3, false) && 3 <= z <= Budget.U64_MAX
    ensures Traced(k, EmptyRun(z)[4..], [Budget.SwitchOut(z)], z - 3, 3, z)
  {
    hide Core, Side, Apply, EventsOf, Resets, Enabled, Duo;
    SleepLeads(k, BACK, 3, z + 1);
    var k1 := Apply(k, Sleeps(z + 1, true)).0;
    AwayLeads(k1, BACK, z + 1, z);
    var k2 := Apply(k1, Traps(z)).0;
    DuoCurrent(k, Running, Ready, 0, None, BACK, 3, false);
    DuoCurrent(k1, Sleeping, Ready, 0, Some(IDLE), BACK, z + 1, false);
    DuoCurrent(k2, Sleeping, Running, IDLE, None, Budget.OnSwitchOut(BACK, z), z + 1, false);
    assert EmptyRun(z)[4..] == [Sleeps(z + 1, true), Traps(z)];
    assert EmptyRun(z)[4..][1..] == [Traps(z)] && [Traps(z)][1..] == [];
    assert Traced(k2, [], [], 0, z, z);
    Prepend(k1, Traps(z), [Traps(z)], [], 0, 3, z);
    Prepend(k, Sleeps(z + 1, true), EmptyRun(z)[4..], [Budget.SwitchOut(z)], z - 3, 3, z);
  }

  ghost predicate Reaches(k: K, ops: seq<Op>, r: K) {
    Legal(k, ops) && Run(k, ops) == r
  }

  lemma ReachesBy(k: K, ops: seq<Op>, r: K)
    requires Sized(k) && ops != [] && Enabled(k, ops[0])
    requires (ops[1..] == [] && Apply(k, ops[0]).0 == r) || Reaches(Apply(k, ops[0]).0, ops[1..], r)
    ensures Reaches(k, ops, r)
  {
    hide Apply, Fits, Sized;
    var k1 := Apply(k, ops[0]).0;
    assert ops[1..] == [] ==> Legal(k1, []) && Run(k1, []) == k1;
  }

  /** The first half: out with the quota used up, woken, and back on the hart at once. */
  ghost predicate Returned(k: K, k1: K, k2: K, k3: K, k4: K) {
    && Leads(k, Sleeps(3, true), []) && k1 == Apply(k, Sleeps(3, true)).0
    && Leads(k1, Traps(2), [Budget.SwitchOut(2)]) && k2 == Apply(k1, Traps(2)).0
    && Leads(k2, TimerFires(3, false), []) && k3 == Apply(k2, TimerFires(3, false)).0
    && Leads(k3, Traps(3), [Budget.Dispatch(3)]) && k4 == Apply(k3, Traps(3)).0
    && k.current == 0 && k1.current == 0 && k2.current == IDLE && k3.current == IDLE
  }

  lemma Returns(k: K) returns (k1: K, k2: K, k3: K, k4: K)
    requires Inv(k) && Duo(k, Running, Ready, 0, None, FRESH, 0, false)
    ensures Returned(k, k1, k2, k3, k4) && Inv(k4) && Duo(k4, Running, Ready, 0, None, BACK, 3, false)
  {
    hide Core, Side, Apply, EventsOf, Resets, Enabled, Duo;
    SleepLeads(k, FRESH, 0, 3);
    k1 := Apply(k, Sleeps(3, true)).0;
    DuoCurrent(k, Running, Ready, 0, None, FRESH, 0, false);
    DuoCurrent(k1, Sleeping, Ready, 0, Some(IDLE), FRESH, 3, false);
    AwayLeads(k1, FRESH, 3, 2);
    k2 := Apply(k1, Traps(2)).0;
    DuoCurrent(k2, Sleeping, Running, IDLE, None, OUT, 3, false);
    WakeLeads(k2, OUT, 3, 3);
    k3 := Apply(k2, TimerFires(3, false)).0;
    DuoCurrent(k3, Ready, Running, IDLE, None, OUT, 3, true);
    BackLeads(k3, OUT, 3, 3);
    k4 := Apply(k3, Traps(3)).0;
  }

  lemma ReturnReaches(k: K, k1: K, k2: K, k3: K, k4: K, z: nat)
    requires Returned(k, k1, k2, k3, k4)
    ensures Reaches(k, EmptyRun(z)[..4], k4)
  {
    hide Core, Side, Apply, EventsOf, Resets, Enabled, Reaches;
    var ops := EmptyRun(z)[..4];
    assert ops[1..][1..] == [ops[2], ops[3]] && ops[1..][1..][1..] == [ops[3]] && ops[1..][1..][1..][1..] == [];
    ReachesBy(k3, [ops[3]], k4);
    ReachesBy(k2, [ops[2], ops[3]], k4);
    ReachesBy(k1, ops[1..], k4);
    ReachesBy(k, ops, k4);
  }

  lemma ReturnTraced(k: K, k1: K, k2: K, k3: K, k4: K, z: nat)
    requires Returned(k, k1, k2, k3, k4) && 3 <= z && Traced(k4, EmptyRun(z)[4..], [Budget.SwitchOut(z)], z - 3, 3, z)
    ensures Traced(k, EmptyRun(z), [Budget.SwitchOut(2), Budget.Dispatch(3), Budget.SwitchOut(z)], z - 1, 0, z)
  {
    hide Core, Side, Apply, EventsOf, Resets, Enabled, Traced;
    var ops := EmptyRun(z);
    assert ops[1..][1..] == ops[2..] && ops[2..][1..] == ops[3..] && ops[3..][1..] == ops[4..];
    Prepend(k3, ops[3], ops[3..], [Budget.SwitchOut(z)], z - 3, 3, z);
    assert [] + [Budget.Dispatch(3), Budget.SwitchOut(z)] == [Budget.Dispatch(3), Budget.SwitchOut(z)];
    assert [] + [Budget.SwitchOut(2), Budget.Dispatch(3), Budget.SwitchOut(z)] == [Budget.SwitchOut(2), Budget.Dispatch(3), Budget.SwitchOut(z)];
    assert [Budget.SwitchOut(2)] + [Budget.Dispatch(3), Budget.SwitchOut(z)] == [Budget.SwitchOut(2), Budget.Dispatch(3), Budget.SwitchOut(z)];
    assert [Budget.Dispatch(3)] + [Budget.SwitchOut(z)] == [Budget.Dispatch(3), Budget.SwitchOut(z)];
    Prepend(k2, ops[2], ops[2..], [Budget.Dispatch(3), Budget.SwitchOut(z)], z - 3, 2, z);
    Prepend(k1, ops[1], ops[1..], [Budget.Dispatch(3), Budget.SwitchOut(z)], z - 3, 0, z);
    Prepend(k, ops[0], ops, [Budget.SwitchOut(2), Budget.Dispatch(3), Budget.SwitchOut(z)], z - 1, 0, z);
  }

  /** The account of those three events: two charged, all the rest empty. */
  lemma EmptyAccount(z: nat)
    requires 3 <= z <= Budget.U64_MAX
    ensures var es := [Budget.SwitchOut(2), Budget.Dispatch(3), Budget.SwitchOut(z)];
      && Quota.InTime(es) && Quota.Prompt(FRESH, Some(0), es) && Budget.Charged(FRESH, es) == 2
      && Quota.Spent(FRESH, Some(0), es) == Quota.Account(z - 1, 0, 0, z - 3)
  {
    var es := [Budget.SwitchOut(2), Budget.Dispatch(3), Budget.SwitchOut(z)];
    assert es[1..] == [es[1], es[2]] && es[1..][1..] == [es[2]] && es[1..][1..][1..] == [];
    assert Budget.After(FRESH, es[0]) == OUT && Budget.After(OUT, es[1]) == BACK && Budget.After(BACK, es[2]) == OUT;
    assert Quota.Spent(OUT, None, []) == Quota.Account(0, 0, 0, 0) && Budget.Charged(OUT, []) == 0 && Quota.Prompt(OUT, None, []);
    assert Quota.Spent(BACK, Some(3), [es[2]]) == Quota.Account(z - 3, 0, 0, z - 3);
    assert Quota.Spent(OUT, None, es[1..]) == Quota.Account(z - 3, 0, 0, z - 3);
    assert Budget.Charged(BACK, [es[2]]) == 0 && Budget.Charged(OUT, es[1..]) == 0;
    assert Quota.Prompt(BACK, Some(3), [es[2]]) && Quota.Prompt(OUT, None, es[1..]);
  }

  /** A quota of two milliseconds in a hundred does not hold. In a run from boot the task sleeps
      just as its quota is used up, so its exhaustion is charged at the switch-out and throttles
      nobody; it is woken, dispatched with nothing remaining, and has the hart until `z`, as long
      as one likes. Two milliseconds are charged; no lock and no overrun is involved and no
      deadline is missed, because in that stint (`k4` on) the scheduler arms none. */
  lemma QuotaFails(z: nat) returns (k: K, k4: K)
    requires 3 <= z <= Budget.U64_MAX
    ensures var (boot, install) := (Boot(2, [], 0), SetsPolicy(0, Budget.Budgeted(QUOTA), 0));
      Inv(boot) && Enabled(boot, install) && k == Apply(boot, install).0
    ensures var es := [Budget.SwitchOut(2), Budget.Dispatch(3), Budget.SwitchOut(z)];
      && Traced(k, EmptyRun(z), es, z - 1, 0, z) && N(k) == 2 && k.budget[0] == FRESH
      && Quota.InTime(es) && Quota.Prompt(FRESH, Some(0), es) && Budget.Charged(FRESH, es) == 2
      && Quota.Spent(FRESH, Some(0), es) == Quota.Account(z - 1, 0, 0, z - 3)
    ensures Reaches(k, EmptyRun(z)[..4], k4) && Sized(k4)
      && forall now: nat, limit: nat :: NextDeadline(k4, now, 0, limit, None) == None
    ensures z < QUOTA.period ==> Budget.Window(0, QUOTA.period, z) == Budget.Window(0, QUOTA.period, 0)
  {
    hide Core, Side, Apply, Duo, Boot, Traced, Reaches, Returned, EmptyRun, NextDeadline, Quota.Spent, Quota.Prompt, Budget.Charged;
    var boot, install := Boot(2, [], 0), SetsPolicy(0, Budget.Budgeted(QUOTA), 0);
    BootKeeps(2, [], 0);
    BootDuo();
    PolicyDuo(boot);
    StepKeeps(boot, install);
    k := Apply(boot, install).0;
    DuoCurrent(k, Running, Ready, 0, None, FRESH, 0, false);
    var k1, k2, k3;
    k1, k2, k3, k4 := Returns(k);
    RunsOn(k4, z);
    ReturnReaches(k, k1, k2, k3, k4, z);
    ReturnTraced(k, k1, k2, k3, k4, z);
    EmptyAccount(z);
    forall now: nat, limit: nat ensures NextDeadline(k4, now, 0, limit, None) == None {
      NoDeadline(k4, now, limit);
    }
  }

  /** The task runs with nothing remaining, and the timer is disarmed. */
  lemma NoDeadline(k: K, now: nat, limit: nat)
    requires Duo(k, Running, Ready, 0, None, BACK, 3, false)
    ensures NextDeadline(k, now, 0, limit, None) == None
  {
    hide NextDeadline, WakeDeadline, RefillDeadline;
    NothingArmed(k, now, 0, limit, None);
  }
}
