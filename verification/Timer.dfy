/** The timer re-arm loop, run by any number of callers that preempt each other anywhere: claim
    a generation and compute a deadline, program the hardware, check that the claim is still
    the latest, and otherwise start over. */
module Timer {
  import opened Lists
  import opened Arith

  const U64_MAX: nat := 0xFFFF_FFFF_FFFF_FFFF
  /** Generations wrap around after this many claims. */
  const WRAP: nat := 0x1_0000_0000_0000_0000

  // ---- What gets programmed ----------------------------------------------------------------------

  function Earlier(a: Option<nat>, b: Option<nat>): Option<nat> {
    match (a, b)
    case (None, _) => b
    case (_, None) => a
    case (Some(x), Some(y)) => Some(if y < x then y else x)
  }

  /** `earliest_deadline` over its five sources. */
  function EarliestDeadline(wake: Option<nat>, slice: Option<nat>, budget: Option<nat>, lock: Option<nat>, embassy: Option<nat>): Option<nat> {
    Earlier(Earlier(Earlier(Earlier(wake, slice), budget), lock), embassy)
  }

  /** Nothing is missed: the earliest deadline is one of the sources and none is earlier. */
  lemma EarliestIsLeast(wake: Option<nat>, slice: Option<nat>, budget: Option<nat>, lock: Option<nat>, embassy: Option<nat>)
    ensures var (r, all) := (EarliestDeadline(wake, slice, budget, lock, embassy), [wake, slice, budget, lock, embassy]);
      && (r.None? <==> forall i :: 0 <= i < 5 ==> all[i].None?)
      && (r.Some? ==> (exists i :: 0 <= i < 5 && all[i] == r) && forall i :: 0 <= i < 5 && all[i].Some? ==> r.value <= all[i].value)
  {
    var r, all := EarliestDeadline(wake, slice, budget, lock, embassy), [wake, slice, budget, lock, embassy];
    assert all[0] == wake && all[1] == slice && all[2] == budget && all[3] == lock && all[4] == embassy;
    if r.Some? {
      var i := if r == wake then 0 else if r == slice then 1 else if r == budget then 2 else if r == lock then 3 else 4;
      assert all[i] == r;
    }
  }

  datatype Command = Arm(delay: nat) | Disarm

  /** Saturating distance to the deadline, at least one tick, at most what the port can time. */
  function CommandFor(now: nat, deadline: Option<nat>, maxDelay: nat): (c: Command)
    requires 1 <= maxDelay
    ensures c.Disarm? <==> deadline.None?
    ensures c.Arm? ==> 1 <= c.delay <= maxDelay && (now + c.delay <= deadline.value || c.delay == 1)
  {
    match deadline
    case None => Disarm
    case Some(d) =>
      var remaining := if d > now + 1 then d - now else 1;
      Arm(if remaining < maxDelay then remaining else maxDelay)
  }

  // ---- The protocol ------------------------------------------------------------------------------------

  /** Where a caller of `rearm_timer` is. `serial` counts claims without wrapping; the code only
      sees it modulo 2^64. */
  datatype Phase =
    | Outside
    | Claimed(serial: nat, command: Command)
    | Programmed(serial: nat)
    | MustRetry

  datatype Timers = Timers(claims: nat, latest: Command, hardware: Command, callers: seq<Phase>)

  datatype Step =
    | Claims(c: nat, now: nat, deadline: Option<nat>)
    | Programs(c: nat)
    | Checks(c: nat)

  predicate Enabled(s: Timers, e: Step) {
    e.c < |s.callers| &&
    match e
    case Claims(c, _, _) => s.callers[c].Outside? || s.callers[c].MustRetry?
    case Programs(c) => s.callers[c].Claimed?
    case Checks(c) => s.callers[c].Programmed?
  }

  /** `timer_rearm_ticket_is_current`, on wrapped generations. */
  predicate LooksCurrent(s: Timers, serial: nat) {
    s.claims % WRAP == serial % WRAP
  }

  function Next(s: Timers, e: Step, maxDelay: nat): Timers
    requires Enabled(s, e) && 1 <= maxDelay
  {
    match e
    case Claims(c, now, deadline) =>
      var command := CommandFor(now, deadline, maxDelay);
      s.(claims := s.claims + 1, latest := command, callers := s.callers[c := Claimed(s.claims + 1, command)])
    case Programs(c) =>
      s.(hardware := s.callers[c].command, callers := s.callers[c := Programmed(s.callers[c].serial)])
    case Checks(c) =>
      s.(callers := s.callers[c := if LooksCurrent(s, s.callers[c].serial) then Outside else MustRetry])
  }

  // ---- The invariant -----------------------------------------------------------------------------------

  /** Caller `c` will still correct the hardware: it holds the latest claim and has yet to
      program it, or it programmed a stale command and has yet to find out or to retry. */
  predicate Owes(s: Timers, c: nat)
    requires c < |s.callers|
  {
    match s.callers[c]
    case Outside => false
    case Claimed(serial, _) => serial == s.claims
    case Programmed(serial) => serial != s.claims
    case MustRetry => true
  }

  ghost predicate Consistent(s: Timers) {
    && (forall c :: 0 <= c < |s.callers| && s.callers[c].Claimed? ==>
          s.callers[c].serial <= s.claims && (s.callers[c].serial == s.claims ==> s.callers[c].command == s.latest))
    && (forall c :: 0 <= c < |s.callers| && s.callers[c].Programmed? ==> s.callers[c].serial <= s.claims)
    && (s.hardware == s.latest || exists c :: 0 <= c < |s.callers| && Owes(s, c))
  }

  /** A ticket is not checked when exactly 2^64 claims, or a multiple, have passed since its own. */
  predicate Timely(s: Timers, e: Step)
    requires Enabled(s, e)
  {
    e.Checks? ==>
      var age := s.claims - s.callers[e.c].serial;
      age == 0 || age % WRAP != 0
  }

  /** A check is right exactly about such tickets, in particular about all younger than a wrap. */
  lemma CheckExact(s: Timers, serial: nat)
    requires serial <= s.claims
    ensures (LooksCurrent(s, serial) <==> serial == s.claims) <==> (serial == s.claims || (s.claims - serial) % WRAP != 0)
    ensures s.claims - serial < WRAP ==> (LooksCurrent(s, serial) <==> serial == s.claims)
  {
    ModDifference(s.claims, serial, WRAP);
  }

  lemma StepConsistent(s: Timers, e: Step, maxDelay: nat)
    requires Consistent(s) && Enabled(s, e) && Timely(s, e) && 1 <= maxDelay
    ensures Consistent(Next(s, e, maxDelay))
  {
    var r := Next(s, e, maxDelay);
    match e
    case Claims(c, _, _) =>
      assert Owes(r, c);
    case Programs(c) =>
      if s.callers[c].serial != s.claims {
        assert Owes(r, c);
      }
    case Checks(c) =>
      CheckExact(s, s.callers[c].serial);
      if s.callers[c].serial != s.claims {
        assert Owes(r, c);
      } else if s.hardware != s.latest {
        var d :| 0 <= d < |s.callers| && Owes(s, d);
        assert Owes(r, d);
      }
  }

  // ---- Runs ------------------------------------------------------------------------------------------------

  /** Before the first claim the timer is disarmed and nobody is in the loop. */
  predicate Initial(s: Timers) {
    s.claims == 0 && s.latest == Disarm == s.hardware && forall c :: 0 <= c < |s.callers| ==> s.callers[c].Outside?
  }

  ghost predicate Legal(s: Timers, es: seq<Step>, maxDelay: nat)
    requires 1 <= maxDelay
    decreases |es|
  {
    es == [] || (Enabled(s, es[0]) && Legal(Next(s, es[0], maxDelay), es[1..], maxDelay))
  }

  ghost function Run(s: Timers, es: seq<Step>, maxDelay: nat): Timers
    requires 1 <= maxDelay && Legal(s, es, maxDelay)
    decreases |es|
  {
    if es == [] then s else Run(Next(s, es[0], maxDelay), es[1..], maxDelay)
  }

  /** No caller is stopped inside the loop for exactly 2^64 claims. */
  ghost predicate AllTimely(s: Timers, es: seq<Step>, maxDelay: nat)
    requires 1 <= maxDelay && Legal(s, es, maxDelay)
    decreases |es|
  {
    es == [] || (Timely(s, es[0]) && AllTimely(Next(s, es[0], maxDelay), es[1..], maxDelay))
  }

  lemma {:induction false} RunConsistent(s: Timers, es: seq<Step>, maxDelay: nat)
    requires 1 <= maxDelay && Consistent(s) && Legal(s, es, maxDelay) && AllTimely(s, es, maxDelay)
    ensures Consistent(Run(s, es, maxDelay))
    decreases |es|
  {
    if es != [] {
      StepConsistent(s, es[0], maxDelay);
      RunConsistent(Next(s, es[0], maxDelay), es[1..], maxDelay);
    }
  }

  /** Whenever no caller is inside the loop, the hardware holds what the latest claim computed,
      whatever the callers did to each other before. */
  lemma QuiescentIsCurrent(s: Timers, es: seq<Step>, maxDelay: nat)
    requires 1 <= maxDelay && Initial(s) && Legal(s, es, maxDelay) && AllTimely(s, es, maxDelay)
    requires var r := Run(s, es, maxDelay); forall c :: 0 <= c < |r.callers| ==> r.callers[c].Outside?
    ensures var r := Run(s, es, maxDelay); r.hardware == r.latest
  {
    RunConsistent(s, es, maxDelay);
  }

  /** A caller nobody interferes with leaves after one round. */
  lemma AloneLeaves(s: Timers, c: nat, now: nat, deadline: Option<nat>, maxDelay: nat)
    requires 1 <= maxDelay && Enabled(s, Claims(c, now, deadline))
    ensures var es := [Claims(c, now, deadline), Programs(c), Checks(c)];
      Legal(s, es, maxDelay) &&
      Run(s, es, maxDelay) ==
        s.(claims := s.claims + 1, latest := CommandFor(now, deadline, maxDelay), hardware := CommandFor(now, deadline, maxDelay),
           callers := s.callers[c := Outside])
  {
    var es := [Claims(c, now, deadline), Programs(c), Checks(c)];
    var s1 := Next(s, es[0], maxDelay);
    var s2 := Next(s1, es[1], maxDelay);
    var s3 := Next(s2, es[2], maxDelay);
    assert es[1..] == [Programs(c), Checks(c)] && es[1..][1..] == [Checks(c)] && es[1..][1..][1..] == [];
    assert Legal(s3, [], maxDelay) && Run(s3, [], maxDelay) == s3;
    assert Legal(s2, es[1..][1..], maxDelay) && Run(s2, es[1..][1..], maxDelay) == s3;
    assert Legal(s1, es[1..], maxDelay) && Run(s1, es[1..], maxDelay) == s3;
    assert s.callers[c := Claimed(s.claims + 1, s1.latest)][c := Programmed(s.claims + 1)][c := Outside] == s.callers[c := Outside];
  }

  // ---- Why the age bound is needed --------------------------------------------------------------------------

  /** `n` undisturbed rounds of caller 1. */
  function Rounds(n: nat): (es: seq<Step>)
  {
    if n == 0 then [] else [Claims(1, 0, Some(5)), Programs(1), Checks(1)] + Rounds(n - 1)
  }

  /** Caller 0 holds claim 1 and sleeps while caller 1 goes round and round. */
  function Asleep(claims: nat): Timers {
    Timers(claims, Arm(5), Arm(5), [Claimed(1, Arm(9)), Outside])
  }

  lemma {:induction false} RoundsRun(claims: nat, n: nat, maxDelay: nat)
    requires maxDelay >= 10
    ensures Legal(Asleep(claims), Rounds(n), maxDelay) && Run(Asleep(claims), Rounds(n), maxDelay) == Asleep(claims + n)
    decreases n
  {
    if n > 0 {
      AloneLeaves(Asleep(claims), 1, 0, Some(5), maxDelay);
      RoundsRun(claims + 1, n - 1, maxDelay);
      var es := [Claims(1, 0, Some(5)), Programs(1), Checks(1)];
      assert Asleep(claims).callers[1 := Outside] == Asleep(claims).callers;
      RunAppend(Asleep(claims), es, Rounds(n - 1), maxDelay);
    }
  }

  lemma {:induction false} RunAppend(s: Timers, es: seq<Step>, fs: seq<Step>, maxDelay: nat)
    requires 1 <= maxDelay && Legal(s, es, maxDelay) && Legal(Run(s, es, maxDelay), fs, maxDelay)
    ensures Legal(s, es + fs, maxDelay) && Run(s, es + fs, maxDelay) == Run(Run(s, es, maxDelay), fs, maxDelay)
    decreases |es|
  {
    if es == [] {
      assert es + fs == fs;
    } else {
      RunAppend(Next(s, es[0], maxDelay), es[1..], fs, maxDelay);
      assert (es + fs)[0] == es[0] && (es + fs)[1..] == es[1..] + fs;
    }
  }

  /** After 2^64 claims caller 0 wakes, programs its command, passes the check and leaves. */
  lemma LateLeaves(maxDelay: nat)
    requires maxDelay >= 10
    ensures var es := [Programs(0), Checks(0)];
      Legal(Asleep(WRAP + 1), es, maxDelay) &&
      Run(Asleep(WRAP + 1), es, maxDelay) == Timers(WRAP + 1, Arm(5), Arm(9), [Outside, Outside])
  {
    var late, es := Asleep(WRAP + 1), [Programs(0), Checks(0)];
    var s2 := Next(late, es[0], maxDelay);
    CheckExact(s2, 1);
    var s3 := Next(s2, es[1], maxDelay);
    assert s3.callers == [Outside, Outside];
    assert es[1..] == [Checks(0)] && es[1..][1..] == [];
    assert Legal(s3, [], maxDelay) && Legal(s2, es[1..], maxDelay) && Run(s2, es[1..], maxDelay) == s3;
  }

  /** Caller 0 claims, and caller 1 goes round once. */
  lemma FallsAsleep(maxDelay: nat)
    requires maxDelay >= 10
    ensures var s := Timers(0, Disarm, Disarm, [Outside, Outside]);
      var es := [Claims(0, 0, Some(9))] + [Claims(1, 0, Some(5)), Programs(1), Checks(1)];
      Legal(s, es, maxDelay) && Run(s, es, maxDelay) == Asleep(2)
  {
    var s, first := Timers(0, Disarm, Disarm, [Outside, Outside]), [Claims(0, 0, Some(9))];
    var s1 := Next(s, first[0], maxDelay);
    assert first[1..] == [] && Legal(s1, [], maxDelay) && Run(s, first, maxDelay) == s1;
    assert s1 == Timers(1, Arm(9), Disarm, [Claimed(1, Arm(9)), Outside]);
    AloneLeaves(s1, 1, 0, Some(5), maxDelay);
    assert s1.callers[1 := Outside] == s1.callers;
    RunAppend(s, first, [Claims(1, 0, Some(5)), Programs(1), Checks(1)], maxDelay);
  }

  /** Without that condition the claim is false: a ticket exactly 2^64 claims old passes the
      check, its caller leaves, and the hardware keeps the stale command. */
  lemma WrapBreaks(maxDelay: nat)
    requires maxDelay >= 10
    ensures exists s, es ::
      && Initial(s) && Legal(s, es, maxDelay)
      && (var r := Run(s, es, maxDelay);
          (forall c :: 0 <= c < |r.callers| ==> r.callers[c].Outside?) && r.hardware != r.latest)
  {
    hide Legal, Run, Next;
    var s, es := Timers(0, Disarm, Disarm, [Outside, Outside]), [Claims(0, 0, Some(9))] + [Claims(1, 0, Some(5)), Programs(1), Checks(1)];
    FallsAsleep(maxDelay);
    RoundsRun(2, WRAP - 1, maxDelay);
    RunAppend(s, es, Rounds(WRAP - 1), maxDelay);
    LateLeaves(maxDelay);
    RunAppend(s, es + Rounds(WRAP - 1), [Programs(0), Checks(0)], maxDelay);
  }
}
