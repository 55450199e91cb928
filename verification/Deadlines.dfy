/** The deadlines the timer is armed for, and what an armed, quiet timer therefore promises. */
module Deadlines {
  import opened Lists
  import Budget
  import opened Kernel
  import Timer

  // ---- The queries --------------------------------------------------------------------------------

  /** Whether `t` waits for a point in time. */
  predicate Awaits(k: K, t: nat)
    requires Sized(k) && t < N(k)
  {
    (k.state[t] == Sleeping || k.state[t] == Blocked) && k.wakeAt[t] != 0
  }

  /** `earliest_wake_deadline`, over the first `n` tasks. */
  function WakeDeadline(k: K, n: nat): (r: Option<nat>)
    requires Sized(k) && n <= N(k)
    ensures forall t :: 0 <= t < n && Awaits(k, t) ==> r.Some? && r.value <= k.wakeAt[t]
    ensures r.Some? ==> exists t :: 0 <= t < n && Awaits(k, t) && r.value == k.wakeAt[t]
  {
    if n == 0 then None
    else Timer.Earlier(WakeDeadline(k, n - 1), if Awaits(k, n - 1) then Some(k.wakeAt[n - 1]) else None)
  }

  /** The earliest boundary of a throttled task among the first `n`. */
  function RefillDeadline(k: K, n: nat): (r: Option<nat>)
    requires Sized(k) && n <= N(k)
    ensures forall t :: 0 <= t < n && k.state[t] == Throttled && k.budget[t].replenishesAt != 0 ==>
      r.Some? && r.value <= k.budget[t].replenishesAt
    ensures r.Some? ==> exists t :: 0 <= t < n && k.state[t] == Throttled && r.value == k.budget[t].replenishesAt
  {
    if n == 0 then None
    else Timer.Earlier(RefillDeadline(k, n - 1),
                       if k.state[n - 1] == Throttled && k.budget[n - 1].replenishesAt != 0 then Some(k.budget[n - 1].replenishesAt) else None)
  }

  /** When the running task exhausts its budget. */
  function CurrentExhaustion(k: K): Option<nat>
    requires Sized(k)
  {
    if k.state[k.current] == Running then Budget.ExhaustionDeadline(k.budget[k.current]) else None
  }

  /** `earliest_budget_deadline`. */
  function BudgetDeadline(k: K): Option<nat>
    requires Sized(k)
  {
    Timer.Earlier(CurrentExhaustion(k), RefillDeadline(k, N(k)))
  }

  /** `scheduler_lock_deadline`. */
  function LockDeadline(k: K, limit: nat): Option<nat>
    requires Sized(k)
  {
    var c := k.current;
    if k.state[c] == Running && k.lockDepth[c] != 0 && k.lockStart[c].Some? then Some(Budget.SatAdd(k.lockStart[c].value, limit)) else None
  }

  /** `next_time_slice_deadline`: the deadline, and what is stored of it; zero stands for none. */
  function SliceDeadline(k: K, now: nat, slice: nat): (Option<nat>, nat)
    requires Sized(k)
  {
    var c := k.current;
    if !k.policy[c].Preemptive? || k.q[k.prio[c]] == [] then (None, 0)
    else
      var at := if slice == 0 then Budget.SatAdd(now, k.policy[c].timeSlice) else slice;
      (Some(at), at)
  }

  /** `next_dispatch_deadline`: at once if the running task has to give way already, else the
      end of its slice. */
  function DispatchDeadline(k: K, now: nat, slice: nat): (Option<nat>, nat)
    requires Sized(k)
  {
    if MustYield(k, false) then (Some(now), slice) else SliceDeadline(k, now, slice)
  }

  /** The deadline `rearm_timer` computes in its critical section. */
  function NextDeadline(k: K, now: nat, slice: nat, limit: nat, embassy: Option<nat>): Option<nat>
    requires Sized(k)
  {
    Timer.EarliestDeadline(WakeDeadline(k, N(k)), DispatchDeadline(k, now, slice).0, BudgetDeadline(k), LockDeadline(k, limit), embassy)
  }

  // ---- What is covered -----------------------------------------------------------------------------

  /** The deadline `d` is not missed: the timer is to fire at it or before. */
  predicate Covers(next: Option<nat>, d: nat) {
    next.Some? && next.value <= d
  }

  /** Everything the scheduler waits for is covered: every sleeper and timed waiter, the
      exhaustion of the running budget, every throttled task's boundary, the lock limit, and at
      once a running task that has to give way. */
  lemma EverythingCovered(k: K, now: nat, slice: nat, limit: nat, embassy: Option<nat>, t: nat)
    requires Sized(k) && t < N(k)
    ensures var next := NextDeadline(k, now, slice, limit, embassy);
      && (Awaits(k, t) ==> Covers(next, k.wakeAt[t]))
      && (k.state[t] == Throttled ==> k.budget[t].spec.Some? ==> Covers(next, k.budget[t].replenishesAt))
      && (CurrentExhaustion(k).Some? ==> Covers(next, CurrentExhaustion(k).value))
      && (LockDeadline(k, limit).Some? ==> Covers(next, LockDeadline(k, limit).value))
      && (MustYield(k, false) ==> Covers(next, now))
      && (embassy.Some? ==> Covers(next, embassy.value))
  {
    hide MustYield, WakeDeadline, RefillDeadline, LockDeadline, SliceDeadline, CurrentExhaustion;
    assert Budget.Valid(k.budget[t]);
    Timer.EarliestIsLeast(WakeDeadline(k, N(k)), DispatchDeadline(k, now, slice).0, BudgetDeadline(k), LockDeadline(k, limit), embassy);
    assert Awaits(k, t) ==> Covers(WakeDeadline(k, N(k)), k.wakeAt[t]);
  }

  /** The timer is left disarmed exactly when nothing at all is waited for. In particular a
      running budget with nothing remaining asks for no interrupt. */
  lemma NothingArmed(k: K, now: nat, slice: nat, limit: nat, embassy: Option<nat>)
    requires Sized(k)
    ensures NextDeadline(k, now, slice, limit, embassy) == None <==>
      && (forall t :: 0 <= t < N(k) ==> !Awaits(k, t) && (k.state[t] == Throttled ==> k.budget[t].replenishesAt == 0))
      && CurrentExhaustion(k) == None && LockDeadline(k, limit) == None && !MustYield(k, false)
      && SliceDeadline(k, now, slice).0 == None && embassy == None
    ensures k.state[k.current] == Running && k.budget[k.current].spec.Some? ==>
      (CurrentExhaustion(k) == None <==> k.budget[k.current].remaining == 0 || k.budget[k.current].runningSince.None?)
  {
    hide MustYield, LockDeadline, SliceDeadline;
    NoneArmed(k, N(k));
  }

  lemma {:induction false} NoneArmed(k: K, n: nat)
    requires Sized(k) && n <= N(k)
    ensures WakeDeadline(k, n) == None <==> forall t :: 0 <= t < n ==> !Awaits(k, t)
    ensures RefillDeadline(k, n) == None <==> forall t :: 0 <= t < n && k.state[t] == Throttled ==> k.budget[t].replenishesAt == 0
  {
    if n > 0 {
      NoneArmed(k, n - 1);
    }
  }

  // ---- With the re-arm protocol ----------------------------------------------------------------------

  ghost predicate NoClaims(es: seq<Timer.Step>) {
    forall i :: 0 <= i < |es| ==> !es[i].Claims?
  }

  lemma {:induction false} LatestStays(s: Timer.Timers, es: seq<Timer.Step>, maxDelay: nat)
    requires 1 <= maxDelay && Timer.Legal(s, es, maxDelay) && NoClaims(es)
    ensures Timer.Run(s, es, maxDelay).latest == s.latest
    decreases |es|
  {
    if es != [] {
      assert forall i :: 0 <= i < |es[1..]| ==> es[1..][i] == es[i + 1];
      LatestStays(Timer.Next(s, es[0], maxDelay), es[1..], maxDelay);
    }
  }

  lemma {:induction false} RunSplits(s: Timer.Timers, es: seq<Timer.Step>, fs: seq<Timer.Step>, maxDelay: nat)
    requires 1 <= maxDelay && Timer.Legal(s, es + fs, maxDelay)
    ensures Timer.Legal(s, es, maxDelay) && Timer.Legal(Timer.Run(s, es, maxDelay), fs, maxDelay)
    ensures Timer.Run(s, es + fs, maxDelay) == Timer.Run(Timer.Run(s, es, maxDelay), fs, maxDelay)
    decreases |es|
  {
    if es == [] {
      assert es + fs == fs;
    } else {
      assert (es + fs)[0] == es[0] && (es + fs)[1..] == es[1..] + fs;
      RunSplits(Timer.Next(s, es[0], maxDelay), es[1..], fs, maxDelay);
    }
  }

  /** Fires no later than `d`, or at the next tick if `d` is due. */
  predicate FiresBy(hardware: Timer.Command, now: nat, d: nat) {
    hardware.Arm? && (now + hardware.delay <= d || hardware.delay == 1)
  }

  lemma CommandFires(now: nat, next: Option<nat>, maxDelay: nat, d: nat)
    requires 1 <= maxDelay && Covers(next, d)
    ensures FiresBy(Timer.CommandFor(now, next, maxDelay), now, d)
  {
  }

  /** Whenever the re-arm loop is quiet and the latest claim was made in scheduler state `k`, the
      hardware fires by the deadline of every sleeper and timed waiter, by the exhaustion of the
      running budget, by every throttled task's boundary, by the lock limit, and at the next
      tick if the running task has to give way; whatever other callers did before and since. */
  lemma QuietTimerMeetsDeadlines(s: Timer.Timers, es: seq<Timer.Step>, c: nat, fs: seq<Timer.Step>, maxDelay: nat,
                                 k: K, now: nat, slice: nat, limit: nat, embassy: Option<nat>, t: nat)
    requires 1 <= maxDelay && Sized(k) && t < N(k) && Timer.Initial(s) && NoClaims(fs)
    requires var all := es + [Timer.Claims(c, now, NextDeadline(k, now, slice, limit, embassy))] + fs;
      && Timer.Legal(s, all, maxDelay) && Timer.AllTimely(s, all, maxDelay)
      && forall x :: 0 <= x < |Timer.Run(s, all, maxDelay).callers| ==> Timer.Run(s, all, maxDelay).callers[x].Outside?
    ensures var all := es + [Timer.Claims(c, now, NextDeadline(k, now, slice, limit, embassy))] + fs;
      var hardware := Timer.Run(s, all, maxDelay).hardware;
      && (Awaits(k, t) ==> FiresBy(hardware, now, k.wakeAt[t]))
      && (k.state[t] == Throttled && k.budget[t].spec.Some? ==> FiresBy(hardware, now, k.budget[t].replenishesAt))
      && (CurrentExhaustion(k).Some? ==> FiresBy(hardware, now, CurrentExhaustion(k).value))
      && (LockDeadline(k, limit).Some? ==> FiresBy(hardware, now, LockDeadline(k, limit).value))
      && (MustYield(k, false) ==> FiresBy(hardware, now, now))
      && (NextDeadline(k, now, slice, limit, embassy) == None ==> hardware == Timer.Disarm)
  {
    hide MustYield, NextDeadline, LockDeadline, CurrentExhaustion, Timer.AllTimely, Covers, FiresBy;
    var next := NextDeadline(k, now, slice, limit, embassy);
    var claim := Timer.Claims(c, now, next);
    var all := es + [claim] + fs;
    RunSplits(s, es + [claim], fs, maxDelay);
    RunSplits(s, es, [claim], maxDelay);
    var before := Timer.Run(s, es, maxDelay);
    ClaimIsLatest(before, claim, maxDelay);
    LatestStays(Timer.Run(s, es + [claim], maxDelay), fs, maxDelay);
    Timer.QuiescentIsCurrent(s, all, maxDelay);
    EverythingCovered(k, now, slice, limit, embassy, t);
    forall d | Covers(next, d) ensures FiresBy(Timer.CommandFor(now, next, maxDelay), now, d) {
      CommandFires(now, next, maxDelay, d);
    }
  }

  lemma ClaimIsLatest(s: Timer.Timers, claim: Timer.Step, maxDelay: nat)
    requires 1 <= maxDelay && claim.Claims? && Timer.Legal(s, [claim], maxDelay)
    ensures Timer.Run(s, [claim], maxDelay).latest == Timer.CommandFor(claim.now, claim.deadline, maxDelay)
  {
    assert [claim][1..] == [];
  }
}
