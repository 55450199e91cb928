/** Who runs next, whoever gives the hart up and however: the first of the most urgent eligible
    tasks, and idle only when there is none. */
module Picks {
  import opened Lists
  import Budget
  import opened Kernel
  import opened Inheritance
  import opened Chains
  import opened Invariant
  import opened Steps
  import opened MutexSteps
  import opened Preserved
  import opened PreservedMutex
  import opened PreservedHart
  import opened Runs
  import opened Locking
  import opened Wakeups
  import opened SchedFacts
  import opened Waits
  import opened Theorems
  import opened Conduct
  import opened Order
  import opened Queueing

  /** `x` is the first of the most urgent eligible tasks of `k`; idle only if none is eligible. */
  ghost predicate Chosen(k: K, x: nat) {
    && Sized(k) && x < N(k)
    && (x == IDLE <==> forall t :: 0 <= t < N(k) ==> !Eligible(k, t))
    && (x != IDLE ==>
          && Eligible(k, x) && k.q[k.prio[x]] != [] && k.q[k.prio[x]][0] == x
          && forall t :: 0 <= t < N(k) && Eligible(k, t) ==> k.prio[x] <= k.prio[t])
  }

  lemma PopChosen(k: K)
    requires Core(k)
    ensures var (k1, x) := PopReadyOrIdle(k);
      && Chosen(k, x) && N(k1) == N(k) && k1 == k.(q := k1.q) && (x == IDLE ==> k1 == k)
      && (x != IDLE ==> InOrder(k, k1, {x}) && k.state[x] == Ready && !Listed(k1, x))
    ensures PopReady(k).1.None? <==> PopReadyOrIdle(k).1 == IDLE
  {
    hide Ledger, Effective, Acyclic, FirstBucket, WaitSorted, PopReady, InOrder;
    PoppedIs(k);
    if PopReady(k).1.Some? {
      var x := PopReady(k).1.value;
      PopOrder(k);
      PlacedDistinct(PopReady(k).0.q, Homes(k)[x := None], x);
    }
    forall t | 0 <= t < N(k) && Eligible(k, t) ensures PopReady(k).1.Some? && k.prio[PopReady(k).1.value] <= k.prio[t] {
      assert Homes(k)[t] == Some(k.prio[t]);
      assert t in k.q[k.prio[t]];
    }
    assert PopReady(k).1.Some? ==> Eligible(k, PopReadyOrIdle(k).1);
  }

  /** From `k` to `r` through `left`, where the caller has left: a ticket for the chosen task. */
  ghost predicate HandsOver(k: K, left: K, r: K) {
    && Sized(k) && Sized(left) && Sized(r) && N(left) == N(r) == N(k) && Core(left) && left.pending.None? && r.pending.Some?
    && r.pending.value.previous == left.current && Chosen(left, r.pending.value.target)
    && r == left.(q := r.q, pending := r.pending, nextSeq := r.nextSeq)
  }

  lemma AlsoUnlisted(k: K, r: K, also: set<nat>, x: nat)
    requires Turns(k, r, also) && x < N(k) && !Listed(k, x) && !Listed(r, x)
    ensures Turns(k, r, also + {x})
  {
    hide InOrder, Listed;
    OrderRename(k, r, Changed(k, r) + also, Changed(k, r) + (also + {x}));
  }

  lemma TicketTurns(k: K, left: K, k1: K, r: K, also: set<nat>, x: nat)
    requires Turns(k, left, also) && InOrder(left, k1, {x}) && k1.state == left.state && k1.prio == left.prio
    requires Sized(r) && N(r) == N(k1) && r.q == k1.q && r.prio == k1.prio && r.state == k1.state
    ensures Turns(k, r, also + {x})
  {
    hide InOrder, Sized;
    OrderChain(k, left, k1, Changed(k, left) + also, {x});
    OrderOf(k, k1, r, Changed(k, left) + also + {x});
    assert Changed(k, r) + (also + {x}) == Changed(k, left) + also + {x};
  }

  lemma SwitchPicks(k: K, left: K)
    requires Core(left) && left.pending.None? && left.state[IDLE] in {Ready, Running} && Turns(k, left, {}) && !Listed(k, IDLE)
    ensures var r := SwitchAway(left); HandsOver(k, left, r) && Turns(k, r, {r.pending.value.target})
  {
    hide Mid, Acyclic, Priced, InOrder, PopReady, Chosen, Turns, Listed;
    PopChosen(left);
    var r := SwitchAway(left);
    var (k1, x) := PopReadyOrIdle(left);
    TurnsSize(k, left, {});
    assert {} + {x} == {x};
    if x == IDLE {
      IdleUnlisted(left);
      SameOrder(left, left);
      TicketTurns0(k, left, r, {});
      assert Listed(r, IDLE) == Listed(left, IDLE) by { SameLists(left, r, IDLE); }
      AlsoUnlisted(k, r, {}, IDLE);
    } else {
      TicketTurns(k, left, k1, r, {}, x);
    }
  }

  lemma SameLists(k: K, r: K, x: nat)
    requires r.q == k.q
    ensures Listed(r, x) == Listed(k, x)
  {
  }

  lemma TurnsSize(k: K, r: K, also: set<nat>)
    requires Turns(k, r, also)
    ensures Sized(k) && Sized(r) && N(r) == N(k)
  {
  }

  lemma TicketTurns0(k: K, left: K, r: K, also: set<nat>)
    requires Turns(k, left, also) && Sized(r) && N(r) == N(left) && r.q == left.q && r.prio == left.prio && r.state == left.state
    ensures Turns(k, r, also)
  {
    hide InOrder, Sized;
    OrderOf(k, left, r, Changed(k, left) + also);
    assert Changed(k, r) == Changed(k, left);
  }

  lemma IdleUnlisted(k: K)
    requires Core(k) && k.state[IDLE] in {Ready, Running}
    ensures !Listed(k, IDLE)
  {
    hide WaitSorted, Ledger, Effective, Acyclic;
    CoreNeat(k);
    Apart(k, IDLE);
  }

  lemma IdleAside(k: K)
    requires Inv(k)
    ensures !Listed(k, IDLE) && k.state[IDLE] in {Ready, Running}
  {
    hide Mid, Acyclic, Priced, Rest;
    IdleUnlisted(k);
  }

  // ---- Whoever gives the hart up -------------------------------------------------------------------

  /** The running task in another state, in no list. */
  lemma LeftTurns(k: K, left: K)
    requires Inv(k) && k.state[k.current] == Running && Sized(left) && N(left) == N(k) && left.q == k.q
    requires left.state == k.state[k.current := left.state[k.current]]
    requires left.prio == k.prio[k.current := left.prio[k.current]] && left.state[k.current] != Running
    ensures Turns(k, left, {})
  {
    hide Core, Side, InOrder, Neat, Listed;
    InvCore(k);
    CoreNeat(k);
    RunningUnlisted(k);
    StillOrder(k, left, k.current);
    assert Changed(k, left) + {} == {k.current};
  }

  /** The sleeper, before the switch. */
  function Asleep(k: K, until: nat): (r: K)
    requires Sized(k)
    ensures Sized(r)
  {
    k.(state := k.state[k.current := Sleeping], wakeAt := k.wakeAt[k.current := until])
  }

  /** A sleep is refused exactly under the scheduler lock; otherwise the task sleeps until then and
      the choice falls on the first of the most urgent. */
  lemma SleepPicks(k: K, until: nat)
    requires Inv(k) && InUserCode(k) && k.current != IDLE
    ensures var (r, reply) := Sleep(k, until);
      && reply.Refused? == (k.lockDepth[k.current] != 0) && (reply.Refused? ==> r == k)
      && (!reply.Refused? ==> reply.Suspended? && HandsOver(k, Asleep(k, until), r) && Turns(k, r, {r.pending.value.target}))
  {
    hide Mid, Acyclic, Priced, Side, SwitchAway, Turns, Listed;
    if k.lockDepth[k.current] == 0 {
      var left := Asleep(k, until);
      RunningFacts(k);
      IdleAside(k);
      LeftTurns(k, left);
      ParkedCore(k, left, k.current);
      SwitchPicks(k, left);
    }
  }

  /** An exit leaves an empty slot, and the choice falls on the first of the most urgent. */
  lemma ExitPicks(k: K)
    requires Inv(k) && InUserCode(k) && MayExit(k)
    ensures var r := Exit(k); HandsOver(k, Emptied(k), r) && Turns(k, r, {r.pending.value.target})
  {
    hide Mid, Acyclic, Priced, Side, SwitchAway, Turns, Listed;
    var left := Emptied(k);
    RunningFacts(k);
    IdleAside(k);
    LeftTurns(k, left);
    EmptiedCore(k);
    SwitchPicks(k, left);
    assert Exit(k) == SwitchAway(left);
  }

  /** The outermost unlock after a deferred exhaustion. */
  function Exhausted(k: K, now: nat): (r: K)
    requires Sized(k) && now <= Budget.U64_MAX && k.budget[k.current].lockOverrun
    ensures Sized(r)
  {
    Budget.ValidKept(k.budget[k.current], Budget.Cooperative, now, false);
    k.(budget := k.budget[k.current := Budget.Throttled(k.budget[k.current], now)], state := k.state[k.current := Throttled])
  }

  // ---- Waits ----------------------------------------------------------------------------------------

  /** A semaphore wait: exactly when it takes a permit, gives up at once, is refused, or suspends its
      task as the last of those at least as urgent; and who runs then. */
  lemma SemDownPicks(k: K, s: nat, patience: Patience, deliverable: bool)
    requires Inv(k) && s < |k.count| && (deliverable ==> InUserCode(k) && k.current != IDLE)
    ensures var (r, reply) := SemDown(k, s, patience, deliverable);
      && (reply.Acquired? <==> k.count[s] > 0) && (reply.Acquired? ==> r == k.(count := k.count[s := k.count[s] - 1]))
      && (reply.TimedOut? <==> k.count[s] == 0 && patience.NoWait?)
      && (reply.Refused? <==> k.count[s] == 0 && !patience.NoWait? && (!deliverable || k.lockDepth[k.current] != 0))
      && (reply.TimedOut? || reply.Refused? ==> r == k)
      && (reply.Suspended? ==>
            var left := SemQueued(k, s, patience);
            HandsOver(k, left, r) && Turns(k, left, {}) && Turns(k, r, {r.pending.value.target}))
  {
    hide Mid, Acyclic, Priced, Side, SwitchAway, Turns, Listed, Insert;
    if SemDown(k, s, patience, deliverable).1.Suspended? {
      var left := SemQueued(k, s, patience);
      RunningFacts(k);
      IdleAside(k);
      QueuedTurns(k, s, patience);
      SemJoinedCore(k, left, k.current, s);
      SwitchPicks(k, left);
    }
  }

  lemma QueuedTurns(k: K, s: nat, patience: Patience)
    requires Inv(k) && k.state[k.current] == Running && s < |k.count|
    ensures Turns(k, SemQueued(k, s, patience), {})
  {
    hide Core, Side, InOrder, Neat, Insert;
    InvCore(k);
    CoreNeat(k);
    OwnHome(k);
    JoinOrder(k, SemQueued(k, s, patience), k.current, SemList(k, s));
    assert Changed(k, SemQueued(k, s, patience)) + {} == {k.current};
  }

  /** A lock call, completely: an own mutex deepens up to its limit, a free one is taken; of another
      task's the call times out at once if it may not wait, is refused if it may not suspend or if
      the owner waits, over any number of mutexes, for the caller, and else queues. */
  lemma MutexLockPicks(k: K, m: nat, patience: Patience, deliverable: bool)
    requires Inv(k) && InUserCode(k) && k.current != IDLE && m < |k.owner|
    ensures var ((r, reply), c) := (MutexLock(k, m, patience, deliverable), k.current);
      && (k.owner[m] == Some(c) ==>
            && (reply.Refused? <==> k.depth[m] == U32_MAX)
            && (reply.Refused? ==> r == k) && (!reply.Refused? ==> reply.Acquired? && r == k.(depth := k.depth[m := k.depth[m] + 1])))
      && (k.owner[m].None? ==> reply.Acquired? && r == k.(owner := k.owner[m := Some(c)], depth := k.depth[m := 1]))
      && (k.owner[m].Some? && k.owner[m] != Some(c) ==>
            && (reply.TimedOut? <==> patience.NoWait?)
            && (reply.Refused? <==> !patience.NoWait? && (!deliverable || k.lockDepth[c] != 0 || Reaches(Edges(k), k.owner[m].value, c)))
            && (reply.TimedOut? || reply.Refused? ==> r == k) && !reply.Acquired?
            && (reply.Suspended? ==>
                  var left := Enlist(k, m, patience);
                  && left.waitMtx[c] == Some(m) && left.state == k.state[c := Blocked]
                  && HandsOver(k, left, r) && Turns(k, left, {}) && Turns(k, r, {r.pending.value.target})))
  {
    hide Mid, Acyclic, Priced, Side, SwitchAway, Turns, Listed, Enlist, ChainContains, Reaches;
    var c := k.current;
    if k.owner[m].Some? && k.owner[m] != Some(c) {
      assert Core(k);
      ChainContainsExact(k, k.owner[m].value, c);
      if MutexLock(k, m, patience, deliverable).1.Suspended? {
        var left := Enlist(k, m, patience);
        RunningFacts(k);
        IdleAside(k);
        EnlistTurns(k, m, patience);
        EnlistCore(k, m, patience);
        EnlistBasics(k, m, patience);
        SwitchPicks(k, left);
      }
    }
  }

  lemma EnlistBasics(k: K, m: nat, patience: Patience)
    requires Sized(k) && m < |k.owner| && k.owner[m].Some?
    ensures var (left, c) := (Enlist(k, m, patience), k.current);
      && left.waitMtx[c] == Some(m) && left.state == k.state[c := Blocked] && left.pending == k.pending && left.current == c
  {
    hide AddInheritance, Insert;
  }

  // ---- Giving way ------------------------------------------------------------------------------------

  /** The running task has to give way: it holds no lock, and is idle with anybody eligible, or
      preemptive with somebody more urgent eligible, at the end of its slice as urgent. */
  ghost predicate GivesWay(k: K, sliceOver: bool)
    requires Sized(k)
  {
    var c := k.current;
    && k.state[c] == Running && k.lockDepth[c] == 0
    && (c == IDLE || k.policy[c].Preemptive?)
    && exists t :: 0 <= t < N(k) && Eligible(k, t) && (c == IDLE || k.prio[t] < k.prio[c] || (sliceOver && k.prio[t] == k.prio[c]))
  }

  lemma GivesWayExact(k: K, sliceOver: bool)
    requires Inv(k) && k.state[k.current] == Running
    ensures GivesWay(k, sliceOver) <==> MustYield(k, sliceOver)
  {
    hide Core, Side, FirstBucket, Eligible;
    if k.lockDepth[k.current] == 0 {
      PreemptionExact(k, sliceOver);
    }
  }

  /** The running task goes to the back of its bucket, for the first of the most urgent. */
  lemma TakePicks(k: K, sliceOver: bool)
    requires Inv(k) && MustYield(k, sliceOver)
    ensures var (r, next) := TakeReschedule(k, sliceOver);
      && next.Some? && Chosen(k, next.value) && next.value != IDLE && next.value != k.current && k.state[next.value] == Ready
      && r == k.(q := r.q, state := k.state[k.current := Ready]) && InOrder(k, r, {next.value} + {k.current})
  {
    hide Core, Side, FirstBucket, InOrder, PopReady, Chosen, NoDup;
    InvCore(k);
    CoreNeat(k);
    RescheduleFacts(k, sliceOver, Homes(k));
    PopChosen(k);
    var (k1, x) := PopReadyOrIdle(k);
    RunningUnlisted(k);
    PoppedUnlisted(k, k1, x, k.current);
    ReadyOrder(k1, k.current);
    OrderChain(k, k1, MakeReady(k1, k.current), {x}, {k.current});
  }

  lemma PoppedUnlisted(k: K, k1: K, x: nat, t: nat)
    requires Core(k) && PopReady(k).1 == Some(x) && k1 == PopReady(k).0 && t < N(k) && !Listed(k, t)
    ensures !Listed(k1, t) && forall l :: 0 <= l < |k1.q| ==> NoDup(k1.q[l])
  {
    hide Ledger, Effective, Acyclic, WaitSorted, PopReady;
    PoppedIs(k);
    PlacedDistinct(k.q, Homes(k), x);
    PlacedDistinct(k1.q, Homes(k)[x := None], t);
    WithoutFacts(k.q[k.prio[x]], x);
    assert forall l :: 0 <= l < |k.q| ==> t !in k.q[l];
  }

  /** The outermost unlock without a deferred exhaustion: it switches exactly if the task has to give
      way now that it holds no lock, and then to the first of the most urgent, with the slice spent;
      otherwise only the lock is gone. */
  lemma UnlockPicks(k: K, now: nat)
    requires Inv(k) && InUserCode(k) && k.lockDepth[k.current] == 1 && !k.budget[k.current].lockOverrun && now <= Budget.U64_MAX
    ensures var ((r, reply), c, left) := (UnlockScheduler(k, now), k.current, Released(k));
      && left == k.(lockDepth := k.lockDepth[c := 0], lockStart := k.lockStart[c := None])
      && (reply.Suspended? <==> GivesWay(left, k.slicePending)) && (!reply.Suspended? ==> reply.Acquired? && r == left)
      && (reply.Suspended? ==>
            && r.pending.Some? && r.pending.value.previous == c && Chosen(left, r.pending.value.target) && r.pending.value.target != IDLE
            && r == left.(q := r.q, state := k.state[c := Ready], pending := r.pending, nextSeq := r.nextSeq, slicePending := false)
            && Turns(k, r, {r.pending.value.target}))
  {
    hide Core, Side, PopReady, MakeReady, MustYield, GivesWay, InOrder, Chosen, Budget.Throttled;
    var c, left := k.current, Released(k);
    LockedRuns(k);
    ReleasedKeeps(k);
    GivesWayExact(left, left.slicePending);
    if MustYield(left, left.slicePending) {
      TakePicks(left, left.slicePending);
      var (k2, next) := TakeReschedule(left, left.slicePending);
      OrderFrom(left, k, k2, {next.value} + {c});
      var r := UnlockScheduler(k, now).0;
      OrderOf(k, k2, r, {next.value} + {c});
      assert Changed(k, r) + {next.value} == {next.value} + {c};
    }
  }

  lemma NestedUnlock(k: K, now: nat)
    requires Inv(k) && now <= Budget.U64_MAX && k.lockDepth[k.current] != 1
    ensures var ((r, reply), c) := (UnlockScheduler(k, now), k.current);
      if k.lockDepth[c] == 0 then reply.Refused? && r == k
      else reply.Acquired? && r == k.(lockDepth := k.lockDepth[c := k.lockDepth[c] - 1])
  {
    hide Core, Side, PopReady, ThrottleCurrent;
    if k.lockDepth[k.current] != 0 {
      LockedRuns(k);
    }
  }

  // ---- Yield and trap -----------------------------------------------------------------------------------

  /** A yield: refused under the lock; else whoever is due wakes, and if anybody is eligible then, the
      first of the most urgent gets the hart and the caller goes to the back of its bucket. */
  lemma YieldPicks(k: K, now: nat)
    requires Inv(k) && InUserCode(k) && now <= Budget.U64_MAX
    ensures var ((r, reply), c, left) := (Yield(k, now), k.current, WakeSleepers(k, now));
      && (reply.Refused? <==> k.lockDepth[c] != 0) && (reply.Refused? ==> r == k)
      && (reply.Suspended? <==> k.lockDepth[c] == 0 && exists t :: 0 <= t < N(left) && Eligible(left, t))
      && (reply.Acquired? ==> r == left)
      && (reply.Suspended? ==>
            && r.pending.Some? && r.pending.value.previous == c && Chosen(left, r.pending.value.target) && r.pending.value.target != IDLE
            && r == left.(q := r.q, state := left.state[c := Ready], pending := r.pending, nextSeq := r.nextSeq)
            && Turns(k, r, {r.pending.value.target}))
  {
    hide Core, Side, WakeSleepers, InOrder, PopReady, Eligible, NoDup;
    if k.lockDepth[k.current] == 0 {
      var left := WakeSleepers(k, now);
      ScanTurns(k, now);
      WakeSleepersKeeps(k, now);
      ScanLeavesHart(k, now);
      InvCore(left);
      PopChosen(left);
      if PopReady(left).1.Some? {
        YieldTurns(k, now);
      }
    }
  }

  lemma YieldTurns(k: K, now: nat)
    requires Inv(k) && InUserCode(k) && now <= Budget.U64_MAX && k.lockDepth[k.current] == 0
    requires PopReady(WakeSleepers(k, now)).1.Some?
    ensures var (r, left) := (Yield(k, now).0, WakeSleepers(k, now));
      && N(left) == N(k) && r.pending.Some? && r.pending.value.previous == k.current && Some(r.pending.value.target) == PopReady(left).1
      && r == left.(q := r.q, state := left.state[k.current := Ready], pending := r.pending, nextSeq := r.nextSeq)
      && Turns(k, r, {r.pending.value.target})
  {
    hide Core, Side, WakeSleepers, InOrder, PopReady, Chosen, NoDup;
    var left, c := WakeSleepers(k, now), k.current;
    ScanTurns(k, now);
    WakeSleepersKeeps(k, now);
    ScanLeavesHart(k, now);
    InvCore(left);
    PopChosen(left);
    var (k1, x) := PopReadyOrIdle(left);
    RunningUnlisted(left);
    PoppedUnlisted(left, k1, x, c);
    ReadyOrder(k1, c);
    var k2 := MakeReady(k1, c);
    OrderChain(left, k1, k2, {x}, {c});
    OrderChain(k, left, k2, Changed(k, left) + {}, {x} + {c});
    var r := Yield(k, now).0;
    OrderOf(k, k2, r, (Changed(k, left) + {}) + ({x} + {c}));
    assert Changed(k, r) + {x} == (Changed(k, left) + {}) + ({x} + {c});
  }

  /** `x` takes the hart over: it runs, its resume generation moves on, and its slice starts. */
  ghost predicate TakesOver(k: K, r: K, x: nat)
    requires Sized(k)
  {
    && Sized(r) && N(r) == N(k) && x < N(k) && r.current == x && r.state[x] == Running && !r.slicePending && r.prio == k.prio
    && r.resume == k.resume[x := if k.resume[x] == U32_MAX then 0 else k.resume[x] + 1]
  }

  /** The trap: a pending ticket decides; else, if nobody runs, the choice falls on the first of the
      most urgent, and if the running task has to give way it goes to the back of its bucket for the
      first of the most urgent; else nothing happens. */
  lemma TrapChoice(k: K, now: nat)
    requires Inv(k) && now <= Budget.U64_MAX
    ensures var (r, c) := (Trap(k, now), k.current);
      && Turns(k, r, {})
      && (k.pending.Some? ==> TakesOver(k, r, k.pending.value.target) && r.state == k.state[r.current := Running])
      && (k.pending.None? && k.state[c] != Running ==> Chosen(k, r.current) && TakesOver(k, r, r.current) && r.state == k.state[r.current := Running])
      && (k.pending.None? && GivesWay(k, k.slicePending) ==>
            Chosen(k, r.current) && r.current != IDLE && TakesOver(k, r, r.current) && r.state == k.state[c := Ready][r.current := Running])
      && (k.pending.None? && k.state[c] == Running && !GivesWay(k, k.slicePending) ==> r == k)
  {
    hide Core, Side, Turns, Chosen, GivesWay, TakesOver, Trap;
    if k.pending.Some? {
      TicketTrap(k, now);
      TakesCurrent(k, Trap(k, now), k.pending.value.target);
    } else if k.state[k.current] != Running {
      IdleHartTrap(k, now);
    } else {
      GivesWayExact(k, k.slicePending);
      PreemptTrap(k, now);
    }
    GivesWayRuns(k, k.slicePending);
  }

  lemma GivesWayRuns(k: K, sliceOver: bool)
    requires Sized(k)
    ensures GivesWay(k, sliceOver) ==> k.state[k.current] == Running
  {
  }

  lemma DispatchTakes(k: K, left: K, x: nat, now: nat)
    requires Sized(k) && Sized(left) && N(left) == N(k) && x < N(k) && now <= Budget.U64_MAX && left.resume == k.resume && left.prio == k.prio
    ensures var r := Dispatch(left, x, now); TakesOver(k, r, x) && r.state == left.state[x := Running] && r.q == left.q && r.prio == left.prio
  {
    hide Budget.OnDispatch, Budget.OnSwitchOut;
    DispatchIs(left, x, now);
  }

  lemma TicketTrap(k: K, now: nat)
    requires Inv(k) && k.pending.Some? && now <= Budget.U64_MAX
    ensures var (r, x) := (Trap(k, now), k.pending.value.target);
      x < N(k) && TakesOver(k, r, x) && r.state == k.state[x := Running] && Turns(k, r, {})
  {
    hide Core, Side, Turns, TakesOver, Dispatch, Listed;
    var x := k.pending.value.target;
    var k1 := k.(pending := None, lastSeq := k.pending.value.sequence, current := k.pending.value.previous);
    TargetUnlisted(k);
    SameTurns(k, k1);
    DispatchTakes(k, k1, x, now);
    assert Listed(k1, x) == Listed(k, x) by { SameLists(k, k1, x); }
    TakesSized(k, Dispatch(k1, x, now), x);
    AsideTurns(k, k1, Dispatch(k1, x, now), x, {});
  }

  lemma TakesSized(k: K, r: K, x: nat)
    requires Sized(k) && TakesOver(k, r, x)
    ensures Sized(r) && N(r) == N(k)
  {
  }

  lemma TargetUnlisted(k: K)
    requires Inv(k) && k.pending.Some?
    ensures var x := k.pending.value.target; x < N(k) && k.state[x] == Ready && !Listed(k, x)
  {
    hide Core, Side, Neat, Listed;
    TargetReady(k);
    InvCore(k);
    CoreNeat(k);
    Unlisted(k, k.pending.value.target);
  }

  lemma IdleHartTrap(k: K, now: nat)
    requires Inv(k) && k.pending.None? && k.state[k.current] != Running && now <= Budget.U64_MAX
    ensures var r := Trap(k, now);
      Chosen(k, r.current) && TakesOver(k, r, r.current) && r.state == k.state[r.current := Running] && Turns(k, r, {})
  {
    hide Core, Side, InOrder, TakesOver, Dispatch, Listed, PopReady, Chosen;
    InvCore(k);
    PopChosen(k);
    var (k1, x) := PopReadyOrIdle(k);
    DispatchTakes(k, k1, x, now);
    var r := Dispatch(k1, x, now);
    TakesSized(k, r, x);
    TakesCurrent(k, r, x);
    if x == IDLE {
      IdleAside(k);
      SameTurns(k, k);
      AsideTurns(k, k, r, x, {});
    } else {
      OrderOf(k, k1, r, {x});
      assert Changed(k, r) + {} == {x};
    }
  }

  lemma TakesCurrent(k: K, r: K, x: nat)
    requires Sized(k) && TakesOver(k, r, x)
    ensures r.current == x
  {
  }

  lemma PreemptTrap(k: K, now: nat)
    requires Inv(k) && k.pending.None? && k.state[k.current] == Running && now <= Budget.U64_MAX
    ensures var (r, c) := (Trap(k, now), k.current);
      && Turns(k, r, {})
      && (MustYield(k, k.slicePending) ==>
            Chosen(k, r.current) && r.current != IDLE && TakesOver(k, r, r.current) && r.state == k.state[c := Ready][r.current := Running])
      && (!MustYield(k, k.slicePending) ==> r == k)
  {
    hide Core, Side, InOrder, TakesOver, Dispatch, PopReady, MakeReady, Chosen, MustYield;
    if MustYield(k, k.slicePending) {
      TakePicks(k, k.slicePending);
      var (k2, next) := TakeReschedule(k, k.slicePending);
      DispatchTakes(k, k2, next.value, now);
      var r := Dispatch(k2, next.value, now);
      TakesSized(k, r, next.value);
      TakesCurrent(k, r, next.value);
      OrderOf(k, k2, r, {next.value} + {k.current});
      assert Changed(k, r) + {} == {next.value} + {k.current};
    } else {
      SameTurns(k, k);
    }
  }

  // ---- Every step --------------------------------------------------------------------------------------

  /** The task a step issues a ticket for, and the ready task it gives a new policy, leave their
      place too. */
  ghost function Called(k: K, op: Op): set<nat>
    requires Sized(k) && Fits(k, op)
  {
    var r := Apply(k, op).0;
    (if r.pending.Some? && k.pending.None? then {r.pending.value.target} else {})
    + (if op.SetsPolicy? && k.state[op.t] == Ready then {op.t} else {})
  }

  lemma CalledIs(k: K, op: Op)
    requires Sized(k) && Fits(k, op)
    ensures var (r, p) := (Apply(k, op).0, op.SetsPolicy? && k.state[op.t] == Ready);
      && (!(r.pending.Some? && k.pending.None?) && !p ==> Called(k, op) == {})
      && (r.pending.Some? && k.pending.None? && !p ==> Called(k, op) == {r.pending.value.target})
      && (!(r.pending.Some? && k.pending.None?) && p ==> Called(k, op) == {op.t})
  {
    hide Apply;
  }

  /** First come, first served: in every ready bucket and wait queue the tasks that keep state and
      priority, are not called to the hart and get no new policy keep their order, and whoever comes
      in stands behind all that are at least as urgent. */
  lemma StepTurns(k: K, op: Op)
    requires Inv(k) && Enabled(k, op)
    ensures Turns(k, Apply(k, op).0, Called(k, op))
  {
    hide Core, Side, Turns, Yield, Sleep, Exit, Spawn, SemDown, ConsumeSem, ReleaseSem, MutexLock, ConsumeMtx, MutexUnlock,
      Cancel, SetPriority, SetPolicy, LockScheduler, UnlockScheduler, OnTimer, Trap, Called, Apply;
    match op
    case Yields(_, _) => CallTurns(k, op);
    case Sleeps(_, _) => CallTurns(k, op);
    case Exits => CallTurns(k, op);
    case Downs(_, _, _) => WaitTurns(k, op);
    case LocksMutex(_, _, _) => WaitTurns(k, op);
    case UnlocksScheduler(_, _) => LockTurns(k, op);
    case LocksScheduler(_, _) => LockTurns(k, op);
    case _ => QuietTurns(k, op);
  }

  lemma CallTurns(k: K, op: Op)
    requires Inv(k) && Enabled(k, op) && (op.Yields? || op.Sleeps? || op.Exits?)
    ensures Turns(k, Apply(k, op).0, Called(k, op))
  {
    hide Core, Side, Turns, Yield, Sleep, Exit, Chosen, Called, Emptied, Asleep;
    CalledIs(k, op);
    RunningFacts(k);
    SameTurns(k, k);
    match op
    case Yields(now, deliverable) =>
      if deliverable {
        YieldsTurns(k, now);
      }
    case Sleeps(until, _) => SleepPicks(k, until);
    case Exits => ExitPicks(k);
  }

  lemma YieldsTurns(k: K, now: nat)
    requires Inv(k) && InUserCode(k) && now <= Budget.U64_MAX
    ensures var (r, reply) := Yield(k, now);
      if reply.Suspended? then r.pending.Some? && Turns(k, r, {r.pending.value.target}) else r.pending == k.pending && Turns(k, r, {})
  {
    hide Core, Side, Turns, Yield, Chosen, Eligible, WakeSleepers;
    YieldPicks(k, now);
    ScanTurns(k, now);
    WakeSleepersHart(k, now);
    SameTurns(k, k);
    assert Yield(k, now).1 in {Refused, Acquired, Suspended} by { YieldReplies(k, now); }
  }

  lemma YieldReplies(k: K, now: nat)
    requires Sized(k) && now <= Budget.U64_MAX
    ensures Yield(k, now).1 in {Refused, Acquired, Suspended}
  {
    hide WakeSleepers, PopReady;
  }

  lemma WaitTurns(k: K, op: Op)
    requires Inv(k) && Enabled(k, op) && (op.Downs? || op.LocksMutex?)
    ensures Turns(k, Apply(k, op).0, Called(k, op))
  {
    hide Core, Side, Turns, SemDown, MutexLock, Chosen, Reaches, SemQueued, Enlist, Called;
    CalledIs(k, op);
    match op
    case Downs(s, patience, deliverable) =>
      SemDownPicks(k, s, patience, deliverable);
      if deliverable {
        RunningFacts(k);
      }
      if !Apply(k, op).1.Suspended? {
        SameTurns(k, Apply(k, op).0);
      }
    case LocksMutex(m, patience, deliverable) =>
      MutexLockPicks(k, m, patience, deliverable);
      RunningFacts(k);
      if !Apply(k, op).1.Suspended? {
        SameTurns(k, Apply(k, op).0);
      }
  }

  lemma LockTurns(k: K, op: Op)
    requires Inv(k) && Enabled(k, op) && (op.LocksScheduler? || op.UnlocksScheduler?)
    ensures Turns(k, Apply(k, op).0, Called(k, op))
  {
    hide Core, Side, Turns, UnlockScheduler, ThrottleCurrent, Chosen, GivesWay, Called;
    CalledIs(k, op);
    var r := Apply(k, op).0;
    RunningFacts(k);
    if op.UnlocksScheduler? && op.deliverable && k.lockDepth[k.current] == 1 {
      if k.budget[k.current].lockOverrun {
        OverrunTurns(k, op.now);
      } else {
        UnlockPicks(k, op.now);
        if !UnlockScheduler(k, op.now).1.Suspended? {
          SameTurns(k, r);
        }
      }
    } else {
      if op.UnlocksScheduler? && op.deliverable {
        NestedUnlock(k, op.now);
      }
      SameTurns(k, r);
    }
  }

  lemma OverrunTurns(k: K, now: nat)
    requires Inv(k) && k.lockDepth[k.current] == 1 && k.budget[k.current].lockOverrun && k.state[k.current] == Running
    requires k.current != IDLE && now <= Budget.U64_MAX
    ensures var (r, left) := (UnlockScheduler(k, now).0, Exhausted(Released(k), now));
      HandsOver(k, left, r) && Turns(k, r, {r.pending.value.target})
  {
    hide Mid, Acyclic, Priced, Side, SwitchAway, Turns, Listed, Budget.Throttled;
    var k1 := Released(k);
    var left := Exhausted(k1, now);
    RunningFacts(k);
    IdleAside(k);
    LeftTurns(k, left);
    SameCoreKeeps(k, k1);
    ThrottledCore(k1, now);
    SwitchPicks(k, left);
  }

  lemma QuietTurns(k: K, op: Op)
    requires Inv(k) && Enabled(k, op)
    requires op.Spawns? || op.FinishesDown? || op.Posts? || op.FinishesLock? || op.UnlocksMutex? || op.Cancels?
      || op.SetsPriority? || op.SetsPolicy? || op.TimerFires? || op.Traps?
    ensures Turns(k, Apply(k, op).0, Called(k, op))
  {
    hide Core, Side, Turns, Spawn, ReleaseSem, MutexUnlock, Cancel, SetPriority, SetPolicy, OnTimer, Trap, Called;
    CalledIs(k, op);
    QuietTicket(k, op);
    match op
    case Spawns(t, p, policy, now) => SpawnTurns(k, t, p, policy, now);
    case Posts(s) => ReleaseSemTurns(k, s);
    case UnlocksMutex(m) => UnlockTurns(k, m);
    case Cancels(t) => CancelTurns(k, t);
    case SetsPriority(t, p) => SetPriorityTurns(k, t, p);
    case SetsPolicy(t, policy, now) => SetPolicyTurns(k, t, policy, now);
    case TimerFires(now, slice) => OnTimerTurns(k, now, slice);
    case Traps(now) => TrapChoice(k, now);
    case FinishesDown => SameTurns(k, ConsumeSem(k).0);
    case FinishesLock => SameTurns(k, ConsumeMtx(k).0);
    case _ =>
  }

  /** None of them issues a ticket. */
  lemma QuietTicket(k: K, op: Op)
    requires Inv(k) && Enabled(k, op)
    requires op.Spawns? || op.FinishesDown? || op.Posts? || op.FinishesLock? || op.UnlocksMutex? || op.Cancels?
      || op.SetsPriority? || op.SetsPolicy? || op.TimerFires? || op.Traps?
    ensures k.pending.None? ==> Apply(k, op).0.pending.None?
  {
    hide Core, Side, ReleaseSem, ReleaseMutex, Cancel, OnTimer, SetPriority, SetPolicy, Trap;
    match op
    case Posts(s) => PostTicket(k, s);
    case Cancels(t) => CancelTicket(k, t);
    case UnlocksMutex(m) =>
      if k.owner[m] == Some(k.current) && k.depth[m] == 1 {
        ReleaseMutexIs(k.(depth := k.depth[m := k.depth[m] - 1]), m, k.current);
      }
    case TimerFires(now, slice) => TimerTicket(k, now, slice);
    case SetsPriority(_, _) => ChangeTicket(k, op);
    case SetsPolicy(_, _, _) => ChangeTicket(k, op);
    case Traps(now) =>
      if k.pending.None? {
        TrapTicket(k, now);
      }
    case _ =>
  }

  lemma TrapTicket(k: K, now: nat)
    requires Sized(k) && now <= Budget.U64_MAX && k.pending.None?
    ensures Trap(k, now).pending.None?
  {
    hide FirstBucket;
  }
}
