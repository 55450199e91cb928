/** What the calls set and answer, step by step and over whole runs: base priorities and policies,
    spawns, cancellations, the scheduler lock and its report, and the slice. */
module Answers {
  import opened Lists
  import Budget
  import opened Kernel
  import opened Inheritance
  import opened Chains
  import opened Invariant
  import opened Steps
  import opened MutexSteps
  import opened Preserved
  import opened PreservedMutex
  import opened PreservedHart
  import opened Runs
  import opened Locking
  import opened SchedFacts
  import opened Waits
  import opened Theorems
  import opened Deadlines
  import opened Order
  import opened Queueing
  import opened Picks
  import opened Charging
  import opened Conduct
  import opened Identities
  import Timer

  // ---- Base priorities and policies ---------------------------------------------------------------------

  lemma ExitSettings(k: K)
    requires Sized(k)
    ensures var (r, c) := (Exit(k), k.current);
      && N(r) == N(k) && r.base == k.base[c := LEVELS - 1] && r.policy == k.policy[c := Budget.Cooperative]
      && r.slicePending == k.slicePending && r.lockDepth == k.lockDepth[c := 0] && r.lockStart == k.lockStart[c := None]
  {
    hide SwitchAway;
    SwitchAwayIds(Emptied(k));
  }

  lemma SpawnSettings(k: K, t: nat, p: nat, policy: Budget.Policy, now: nat)
    requires Sized(k) && t < N(k) && p < LEVELS && Budget.ValidPolicy(policy) && now <= Budget.U64_MAX
    ensures var r := Spawn(k, t, p, policy, now);
      && N(r) == N(k) && r.base == k.base[t := p] && r.policy == k.policy[t := policy] && r.slicePending == k.slicePending && SameLock(k, r)
  {
  }

  /** A priority change and a spawn set the base priority they ask for, a policy change and a spawn the
      policy; an exit leaves the defaults; no other step changes either of any task. */
  lemma StepSettings(k: K, op: Op)
    requires Sized(k) && Fits(k, op)
    ensures var (r, c) := (Apply(k, op).0, k.current);
      && N(r) == N(k)
      && r.base == (match op
                    case SetsPriority(t, p) => k.base[t := p]
                    case Spawns(t, p, _, _) => k.base[t := p]
                    case Exits => k.base[c := LEVELS - 1]
                    case _ => k.base)
      && r.policy == (match op
                      case SetsPolicy(t, policy, _) => k.policy[t := policy]
                      case Spawns(t, _, policy, _) => k.policy[t := policy]
                      case Exits => k.policy[c := Budget.Cooperative]
                      case _ => k.policy)
  {
    hide Apply, Sized, Exit, Spawn, SetPolicy, SetPriority, OnTimer;
    match op
    case SetsPriority(t, p) => PriorityApplied(k, op); PriorityIds(k, t, p);
    case SetsPolicy(t, policy, now) => PolicyApplied(k, op); PolicyIds(k, t, policy, now);
    case Spawns(t, p, policy, now) => SpawnApplied(k, op); SpawnSettings(k, t, p, policy, now);
    case Exits => ExitApplied(k); ExitSettings(k);
    case TimerFires(now, slice) => ApplyTimer(k, op); TimerIds(k, now, slice);
    case _ => OtherIds(k, op);
  }

  /** `p` is the least base priority among `x` and those who wait for it, directly or not. */
  ghost predicate LeastBase(edges: seq<Option<nat>>, base: seq<nat>, x: nat, p: nat)
    requires InRange(edges, |edges|) && |base| == |edges|
  {
    && (forall w :: 0 <= w < |base| && Reaches(edges, w, x) ==> p <= base[w])
    && (exists w :: 0 <= w < |base| && Reaches(edges, w, x) && p == base[w])
  }

  /** A priority change takes for every task, waiting or not: it becomes the task's base, nothing but
      priorities, donations and queue places changes, and afterwards every priority is the least base
      among the task and those who wait for it, directly or not, with the new base counted in. */
  lemma PriorityTakes(k: K, t: nat, p: nat)
    requires Inv(k) && t < N(k) && k.state[t] != Free && p < LEVELS
    ensures var r := SetPriority(k, t, p);
      && r == k.(base := k.base[t := p], prio := r.prio, inh := r.inh, q := r.q) && Edges(r) == Edges(k)
      && forall x :: 0 <= x < N(k) ==> LeastBase(Edges(k), k.base[t := p], x, r.prio[x])
  {
    hide Side, Ledger, Placed, WaitSorted, Waiting, Refresh, Reaches, Effective;
    var r := SetPriority(k, t, p);
    SetPriorityKeeps(k, t, p);
    assert Edges(r) == Edges(k);
    forall x | 0 <= x < N(k)
      ensures LeastBase(Edges(k), k.base[t := p], x, r.prio[x])
    {
      GlobalPriority(r, x);
      var w: nat :| w < N(r) && Reaches(Edges(r), w, x) && r.prio[x] == r.base[w];
      assert Reaches(Edges(k), w, x) && r.prio[x] == k.base[t := p][w];
    }
  }

  /** The base priority of slot `t` after `op`, if it was `b`. */
  function BaseSet(op: Op, t: nat, b: nat): nat {
    match op
    case SetsPriority(x, p) => if x == t then p else b
    case Spawns(x, p, _, _) => if x == t then p else b
    case _ => b
  }

  function PolicySet(op: Op, t: nat, policy: Budget.Policy): Budget.Policy {
    match op
    case SetsPolicy(x, asked, _) => if x == t then asked else policy
    case Spawns(x, _, asked, _) => if x == t then asked else policy
    case _ => policy
  }

  /** The base priority last asked for in slot `t`, by a priority change or a spawn; `b` if none was. */
  function BaseAsked(ops: seq<Op>, t: nat, b: nat): nat
    decreases |ops|
  {
    if ops == [] then b else BaseAsked(ops[1..], t, BaseSet(ops[0], t, b))
  }

  function PolicyAsked(ops: seq<Op>, t: nat, policy: Budget.Policy): Budget.Policy
    decreases |ops|
  {
    if ops == [] then policy else PolicyAsked(ops[1..], t, PolicySet(ops[0], t, policy))
  }

  ghost predicate Set(k: K, t: nat, b: nat, policy: Budget.Policy)
    requires Sized(k) && t < N(k)
  {
    k.state[t] == Free || (k.base[t] == b && k.policy[t] == policy)
  }

  lemma {:induction false} RunSettings(k: K, ops: seq<Op>, t: nat, b: nat, policy: Budget.Policy)
    requires Inv(k) && Legal(k, ops) && t < N(k) && Set(k, t, b, policy)
    ensures var r := Run(k, ops); Inv(r) && N(r) == N(k) && Set(r, t, BaseAsked(ops, t, b), PolicyAsked(ops, t, policy))
    decreases |ops|
  {
    hide Core, Side, Apply;
    if ops != [] {
      var op, r := ops[0], Apply(k, ops[0]).0;
      StepKeeps(k, op);
      StepSettings(k, op);
      if op == Exits && t == k.current {
        ExitApplied(k);
        ExitIds(k);
      } else if !(op.Spawns? && op.slot == t) {
        StepFree(k, op, t);
      }
      RunSettings(r, ops[1..], t, BaseSet(op, t, b), PolicySet(op, t, policy));
    }
  }

  lemma BootSet(n: nat, counts: seq<nat>, mutexes: nat, t: nat)
    requires 2 <= n <= SLOT_LIMIT && t < n
    ensures var k := Boot(n, counts, mutexes); N(k) == n && Set(k, t, LEVELS - 1, Budget.Cooperative)
  {
  }

  lemma ReachesLive(k: K, w: nat, t: nat)
    requires Inv(k) && w < N(k) && t < N(k) && k.state[t] != Free && Reaches(Edges(k), w, t)
    ensures k.state[w] != Free
  {
    hide Mid, Acyclic, Priced, Side;
    if w != t {
      WaitersAside(k);
      ReachesHop(Edges(k), w, t);
    }
  }

  /** The priority of `t` is the least of the priorities last asked for by it and by those who wait for
      it, directly or not, and its policy is the one last asked for; from boot on. */
  ghost predicate AsAsked(k: K, ops: seq<Op>, t: nat)
    requires Sized(k) && t < N(k)
  {
    && k.policy[t] == PolicyAsked(ops, t, Budget.Cooperative)
    && (forall w :: 0 <= w < N(k) && Reaches(Edges(k), w, t) ==> k.prio[t] <= BaseAsked(ops, w, LEVELS - 1))
    && (exists w :: 0 <= w < N(k) && Reaches(Edges(k), w, t) && k.prio[t] == BaseAsked(ops, w, LEVELS - 1))
  }

  /** Whatever happened since the start, every live task has the priority and policy asked for. */
  lemma AskedAndGiven(n: nat, counts: seq<nat>, mutexes: nat, ops: seq<Op>, t: nat)
    requires 2 <= n <= SLOT_LIMIT && Legal(Boot(n, counts, mutexes), ops) && t < n
    ensures var r := Run(Boot(n, counts, mutexes), ops); Sized(r) && N(r) == n && (r.state[t] != Free ==> AsAsked(r, ops, t))
  {
    hide Core, Side, Boot, Legal, Run, BaseAsked, PolicyAsked;
    var k := Boot(n, counts, mutexes);
    var r := Run(k, ops);
    ReachableIds(n, counts, mutexes, ops, t);
    if r.state[t] != Free {
      ReachablePriority(n, counts, mutexes, ops, t);
      BasesAsked(n, counts, mutexes, ops, t);
      AskedLeast(r, ops, t);
    }
  }

  lemma BasesAsked(n: nat, counts: seq<nat>, mutexes: nat, ops: seq<Op>, t: nat)
    requires 2 <= n <= SLOT_LIMIT && Legal(Boot(n, counts, mutexes), ops) && t < n
    ensures var r := Run(Boot(n, counts, mutexes), ops);
      Inv(r) && N(r) == n && forall w :: 0 <= w < n ==> Set(r, w, BaseAsked(ops, w, LEVELS - 1), PolicyAsked(ops, w, Budget.Cooperative))
  {
    hide Core, Side, Boot, Legal, Run, BaseAsked, PolicyAsked, Set;
    BootKeeps(n, counts, mutexes);
    ReachableIds(n, counts, mutexes, ops, t);
    forall w | 0 <= w < n
      ensures Set(Run(Boot(n, counts, mutexes), ops), w, BaseAsked(ops, w, LEVELS - 1), PolicyAsked(ops, w, Budget.Cooperative))
    {
      BootSet(n, counts, mutexes, w);
      RunSettings(Boot(n, counts, mutexes), ops, w, LEVELS - 1, Budget.Cooperative);
    }
  }

  lemma AskedLeast(r: K, ops: seq<Op>, t: nat)
    requires Inv(r) && t < N(r) && r.state[t] != Free
    requires forall w :: 0 <= w < N(r) ==> Set(r, w, BaseAsked(ops, w, LEVELS - 1), PolicyAsked(ops, w, Budget.Cooperative))
    requires forall w :: 0 <= w < N(r) && Reaches(Edges(r), w, t) ==> r.prio[t] <= r.base[w]
    requires exists w :: 0 <= w < N(r) && Reaches(Edges(r), w, t) && r.prio[t] == r.base[w]
    ensures AsAsked(r, ops, t)
  {
    hide Core, Side, Reaches, BaseAsked, PolicyAsked;
    forall w | 0 <= w < N(r) && Reaches(Edges(r), w, t) ensures r.base[w] == BaseAsked(ops, w, LEVELS - 1) {
      ReachesLive(r, w, t);
      assert Set(r, w, BaseAsked(ops, w, LEVELS - 1), PolicyAsked(ops, w, Budget.Cooperative));
    }
    assert Set(r, t, BaseAsked(ops, t, LEVELS - 1), PolicyAsked(ops, t, Budget.Cooperative));
  }

  // ---- Spawns ----------------------------------------------------------------------------------------------

  lemma FreeSlot(k: K, t: nat)
    requires Inv(k) && t < N(k) && k.state[t] == Free
    ensures k.waitSem[t].None? && k.waitMtx[t].None? && !k.granted[t] && k.lockDepth[t] == 0
    ensures forall m :: 0 <= m < |k.owner| ==> k.owner[m] != Some(t)
  {
    hide Placed, WaitSorted, Ledger, Effective, Acyclic, Priced, Hart, Quotas;
  }

  /** A spawned task is ready at once, last in the bucket of the priority asked for, with the policy
      asked for and its quota full; it waits for nothing, holds nothing, and nobody else is touched. */
  lemma SpawnLands(k: K, t: nat, p: nat, policy: Budget.Policy, now: nat)
    requires Inv(k) && Enabled(k, Spawns(t, p, policy, now))
    ensures var r := Spawn(k, t, p, policy, now);
      && Inv(r) && Eligible(r, t) && r.q == k.q[p := k.q[p] + [t]] && r.base[t] == r.prio[t] == p
      && r.policy[t] == policy && r.budget[t].spec == (if policy.Budgeted? then Some(policy.spec) else None)
      && (policy.Budgeted? ==> r.budget[t].remaining == policy.spec.capacity && r.budget[t].runningSince.None?)
      && r.waitSem[t].None? && r.waitMtx[t].None? && !r.granted[t] && r.wakeAt[t] == 0 && r.lockDepth[t] == 0
      && (forall m :: 0 <= m < |r.owner| ==> r.owner[m] != Some(t))
      && r == k.(q := r.q, state := k.state[t := Ready], base := k.base[t := p], prio := k.prio[t := p], policy := k.policy[t := policy],
                 budget := k.budget[t := r.budget[t]], ident := k.ident[t := r.ident[t]], slotGen := k.slotGen[t := r.slotGen[t]],
                 wakeAt := k.wakeAt[t := 0])
  {
    hide Core, Side;
    Unticketed(k);
    FreeSlot(k, t);
    SpawnKeeps(k, t, p, policy, now);
  }

  /** A policy change requeues a queued task at the back of its bucket, makes a throttled one eligible
      there, and leaves everybody else and where the task stands otherwise; a quota starts full, its
      clock running exactly if the task is. */
  lemma PolicyLands(k: K, t: nat, policy: Budget.Policy, now: nat)
    requires Inv(k) && Enabled(k, SetsPolicy(t, policy, now))
    ensures var (r, p) := (SetPolicy(k, t, policy, now), k.prio[t]);
      var lands := Eligible(k, t) || k.state[t] == Throttled;
      && r.state == (if lands then k.state[t := Ready] else k.state)
      && r.q == (if lands then k.q[p := Without(k.q[p], t) + [t]] else k.q)
      && r == k.(q := r.q, state := r.state, policy := k.policy[t := policy], budget := k.budget[t := r.budget[t]])
      && r.budget[t].spec == (if policy.Budgeted? then Some(policy.spec) else None) && !r.budget[t].lockOverrun
      && (policy.Budgeted? ==>
            && r.budget[t].remaining == policy.spec.capacity
            && r.budget[t].runningSince == if k.state[t] == Running then Some(now) else None)
  {
    hide Core, Side, InReady;
    QueuedOrNot(k, t);
    if k.state[t] == Throttled {
      WithoutAbsent(k.q[k.prio[t]], t);
    }
  }

  lemma QueuedOrNot(k: K, t: nat)
    requires Inv(k) && t < N(k)
    ensures k.state[t] == Ready ==> (InReady(k, t) <==> Eligible(k, t))
    ensures k.state[t] == Throttled ==> t !in k.q[k.prio[t]]
  {
    hide Ledger, Effective, Acyclic, Priced, WaitSorted, Side;
    assert Homes(k)[t] == Home(k, t);
    if k.state[t] == Ready && InReady(k, t) {
      var l :| 0 <= l < LEVELS && t in k.q[l];
      assert Homes(k)[t] == Some(l);
    }
    if Eligible(k, t) {
      EligibleListed(k, t);
    }
  }

  // ---- The timer and the quota -----------------------------------------------------------------------------

  lemma Exhausts(b: Budget.State, now: nat, locked: bool)
    requires Budget.Valid(b) && now <= Budget.U64_MAX && (b.lockOverrun ==> locked)
    ensures var (b', expiry) := Budget.OnTimer(b, now, locked);
      var empty := b'.spec.Some? && b'.remaining == 0;
      && b'.spec == b.spec && (expiry.ThrottleNow? <==> empty && !locked) && (b'.lockOverrun <==> empty && locked)
      && (empty ==> b'.runningSince.None?)
  {
  }

  /** The timer interrupt enforces the quota: a running task is throttled exactly if nothing of its
      quota remains and it holds no lock; under the lock the exhaustion is put off. */
  lemma TimerEnforces(k: K, now: nat, slice: bool)
    requires Inv(k) && now <= Budget.U64_MAX && k.state[k.current] == Running
    ensures var (r, c) := (OnTimer(k, now, slice), k.current);
      var (b, locked) := (r.budget[c], k.lockDepth[c] != 0);
      var empty := b.spec.Some? && b.remaining == 0;
      && N(r) == N(k) && r.current == c && r.lockDepth == k.lockDepth
      && r.state[c] == (if empty && !locked then Throttled else Running)
      && (b.lockOverrun <==> empty && locked) && (empty ==> b.runningSince.None?)
  {
    hide Core, Side, WakeSleepers, Budget.OnTimer, Budget.Valid;
    WakeSleepersHart(k, now);
    OverrunLocked(k);
    Exhausts(k.budget[k.current], now, k.lockDepth[k.current] != 0);
  }

  lemma OverrunLocked(k: K)
    requires Inv(k)
    ensures k.budget[k.current].lockOverrun ==> k.lockDepth[k.current] != 0
    ensures Budget.Valid(k.budget[k.current])
  {
    hide Core, Owners, Calls, HandedOff, Dry, Reasons, Quotas, Hart, Budget.Valid;
  }

  // ---- Unlocking a mutex ------------------------------------------------------------------------------------

  /** A mutex unlock is refused exactly to others than the owner; a nested one only undoes a lock call,
      and the last one leaves the mutex free if nobody waits for it. */
  lemma MutexUnlockAnswers(k: K, m: nat)
    requires Inv(k) && m < |k.owner|
    ensures var (r, reply) := MutexUnlock(k, m);
      && (reply.Refused? <==> k.owner[m] != Some(k.current)) && (reply.Refused? ==> r == k) && (!reply.Refused? ==> reply.Acquired?)
      && (!reply.Refused? && k.depth[m] > 1 ==> r == k.(depth := k.depth[m := k.depth[m] - 1]))
      && (!reply.Refused? && k.depth[m] == 1 && (forall t :: 0 <= t < N(k) ==> k.waitMtx[t] != Some(m)) ==>
            r == k.(owner := k.owner[m := None], depth := k.depth[m := 0]))
  {
    hide Core, Side, RemoveInheritance, RemoveAll, AddAll, Grant;
    OwnedHeld(k, m);
    if k.q[MtxList(k, m)] != [] {
      NobodyWaits(k, m, k.q[MtxList(k, m)][0]);
    }
  }

  lemma OwnedHeld(k: K, m: nat)
    requires Inv(k) && m < |k.owner|
    ensures k.owner[m].Some? <==> k.depth[m] >= 1
  {
    hide Core, Locks, Calls, HandedOff, Dry, Reasons, Quotas, Hart;
  }

  // ---- Cancellation -------------------------------------------------------------------------------------

  lemma WaitsAndGrants(k: K, t: nat)
    requires Inv(k) && t < N(k)
    ensures k.waitSem[t].Some? || k.waitMtx[t].Some? <==> k.state[t] == Blocked
    ensures k.grantSem[t].Some? || k.grantMtx[t].Some? <==> k.granted[t]
    ensures k.waitSem[t].Some? ==> k.waitMtx[t].None? && !k.granted[t]
    ensures k.waitMtx[t].Some? ==> !k.granted[t]
    ensures k.state[t] == Blocked || k.granted[t] ==> k.call[t] != User
    ensures k.grantSem[t].Some? ==> k.grantMtx[t].None?
  {
    hide Placed, WaitSorted, Ledger, Effective, Acyclic, Priced, Hart, Quotas, Locks, Owners, HandedOff, Dry;
  }

  lemma GrantBack(k: K, t: nat)
    requires Inv(k) && t < N(k) && k.grantSem[t].Some?
    ensures var r := Cancel(k, t).0;
      && N(r) == N(k) && r.state[t] == k.state[t] && !r.granted[t] && r.call == k.call
      && r.waitSem[t].None? && r.waitMtx[t].None? && r.grantSem[t].None? && r.grantMtx[t].None?
  {
    hide Core, Side;
    WaitsAndGrants(k, t);
    var s := k.grantSem[t].value;
    if k.q[SemList(k, s)] != [] {
      SemQueue(k, s, k.q[SemList(k, s)][0]);
    }
  }

  lemma MutexBack(k: K, t: nat)
    requires Inv(k) && t < N(k) && k.grantMtx[t].Some? && k.waitSem[t].None? && k.waitMtx[t].None? && k.grantSem[t].None?
    ensures var r := Cancel(k, t).0;
      && N(r) == N(k) && r.state[t] == k.state[t] && !r.granted[t] && r.call == k.call
      && r.waitSem[t].None? && r.waitMtx[t].None? && r.grantSem[t].None? && r.grantMtx[t].None?
  {
    hide Core, Side, ReleaseMutex;
    var m := k.grantMtx[t].value;
    ReleaseMutexIs(k.(grantMtx := k.grantMtx[t := None], granted := k.granted[t := false], depth := k.depth[m := 0]), m, t);
    if k.q[MtxList(k, m)] != [] {
      NobodyWaits(k, m, k.q[MtxList(k, m)][0]);
    }
  }

  /** A cancellation finds something to cancel exactly if the task is blocked or was handed what it has
      not consumed yet; a blocked one is then ready, and either way its call will come back without the
      permit or mutex. Otherwise nothing changes. */
  lemma CancelAnswers(k: K, t: nat)
    requires Inv(k) && t < N(k)
    ensures var (r, found) := Cancel(k, t);
      && (found <==> k.state[t] == Blocked || k.granted[t]) && (!found ==> r == k)
      && (found ==>
            && N(r) == N(k) && r.state[t] == (if k.state[t] == Blocked then Ready else k.state[t])
            && r.call[t] == k.call[t] != User && !r.granted[t]
            && r.waitSem[t].None? && r.waitMtx[t].None? && r.grantSem[t].None? && r.grantMtx[t].None?)
  {
    hide Core, Side, LeaveSem, LeaveMtx, ReleaseMutex, ReleaseSem;
    WaitsAndGrants(k, t);
    if k.waitSem[t].Some? {
      LeaveSemIs(k, t);
    } else if k.grantSem[t].Some? {
      GrantBack(k, t);
    } else if k.waitMtx[t].Some? {
      LeaveMtxIs(k, t);
    } else if k.grantMtx[t].Some? {
      MutexBack(k, t);
    }
  }

  // ---- The scheduler lock ----------------------------------------------------------------------------------

  /** A lock call is refused exactly at the depth limit; it deepens the lock by one and only the
      outermost records when. Only lock and unlock calls and an exit bear on the lock. */
  lemma StepLock(k: K, op: Op)
    requires Inv(k) && Enabled(k, op) && k.lockDepth[k.current] != 0 && !(op.UnlocksScheduler? && k.lockDepth[k.current] == 1)
    ensures var ((r, reply), c) := (Apply(k, op), k.current);
      && N(r) == N(k) && r.lockStart == k.lockStart
      && r.lockDepth == k.lockDepth[c := Deepened(op, reply, k.lockDepth[c])]
      && (op.LocksScheduler? ==> (reply.Refused? <==> !op.deliverable || k.lockDepth[c] == U16_MAX))
      && (op.UnlocksScheduler? ==> (reply.Refused? <==> !op.deliverable))
  {
    hide Core, Side, Apply, UnlockScheduler;
    match op
    case LocksScheduler(_, _) => LockCall(k, op);
    case UnlocksScheduler(_, _) => UnlockCall(k, op);
    case Exits =>
    case _ => LockStands(k, op);
  }

  lemma LockStands(k: K, op: Op)
    requires Sized(k) && Fits(k, op) && !op.LocksScheduler? && !op.UnlocksScheduler? && !op.Exits?
    ensures var r := Apply(k, op).0; N(r) == N(k) && SameLock(k, r)
  {
    hide Apply, Sized, SetPolicy, SetPriority, Spawn, OnTimer;
    match op
    case SetsPriority(t, p) => PriorityApplied(k, op); PriorityIds(k, t, p);
    case SetsPolicy(t, policy, now) => PolicyApplied(k, op); PolicyIds(k, t, policy, now);
    case Spawns(t, p, policy, now) => SpawnApplied(k, op); SpawnSettings(k, t, p, policy, now);
    case TimerFires(now, slice) => ApplyTimer(k, op); TimerIds(k, now, slice);
    case _ => OtherIds(k, op);
  }

  function Deepened(op: Op, reply: Reply, depth: nat): nat {
    if reply.Refused? then depth
    else if op.LocksScheduler? then depth + 1
    else if op.UnlocksScheduler? && depth > 0 then depth - 1
    else depth
  }

  lemma LockCall(k: K, op: Op)
    requires Sized(k) && Fits(k, op) && op.LocksScheduler?
    ensures var ((r, reply), c) := (Apply(k, op), k.current);
      && N(r) == N(k) && (reply.Refused? <==> !op.deliverable || k.lockDepth[c] == U16_MAX) && (reply.Refused? ==> r == k)
      && (!reply.Refused? ==> r.current == c && r.lockDepth == k.lockDepth[c := k.lockDepth[c] + 1])
      && (!reply.Refused? ==> r.lockStart == if k.lockDepth[c] == 0 then k.lockStart[c := Some(op.now)] else k.lockStart)
  {
  }

  lemma UnlockCall(k: K, op: Op)
    requires Inv(k) && Enabled(k, op) && op.UnlocksScheduler? && k.lockDepth[k.current] >= 2
    ensures var ((r, reply), c) := (Apply(k, op), k.current);
      && (reply.Refused? <==> !op.deliverable)
      && r == (if op.deliverable then k.(lockDepth := k.lockDepth[c := k.lockDepth[c] - 1]) else k)
  {
    hide Core, Side, UnlockScheduler;
    NestedUnlock(k, op.now);
  }

  /** The running task holds the scheduler lock all through the run. */
  ghost predicate HeldThrough(k: K, ops: seq<Op>)
    requires Legal(k, ops)
    decreases |ops|
  {
    && Sized(k) && k.lockDepth[k.current] != 0
    && (ops != [] ==> HeldThrough(Apply(k, ops[0]).0, ops[1..]))
  }

  /** How deep the lock is after the run, counted from the replies. */
  ghost function Nesting(k: K, ops: seq<Op>, depth: nat): nat
    requires Legal(k, ops)
    decreases |ops|
  {
    if ops == [] then depth else Nesting(Apply(k, ops[0]).0, ops[1..], Deepened(ops[0], Apply(k, ops[0]).1, depth))
  }

  lemma OutermostEnds(k: K, op: Op)
    requires Inv(k) && Enabled(k, op) && op.UnlocksScheduler? && op.deliverable && k.lockDepth[k.current] == 1
    ensures var r := Apply(k, op).0; r.lockDepth[r.current] == 0
  {
    hide Core, Side, UnlockScheduler, GivesWay, Chosen, Turns;
    if k.budget[k.current].lockOverrun {
      OverrunUnlocks(k, op.now);
    } else {
      UnlockPicks(k, op.now);
    }
  }

  lemma OverrunUnlocks(k: K, now: nat)
    requires Sized(k) && now <= Budget.U64_MAX && k.lockDepth[k.current] == 1 && k.budget[k.current].lockOverrun
    ensures var r := UnlockScheduler(k, now).0; r.current == k.current && r.lockDepth[k.current] == 0 && r.slicePending == k.slicePending
  {
    hide ThrottleCurrent;
    ThrottleIds(Released(k), now);
    ThrottleHart(Released(k), now);
  }

  lemma ThrottleHart(k: K, now: nat)
    requires Sized(k) && now <= Budget.U64_MAX && k.budget[k.current].lockOverrun
    ensures ThrottleCurrent(k, now).current == k.current
  {
  }

  lemma HeldGoesOn(k: K, op: Op)
    requires Inv(k) && Enabled(k, op) && k.lockDepth[k.current] != 0 && Apply(k, op).0.lockDepth[Apply(k, op).0.current] != 0
    ensures var ((r, reply), c) := (Apply(k, op), k.current);
      && N(r) == N(k) && r.current == c && r.lockStart == k.lockStart && r.lockDepth[c] == Deepened(op, reply, k.lockDepth[c])
  {
    hide Core, Side, Apply;
    if op.UnlocksScheduler? && k.lockDepth[k.current] == 1 {
      if op.deliverable {
        OutermostEnds(k, op);
      } else {
        UndeliveredUnlock(k, op);
      }
    } else {
      StepLock(k, op);
      LockHolds(k, op);
    }
  }

  lemma UndeliveredUnlock(k: K, op: Op)
    requires Sized(k) && Fits(k, op) && op.UnlocksScheduler? && !op.deliverable
    ensures Apply(k, op) == (k, Refused)
  {
  }

  lemma {:induction false} HeldRun(k: K, ops: seq<Op>)
    requires Inv(k) && Legal(k, ops) && HeldThrough(k, ops)
    ensures var (r, c) := (Run(k, ops), k.current);
      && Inv(r) && N(r) == N(k) && r.current == c && r.lockStart[c] == k.lockStart[c] && r.lockDepth[c] == Nesting(k, ops, k.lockDepth[c]) != 0
    decreases |ops|
  {
    hide Core, Side, Apply, Deepened;
    if ops != [] {
      var r := Apply(k, ops[0]).0;
      StepKeeps(k, ops[0]);
      HeldGoesOn(k, ops[0]);
      HeldRun(r, ops[1..]);
    }
  }

  /** From the outermost lock at `start` on, whatever happens while the task keeps the lock, nested or
      not: it keeps the hart, the lock is as deep as the replies say, its limit is counted from
      `start`, and a timer interrupt reports it exactly at the limit or later, with the time since. */
  lemma LockTimed(k: K, start: nat, ops: seq<Op>, now: nat, limit: nat)
    requires Inv(k) && Enabled(k, LocksScheduler(start, true)) && k.lockDepth[k.current] == 0 && 1 <= limit
    requires var k1 := Apply(k, LocksScheduler(start, true)).0; Legal(k1, ops) && HeldThrough(k1, ops)
    ensures var k1 := Apply(k, LocksScheduler(start, true)).0;
      var (r, c) := (Run(k1, ops), k.current);
      && Inv(r) && r.current == c && r.state[c] == Running && r.lockDepth[c] == Nesting(k1, ops, 1)
      && LockDeadline(r, limit) == Some(Budget.SatAdd(start, limit))
      && LockReport(r, now, limit) == (if now >= start + limit then Some(now - start) else None)
  {
    hide Core, Side, Apply, Legal, Run, HeldThrough, Nesting;
    var k1 := Apply(k, LocksScheduler(start, true)).0;
    StepKeeps(k, LocksScheduler(start, true));
    LockCall(k, LocksScheduler(start, true));
    HeldRun(k1, ops);
    LockedRuns(Run(k1, ops));
  }

  /** Without the lock there is nothing to report and no limit. */
  lemma UnlockedUntimed(k: K, now: nat, limit: nat)
    requires Inv(k) && k.lockDepth[k.current] == 0
    ensures LockReport(k, now, limit).None? && LockDeadline(k, limit).None?
  {
    hide Core, Owners, Calls, HandedOff, Dry, Reasons, Quotas, Hart;
  }

  // ---- The slice -----------------------------------------------------------------------------------------

  /** The flag of a slice that is over is set by the interrupt that finds it so, and cleared exactly when
      somebody takes the hart over in the trap, or an unlock gives way. */
  lemma StepFlag(k: K, op: Op)
    requires Inv(k) && Enabled(k, op)
    ensures var ((r, reply), c) := (Apply(k, op), k.current);
      r.slicePending ==
        match op
        case TimerFires(_, slice) => k.slicePending || slice
        case Traps(_) => k.slicePending && k.pending.None? && k.state[c] == Running && !GivesWay(k, k.slicePending)
        case UnlocksScheduler(_, _) => k.slicePending && (!reply.Suspended? || k.budget[c].lockOverrun)
        case _ => k.slicePending
  {
    hide Core, Side, Apply, Sized, Exit, Spawn, SetPolicy, SetPriority, OnTimer, UnlockScheduler, Trap, GivesWay;
    match op
    case TimerFires(now, slice) => ApplyTimer(k, op); TimerFlag(k, now, slice);
    case Traps(now) => ApplyTrap(k, op); TrapFlag(k, now);
    case UnlocksScheduler(now, deliverable) => UnlockFlag(k, op);
    case SetsPriority(t, p) => PriorityApplied(k, op); PriorityIds(k, t, p);
    case SetsPolicy(t, policy, now) => PolicyApplied(k, op); PolicyIds(k, t, policy, now);
    case Spawns(t, p, policy, now) => SpawnApplied(k, op); SpawnSettings(k, t, p, policy, now);
    case Exits => ExitApplied(k); ExitSettings(k);
    case _ => OtherIds(k, op);
  }

  lemma TimerFlag(k: K, now: nat, slice: bool)
    requires Sized(k) && now <= Budget.U64_MAX
    ensures OnTimer(k, now, slice).slicePending == (k.slicePending || slice)
  {
    hide WakeSleepers, Budget.OnTimer;
    ScanIds(k, now);
  }

  lemma TrapFlag(k: K, now: nat)
    requires Inv(k) && now <= Budget.U64_MAX
    ensures Trap(k, now).slicePending == (k.slicePending && k.pending.None? && k.state[k.current] == Running && !GivesWay(k, k.slicePending))
  {
    hide Core, Side, Trap, GivesWay, Chosen, Turns;
    TrapChoice(k, now);
  }

  lemma UnlockFlag(k: K, op: Op)
    requires Inv(k) && Enabled(k, op) && op.UnlocksScheduler?
    ensures var (r, reply) := Apply(k, op);
      r.slicePending == (k.slicePending && (!reply.Suspended? || k.budget[k.current].lockOverrun))
  {
    hide Core, Side, UnlockScheduler, GivesWay, Chosen, Turns;
    if op.deliverable {
      if k.lockDepth[k.current] != 1 {
        NestedUnlock(k, op.now);
      } else if k.budget[k.current].lockOverrun {
        OverrunUnlocks(k, op.now);
      } else {
        UnlockPicks(k, op.now);
      }
    }
  }

  /** While a preemptive task runs that need not give way yet, and an equal is eligible, the timer is to
      fire at the end of the slice, counted from now if none is counted yet; the interrupt then finds
      the slice over, and in the trap the task gives way, unless it holds the lock. */
  lemma SliceCovered(k: K, now: nat, slice: nat, limit: nat, embassy: Option<nat>, t: nat)
    requires Inv(k) && k.state[k.current] == Running && k.current != IDLE && k.policy[k.current].Preemptive?
    requires Eligible(k, t) && k.prio[t] == k.prio[k.current]
    ensures var (at, stored) := DispatchDeadline(k, now, slice);
      var end := if slice == 0 then Budget.SatAdd(now, k.policy[k.current].timeSlice) else slice;
      && (if GivesWay(k, false) then at == Some(now) && stored == slice else at == Some(end) && stored == end)
      && Covers(NextDeadline(k, now, slice, limit, embassy), at.value)
      && (GivesWay(k, true) <==> k.lockDepth[k.current] == 0)
  {
    hide Core, Side, MustYield, WakeDeadline, BudgetDeadline, LockDeadline;
    assert t in k.q[k.prio[t]] by { EligibleListed(k, t); }
    GivesWayExact(k, false);
    Timer.EarliestIsLeast(WakeDeadline(k, N(k)), DispatchDeadline(k, now, slice).0, BudgetDeadline(k), LockDeadline(k, limit), embassy);
  }

  lemma EligibleListed(k: K, t: nat)
    requires Inv(k) && Eligible(k, t)
    ensures t in k.q[k.prio[t]]
  {
    hide Ledger, Effective, Acyclic, Priced, WaitSorted, Side;
    assert Homes(k)[t] == Some(k.prio[t]);
  }
}
