/** The scheduler state and every critical section of the kernel as a function on it.
    One sequence per task-control-block field, indexed by slot; the contents of the
    intrusive lists are sequences of slots. */
module Kernel {
  import opened Lists
  import Budget

  const LEVELS: nat := 32
  const IDLE: nat := 1
  const SLOT_LIMIT: nat := 256
  const U32_MAX: nat := 0xFFFF_FFFF
  const U16_MAX: nat := 0xFFFF

  datatype Status = Free | Ready | Running | Blocked | Sleeping | Throttled

  /** The wait call a task is inside of, if any: its next step on the hart is the
      critical section that consumes the grant. */
  datatype Call = User | InSemaphore | InMutex

  datatype Ticket = Ticket(sequence: nat, previous: nat, previousIdent: nat, target: nat, targetIdent: nat)

  datatype K = K(
    state: seq<Status>,
    wakeAt: seq<nat>,
    waitSem: seq<Option<nat>>,
    waitMtx: seq<Option<nat>>,
    granted: seq<bool>,
    grantSem: seq<Option<nat>>,
    grantMtx: seq<Option<nat>>,
    base: seq<nat>,
    prio: seq<nat>,
    inh: seq<seq<nat>>,
    lockDepth: seq<nat>,
    lockStart: seq<Option<nat>>,
    ident: seq<nat>,
    slotGen: seq<nat>,
    resume: seq<nat>,
    policy: seq<Budget.Policy>,
    budget: seq<Budget.State>,
    call: seq<Call>,
    current: nat,
    q: seq<seq<nat>>,
    pending: Option<Ticket>,
    nextSeq: nat,
    lastSeq: nat,
    slicePending: bool,
    count: seq<nat>,
    owner: seq<Option<nat>>,
    depth: seq<nat>)

  function N(k: K): nat { |k.state| }

  // The lists: ready bucket `p` is list `p`, then one list per semaphore, then one per mutex.
  function SemList(k: K, s: nat): nat { LEVELS + s }
  function MtxList(k: K, m: nat): nat { LEVELS + |k.count| + m }

  predicate InRange(xs: seq<Option<nat>>, n: nat) {
    forall i :: 0 <= i < |xs| && xs[i].Some? ==> xs[i].value < n
  }

  predicate AllBelow(xss: seq<seq<nat>>, n: nat) {
    forall i :: 0 <= i < |xss| ==> Below(xss[i], n)
  }

  predicate Wide(xss: seq<seq<nat>>, n: nat) {
    forall i :: 0 <= i < |xss| ==> |xss[i]| == n
  }

  predicate GoodBudgets(bs: seq<Budget.State>) {
    forall i :: 0 <= i < |bs| ==> Budget.Valid(bs[i])
  }

  /** Every index stored anywhere names an existing slot, level, semaphore or mutex. */
  predicate Sized(k: K) {
    var n := |k.state|;
    && 2 <= n <= SLOT_LIMIT
    && |k.wakeAt| == n && |k.waitSem| == n && |k.waitMtx| == n && |k.granted| == n
    && |k.grantSem| == n && |k.grantMtx| == n && |k.base| == n && |k.prio| == n && |k.inh| == n
    && |k.lockDepth| == n && |k.lockStart| == n && |k.ident| == n && |k.slotGen| == n
    && |k.resume| == n && |k.policy| == n && |k.budget| == n && |k.call| == n
    && k.current < n && |k.depth| == |k.owner|
    && |k.q| == LEVELS + |k.count| + |k.owner|
    && Below(k.base, LEVELS) && Below(k.prio, LEVELS) && Wide(k.inh, LEVELS)
    && AllBelow(k.q, n)
    && InRange(k.waitSem, |k.count|) && InRange(k.grantSem, |k.count|)
    && InRange(k.waitMtx, |k.owner|) && InRange(k.grantMtx, |k.owner|)
    && InRange(k.owner, n)
    && (k.pending.Some? ==> k.pending.value.previous < n && k.pending.value.target < n)
    && GoodBudgets(k.budget)
  }

  // ---- Ready lists ---------------------------------------------------------------------

  predicate InReady(k: K, t: nat)
    requires |k.q| >= LEVELS
  {
    exists l :: 0 <= l < LEVELS && t in k.q[l]
  }

  function ReadyPush(k: K, t: nat): (r: K)
    requires Sized(k) && t < N(k)
    ensures Sized(r)
  {
    k.(q := k.q[k.prio[t] := k.q[k.prio[t]] + [t]])
  }

  function MakeReady(k: K, t: nat): (r: K)
    requires Sized(k) && t < N(k)
    ensures Sized(r)
  {
    var k1 := k.(state := k.state[t := Ready]);
    if t != IDLE then ReadyPush(k1, t) else k1
  }

  /** The most urgent non-empty bucket at or after level `l`, or LEVELS. */
  function FirstBucket(q: seq<seq<nat>>, l: nat): (r: nat)
    requires |q| >= LEVELS >= l
    ensures l <= r <= LEVELS
    ensures forall i :: l <= i < r ==> q[i] == []
    ensures r < LEVELS ==> q[r] != []
    decreases LEVELS - l
  {
    if l == LEVELS || q[l] != [] then l else FirstBucket(q, l + 1)
  }

  function PopReady(k: K): (r: (K, Option<nat>))
    requires Sized(k)
    ensures Sized(r.0) && r.0 == k.(q := r.0.q) && (r.1.Some? ==> r.1.value < N(k))
  {
    var l := FirstBucket(k.q, 0);
    if l == LEVELS then (k, None)
    else (k.(q := k.q[l := k.q[l][1..]]), Some(k.q[l][0]))
  }

  function PopReadyOrIdle(k: K): (r: (K, nat))
    requires Sized(k)
    ensures Sized(r.0) && r.1 < N(k)
  {
    var (k1, next) := PopReady(k);
    (k1, if next.Some? then next.value else IDLE)
  }

  // ---- Switch tickets ------------------------------------------------------------------

  /** Prepare and commit a ticket for the current task inside one critical section. */
  function Commit(k: K, target: nat): (r: K)
    requires Sized(k) && target < N(k)
    ensures Sized(r)
  {
    k.(nextSeq := k.nextSeq + 1,
       pending := Some(Ticket(k.nextSeq + 1, k.current, k.ident[k.current], target, k.ident[target])))
  }

  function SwitchAway(k: K): (r: K)
    requires Sized(k)
    ensures Sized(r)
  {
    var (k1, target) := PopReadyOrIdle(k);
    Commit(k1, target)
  }

  // ---- Priority inheritance --------------------------------------------------------------

  /** The most urgent level with a donation at or after `l`, or LEVELS. */
  function Lowest(inh: seq<nat>, l: nat): (r: nat)
    requires |inh| == LEVELS >= l
    ensures l <= r <= LEVELS
    ensures forall i :: l <= i < r ==> inh[i] == 0
    ensures r < LEVELS ==> inh[r] != 0
    decreases LEVELS - l
  {
    if l == LEVELS || inh[l] != 0 then l else Lowest(inh, l + 1)
  }

  function Effective(base: nat, inh: seq<nat>): (r: nat)
    requires |inh| == LEVELS
    ensures r <= base
  {
    var l := Lowest(inh, 0);
    if l < base then l else base
  }

  /** Only priorities, donation counts and list orders may differ. */
  predicate Repriced(k: K, r: K) {
    r == k.(prio := r.prio, inh := r.inh, q := r.q)
  }

  function SetEffective(k: K, t: nat, p: nat): (r: K)
    requires Sized(k) && t < N(k) && p < LEVELS
    ensures Sized(r) && Repriced(k, r)
  {
    if k.prio[t] == p then k
    else
      var was := k.prio[t];
      var queued := k.state[t] == Ready && InReady(k, t);
      var prio' := k.prio[t := p];
      var q1 := if queued then k.q[was := Without(k.q[was], t)] else k.q;
      var q2 := if queued then q1[p := q1[p] + [t]] else q1;
      var q3 := match k.waitSem[t]
        case None => q2
        case Some(s) => q2[SemList(k, s) := Insert(Without(q2[SemList(k, s)], t), t, prio')];
      k.(prio := prio', q := q3)
  }

  function Resort(k: K, m: nat, t: nat): (r: K)
    requires Sized(k) && m < |k.owner| && t < N(k)
    ensures Sized(r) && Repriced(k, r)
  {
    var l := MtxList(k, m);
    k.(q := k.q[l := Insert(Without(k.q[l], t), t, k.prio)])
  }

  function Bump(k: K, o: nat, p: nat): (r: K)
    requires Sized(k) && o < N(k) && p < LEVELS
    ensures Sized(r) && Repriced(k, r)
  {
    k.(inh := k.inh[o := k.inh[o][p := k.inh[o][p] + 1]])
  }

  function Drop(k: K, o: nat, p: nat): (r: K)
    requires Sized(k) && o < N(k) && p < LEVELS
    ensures Sized(r) && Repriced(k, r)
  {
    k.(inh := k.inh[o := k.inh[o][p := if k.inh[o][p] == 0 then 0 else k.inh[o][p] - 1]])
  }

  /** `refresh_inherited_priority` and `replace_inheritance`; `fuel` is what is left of the
      recursion depth the source allows. */
  function Refresh(k: K, t: nat, fuel: nat): (r: K)
    requires Sized(k) && t < N(k)
    ensures Sized(r) && Repriced(k, r)
    decreases fuel
  {
    var was, want := k.prio[t], Effective(k.base[t], k.inh[t]);
    if fuel == 0 || was == want then k
    else
      var k1 := SetEffective(k, t, want);
      match k.waitMtx[t]
      case None => k1
      case Some(m) =>
        var k2 := Resort(k1, m, t);
        match k.owner[m]
        case None => k2
        case Some(o) => Refresh(Bump(Drop(k2, o, was), o, want), o, fuel - 1)
  }

  function AddInheritance(k: K, o: nat, p: nat): (r: K)
    requires Sized(k) && o < N(k) && p < LEVELS
    ensures Sized(r) && Repriced(k, r)
  {
    Refresh(Bump(k, o, p), o, N(k))
  }

  function RemoveInheritance(k: K, o: nat, p: nat): (r: K)
    requires Sized(k) && o < N(k) && p < LEVELS
    ensures Sized(r) && Repriced(k, r)
  {
    Refresh(Drop(k, o, p), o, N(k))
  }

  function RemoveAll(k: K, o: nat, ws: seq<nat>): (r: K)
    requires Sized(k) && o < N(k) && Below(ws, N(k))
    ensures Sized(r) && Repriced(k, r)
    decreases |ws|
  {
    if ws == [] then k
    else RemoveAll(RemoveInheritance(k, o, k.prio[ws[0]]), o, ws[1..])
  }

  function AddAll(k: K, o: nat, ws: seq<nat>): (r: K)
    requires Sized(k) && o < N(k) && Below(ws, N(k))
    ensures Sized(r) && Repriced(k, r)
    decreases |ws|
  {
    if ws == [] then k
    else AddAll(AddInheritance(k, o, k.prio[ws[0]]), o, ws[1..])
  }

  // ---- Semaphores ------------------------------------------------------------------------

  /** A post: hand the permit to the first waiter, or bank it. */
  function ReleaseSem(k: K, s: nat): (r: K)
    requires Sized(k) && s < |k.count|
    ensures Sized(r)
  {
    var l := SemList(k, s);
    if k.q[l] == [] then k.(count := k.count[s := k.count[s] + 1])
    else
      var w := k.q[l][0];
      MakeReady(k.(q := k.q[l := k.q[l][1..]],
                   wakeAt := k.wakeAt[w := 0],
                   grantSem := k.grantSem[w := k.waitSem[w]],
                   waitSem := k.waitSem[w := None],
                   granted := k.granted[w := true]), w)
  }

  /** The deadline of a wait: give up at once, at an instant, or never. */
  datatype Patience = NoWait | Until(deadline: nat) | Forever

  datatype Reply = Acquired | TimedOut | Refused | Suspended

  function SemDown(k: K, s: nat, patience: Patience, deliverable: bool): (r: (K, Reply))
    requires Sized(k) && s < |k.count|
    ensures Sized(r.0)
  {
    var c := k.current;
    if k.count[s] > 0 then (k.(count := k.count[s := k.count[s] - 1]), Acquired)
    else if patience.NoWait? then (k, TimedOut)
    else if !deliverable || k.lockDepth[c] != 0 then (k, Refused)
    else
      var k1 := k.(state := k.state[c := Blocked],
                   wakeAt := k.wakeAt[c := if patience.Until? then patience.deadline else 0],
                   waitSem := k.waitSem[c := Some(s)],
                   granted := k.granted[c := false],
                   call := k.call[c := InSemaphore]);
      var l := SemList(k, s);
      (SwitchAway(k1.(q := k1.q[l := Insert(k1.q[l], c, k1.prio)])), Suspended)
  }

  /** The critical section a woken semaphore wait resumes with. */
  function ConsumeSem(k: K): (r: (K, Reply))
    requires Sized(k)
    ensures Sized(r.0)
  {
    var c := k.current;
    (k.(granted := k.granted[c := false], grantSem := k.grantSem[c := None], call := k.call[c := User]),
     if k.granted[c] then Acquired else TimedOut)
  }

  // ---- Mutexes ---------------------------------------------------------------------------

  function ReleaseMutex(k: K, m: nat, o: nat): (r: K)
    requires Sized(k) && m < |k.owner| && o < N(k)
    ensures Sized(r)
  {
    var l := MtxList(k, m);
    if k.q[l] == [] then k.(owner := k.owner[m := None])
    else
      var next, rest := k.q[l][0], k.q[l][1..];
      var k1 := RemoveInheritance(k.(q := k.q[l := rest]), o, k.prio[next]);
      var k2 := RemoveAll(k1, o, rest);
      AddAll(Grant(k2, m, next), next, rest)
  }

  /** Direct handoff: `next` owns the mutex once before it runs again. */
  function Grant(k: K, m: nat, next: nat): (r: K)
    requires Sized(k) && m < |k.owner| && next < N(k)
    ensures Sized(r) && N(r) == N(k)
  {
    MakeReady(k.(owner := k.owner[m := Some(next)],
                 depth := k.depth[m := 1],
                 grantMtx := k.grantMtx[next := k.waitMtx[next]],
                 waitMtx := k.waitMtx[next := None],
                 wakeAt := k.wakeAt[next := 0],
                 granted := k.granted[next := true]), next)
  }

  /** The owner of the mutex `t` waits for, if it waits for one that is owned. */
  function Hop(k: K, t: nat): (r: Option<nat>)
    requires Sized(k) && t < N(k)
    ensures r.Some? ==> r.value < N(k)
  {
    match k.waitMtx[t] case None => None case Some(m) => k.owner[m]
  }

  /** `mutex_chain_contains` with `steps` iterations left. */
  function ChainContains(k: K, t: nat, sought: nat, steps: nat): bool
    requires Sized(k) && t < N(k)
    decreases steps
  {
    steps == 0 || t == sought ||
    (match Hop(k, t) case None => false case Some(o) => ChainContains(k, o, sought, steps - 1))
  }

  function MutexLock(k: K, m: nat, patience: Patience, deliverable: bool): (r: (K, Reply))
    requires Sized(k) && m < |k.owner|
    ensures Sized(r.0)
  {
    var c := k.current;
    if k.owner[m] == Some(c) then
      if k.depth[m] == U32_MAX then (k, Refused)
      else (k.(depth := k.depth[m := k.depth[m] + 1]), Acquired)
    else if k.owner[m] == None then
      (k.(owner := k.owner[m := Some(c)], depth := k.depth[m := 1]), Acquired)
    else if patience.NoWait? then (k, TimedOut)
    else if !deliverable || k.lockDepth[c] != 0 || ChainContains(k, k.owner[m].value, c, N(k)) then (k, Refused)
    else (SwitchAway(Enlist(k, m, patience)), Suspended)
  }

  /** Queue the current task on `m` and donate its priority along the owner chain. */
  function Enlist(k: K, m: nat, patience: Patience): (r: K)
    requires Sized(k) && m < |k.owner| && k.owner[m].Some?
    ensures Sized(r)
  {
    var c := k.current;
    var k1 := k.(state := k.state[c := Blocked],
                 wakeAt := k.wakeAt[c := if patience.Until? then patience.deadline else 0],
                 waitMtx := k.waitMtx[c := Some(m)],
                 granted := k.granted[c := false],
                 call := k.call[c := InMutex]);
    var l := MtxList(k, m);
    AddInheritance(k1.(q := k1.q[l := Insert(k1.q[l], c, k1.prio)]), k.owner[m].value, k.prio[c])
  }

  function ConsumeMtx(k: K): (r: (K, Reply))
    requires Sized(k)
    ensures Sized(r.0)
  {
    var c := k.current;
    (k.(granted := k.granted[c := false], grantMtx := k.grantMtx[c := None], call := k.call[c := User]),
     if k.granted[c] then Acquired else TimedOut)
  }

  function MutexUnlock(k: K, m: nat): (r: (K, Reply))
    requires Sized(k) && m < |k.owner|
    ensures Sized(r.0)
  {
    var c := k.current;
    if k.owner[m] != Some(c) || k.depth[m] == 0 then (k, Refused)
    else
      var k1 := k.(depth := k.depth[m := k.depth[m] - 1]);
      if k1.depth[m] != 0 then (k1, Acquired) else (ReleaseMutex(k1, m, c), Acquired)
  }

  /** Leave a mutex queue and take the donation back. */
  function Withdraw(k: K, t: nat, m: nat): (r: K)
    requires Sized(k) && t < N(k) && m < |k.owner|
    ensures Sized(r) && Repriced(k, r)
  {
    var l := MtxList(k, m);
    var k1 := k.(q := k.q[l := Without(k.q[l], t)]);
    if k.owner[m].Some? then RemoveInheritance(k1, k.owner[m].value, k.prio[t]) else k1
  }

  function LeaveSem(k: K, t: nat): (r: K)
    requires Sized(k) && t < N(k) && k.waitSem[t].Some?
    ensures Sized(r)
  {
    var l := SemList(k, k.waitSem[t].value);
    MakeReady(k.(q := k.q[l := Without(k.q[l], t)],
                 waitSem := k.waitSem[t := None],
                 granted := k.granted[t := false],
                 grantSem := k.grantSem[t := None],
                 wakeAt := k.wakeAt[t := 0]), t)
  }

  function LeaveMtx(k: K, t: nat): (r: K)
    requires Sized(k) && t < N(k) && k.waitMtx[t].Some?
    ensures Sized(r)
  {
    var k1 := Withdraw(k, t, k.waitMtx[t].value);
    MakeReady(k1.(waitMtx := k1.waitMtx[t := None],
                  granted := k1.granted[t := false],
                  grantMtx := k1.grantMtx[t := None],
                  wakeAt := k1.wakeAt[t := 0]), t)
  }

  /** `cancel_wait_locked`: a queued wait, or a handoff that was not consumed yet. */
  function Cancel(k: K, t: nat): (r: (K, bool))
    requires Sized(k) && t < N(k)
    ensures Sized(r.0)
  {
    if k.waitSem[t].Some? then (LeaveSem(k, t), true)
    else if k.grantSem[t].Some? then
      (ReleaseSem(k.(grantSem := k.grantSem[t := None], granted := k.granted[t := false]), k.grantSem[t].value), true)
    else if k.waitMtx[t].Some? then (LeaveMtx(k, t), true)
    else if k.grantMtx[t].Some? then
      var m := k.grantMtx[t].value;
      (ReleaseMutex(k.(grantMtx := k.grantMtx[t := None], granted := k.granted[t := false],
                       depth := k.depth[m := 0]), m, t), true)
    else (k, false)
  }

  // ---- Timer -----------------------------------------------------------------------------

  predicate Expired(k: K, t: nat, now: nat)
    requires Sized(k) && t < N(k)
  {
    k.state[t] == Blocked && k.wakeAt[t] != 0 && now >= k.wakeAt[t]
  }

  function WakeOne(k: K, t: nat, now: nat): (r: K)
    requires Sized(k) && t < N(k)
    ensures Sized(r) && N(r) == N(k)
  {
    if k.state[t] == Sleeping && now >= k.wakeAt[t] then MakeReady(k, t)
    else if Expired(k, t, now) && k.waitSem[t].Some? then LeaveSem(k, t)
    else if Expired(k, t, now) && k.waitMtx[t].Some? then LeaveMtx(k, t)
    else k
  }

  function ReplenishOne(k: K, t: nat, now: nat): (r: K)
    requires Sized(k) && t < N(k) && now <= Budget.U64_MAX
    ensures Sized(r) && N(r) == N(k)
  {
    if k.state[t] == Throttled && Budget.ReplenishDue(k.budget[t], now) then
      Budget.ValidKept(k.budget[t], Budget.Cooperative, now, false);
      MakeReady(k.(budget := k.budget[t := Budget.ReplenishIfDue(k.budget[t], now)]), t)
    else k
  }

  /** The first `n` iterations of the two scans of `wake_sleepers`. */
  function WakeFirst(k: K, n: nat, now: nat): (r: K)
    requires Sized(k) && n <= N(k)
    ensures Sized(r) && N(r) == N(k)
  {
    if n == 0 then k else WakeOne(WakeFirst(k, n - 1, now), n - 1, now)
  }

  function ReplenishFirst(k: K, n: nat, now: nat): (r: K)
    requires Sized(k) && n <= N(k) && now <= Budget.U64_MAX
    ensures Sized(r) && N(r) == N(k)
  {
    if n == 0 then k else ReplenishOne(ReplenishFirst(k, n - 1, now), n - 1, now)
  }

  function WakeSleepers(k: K, now: nat): (r: K)
    requires Sized(k) && now <= Budget.U64_MAX
    ensures Sized(r) && N(r) == N(k)
  {
    ReplenishFirst(WakeFirst(k, N(k), now), N(k), now)
  }

  /** Charge the running task; exhaustion throttles it, or is deferred by its lock. */
  function ChargeCurrent(k: K, now: nat): (r: K)
    requires Sized(k) && now <= Budget.U64_MAX
    ensures Sized(r)
  {
    var c := k.current;
    if k.state[c] != Running then k
    else
      Budget.ValidKept(k.budget[c], Budget.Cooperative, now, k.lockDepth[c] != 0);
      var (b, expiry) := Budget.OnTimer(k.budget[c], now, k.lockDepth[c] != 0);
      k.(budget := k.budget[c := b],
         state := if expiry.ThrottleNow? then k.state[c := Throttled] else k.state)
  }

  /** `on_timer` and the slice flag the interrupt sets when `slice` is due. */
  function OnTimer(k: K, now: nat, slice: bool): (r: K)
    requires Sized(k) && now <= Budget.U64_MAX
    ensures Sized(r)
  {
    var k1 := ChargeCurrent(WakeSleepers(k, now), now);
    if slice then k1.(slicePending := true) else k1
  }

  /** What `on_timer` reports: how long the running task has held the scheduler lock, if that
      is as long as the contract allows. */
  function LockReport(k: K, now: nat, limit: nat): Option<nat>
    requires Sized(k)
  {
    var start := k.lockStart[k.current];
    if k.state[k.current] == Running && start.Some? && Budget.SatSub(now, start.value) >= limit
    then Some(Budget.SatSub(now, start.value)) else None
  }

  // ---- Dispatch --------------------------------------------------------------------------

  /** `take_reschedule_target`: whether the running task must give way now. */
  predicate MustYield(k: K, allowEqual: bool)
    requires Sized(k)
  {
    var c := k.current;
    && k.state[c] == Running && k.lockDepth[c] == 0
    && (if c == IDLE then FirstBucket(k.q, 0) < LEVELS
        else k.policy[c].Preemptive? && FirstBucket(k.q, 0) < k.prio[c] + (if allowEqual then 1 else 0))
  }

  function TakeReschedule(k: K, allowEqual: bool): (r: (K, Option<nat>))
    requires Sized(k)
    ensures Sized(r.0) && (r.1.Some? ==> r.1.value < N(k))
  {
    if !MustYield(k, allowEqual) then (k, None)
    else var (k1, next) := PopReady(k); (MakeReady(k1, k1.current), next)
  }

  function Dispatch(k: K, next: nat, now: nat): (r: K)
    requires Sized(k) && next < N(k) && now <= Budget.U64_MAX
    ensures Sized(r)
  {
    Budget.ValidKept(k.budget[k.current], Budget.Cooperative, now, false);
    var out := k.budget[k.current := Budget.OnSwitchOut(k.budget[k.current], now)];
    Budget.ValidKept(out[next], Budget.Cooperative, now, false);
    k.(budget := out[next := Budget.OnDispatch(out[next], now)],
       state := k.state[next := Running],
       resume := k.resume[next := if k.resume[next] == U32_MAX then 0 else k.resume[next] + 1],
       current := next,
       slicePending := false)
  }

  /** `schedule_from_trap` on the outermost interrupt. */
  function Trap(k: K, now: nat): (r: K)
    requires Sized(k) && now <= Budget.U64_MAX
    ensures Sized(r)
  {
    if k.pending.Some? then
      var k1 := k.(pending := None, lastSeq := k.pending.value.sequence);
      Dispatch(k1.(current := k.pending.value.previous), k.pending.value.target, now)
    else if k.state[k.current] != Running then
      var (k1, next) := PopReadyOrIdle(k);
      Dispatch(k1, next, now)
    else
      var (k1, next) := TakeReschedule(k, k.slicePending);
      if next.None? then k1 else Dispatch(k1, next.value, now)
  }

  function Yield(k: K, now: nat): (r: (K, Reply))
    requires Sized(k) && now <= Budget.U64_MAX
    ensures Sized(r.0)
  {
    if k.lockDepth[k.current] != 0 then (k, Refused)
    else
      var (k1, next) := PopReady(WakeSleepers(k, now));
      if next.None? then (k1, Acquired)
      else (Commit(MakeReady(k1, k1.current), next.value), Suspended)
  }

  function Sleep(k: K, until: nat): (r: (K, Reply))
    requires Sized(k)
    ensures Sized(r.0)
  {
    var c := k.current;
    if k.lockDepth[c] != 0 then (k, Refused)
    else (SwitchAway(k.(state := k.state[c := Sleeping], wakeAt := k.wakeAt[c := until])), Suspended)
  }

  /** `task_exit`: the control block becomes `Tcb::empty()`. */
  function Exit(k: K): (r: K)
    requires Sized(k)
    ensures Sized(r)
  {
    var c := k.current;
    SwitchAway(k.(state := k.state[c := Free],
                  wakeAt := k.wakeAt[c := 0],
                  waitSem := k.waitSem[c := None],
                  waitMtx := k.waitMtx[c := None],
                  granted := k.granted[c := false],
                  grantSem := k.grantSem[c := None],
                  grantMtx := k.grantMtx[c := None],
                  base := k.base[c := LEVELS - 1],
                  prio := k.prio[c := LEVELS - 1],
                  inh := k.inh[c := seq(LEVELS, _ => 0)],
                  lockDepth := k.lockDepth[c := 0],
                  lockStart := k.lockStart[c := None],
                  ident := k.ident[c := 0],
                  resume := k.resume[c := 0],
                  policy := k.policy[c := Budget.Cooperative],
                  budget := k.budget[c := Budget.Unbudgeted()],
                  call := k.call[c := User]))
  }

  function NextGeneration(g: nat): (r: nat)
    ensures r >= 1
  {
    if g >= U16_MAX then 1 else g + 1
  }

  function Spawn(k: K, t: nat, p: nat, policy: Budget.Policy, now: nat): (r: K)
    requires Sized(k) && t < N(k) && p < LEVELS && Budget.ValidPolicy(policy) && now <= Budget.U64_MAX
    ensures Sized(r)
  {
    var g := NextGeneration(k.slotGen[t]);
    Budget.ValidKept(k.budget[t], policy, now, false);
    MakeReady(k.(slotGen := k.slotGen[t := g],
                 ident := k.ident[t := g],
                 wakeAt := k.wakeAt[t := 0],
                 base := k.base[t := p],
                 prio := k.prio[t := p],
                 policy := k.policy[t := policy],
                 budget := k.budget[t := Budget.ForPolicy(policy, now)]), t)
  }

  function SetPriority(k: K, t: nat, p: nat): (r: K)
    requires Sized(k) && t < N(k) && p < LEVELS
    ensures Sized(r)
  {
    Refresh(k.(base := k.base[t := p]), t, N(k))
  }

  /** A fresh policy lifetime; a running task is dispatched into it at once. */
  function FreshBudget(policy: Budget.Policy, running: bool, now: nat): (b: Budget.State)
    requires Budget.ValidPolicy(policy) && now <= Budget.U64_MAX
    ensures Budget.Valid(b) && !b.lockOverrun
    ensures b.spec == if policy.Budgeted? then Some(policy.spec) else None
  {
    var b := Budget.ForPolicy(policy, now);
    Budget.ValidKept(Budget.Unbudgeted(), policy, now, false);
    Budget.ValidKept(b, policy, now, false);
    if running then Budget.OnDispatch(b, now) else b
  }

  function SetPolicy(k: K, t: nat, policy: Budget.Policy, now: nat): (r: K)
    requires Sized(k) && t < N(k) && Budget.ValidPolicy(policy) && now <= Budget.U64_MAX
    ensures Sized(r)
  {
    var queued := k.state[t] == Ready && InReady(k, t);
    var throttled := k.state[t] == Throttled;
    var q := if queued then k.q[k.prio[t] := Without(k.q[k.prio[t]], t)] else k.q;
    var k1 := k.(q := q,
                 policy := k.policy[t := policy],
                 budget := k.budget[t := FreshBudget(policy, k.state[t] == Running, now)],
                 state := if throttled then k.state[t := Ready] else k.state);
    if queued || throttled then ReadyPush(k1, t) else k1
  }

  // ---- Scheduler lock --------------------------------------------------------------------

  function LockScheduler(k: K, now: nat): (r: (K, Reply))
    requires Sized(k)
    ensures Sized(r.0)
  {
    var c := k.current;
    if k.lockDepth[c] == U16_MAX then (k, Refused)
    else (k.(lockStart := if k.lockDepth[c] == 0 then k.lockStart[c := Some(now)] else k.lockStart,
             lockDepth := k.lockDepth[c := k.lockDepth[c] + 1]), Acquired)
  }

  /** The exhaustion a lock deferred takes effect: throttle and switch. */
  function ThrottleCurrent(k: K, now: nat): (r: K)
    requires Sized(k) && now <= Budget.U64_MAX && k.budget[k.current].lockOverrun
    ensures Sized(r)
  {
    var c := k.current;
    Budget.ValidKept(k.budget[c], Budget.Cooperative, now, false);
    SwitchAway(k.(budget := k.budget[c := Budget.Throttled(k.budget[c], now)],
                  state := k.state[c := Throttled]))
  }

  /** The end of an unlock that throttles nobody: a switch if the running task must give way. */
  function DueSwitch(k: K): (r: (K, Reply))
    requires Sized(k)
    ensures Sized(r.0)
  {
    var (k1, next) := TakeReschedule(k, k.slicePending);
    if next.None? then (k1, Acquired) else (Commit(k1.(slicePending := false), next.value), Suspended)
  }

  function UnlockScheduler(k: K, now: nat): (r: (K, Reply))
    requires Sized(k) && now <= Budget.U64_MAX
    ensures Sized(r.0)
  {
    var c := k.current;
    if k.lockDepth[c] == 0 then (k, Refused)
    else
      var k1 := k.(lockDepth := k.lockDepth[c := k.lockDepth[c] - 1],
                   lockStart := if k.lockDepth[c] == 1 then k.lockStart[c := None] else k.lockStart);
      if k1.lockDepth[c] == 0 && k1.budget[c].lockOverrun then (ThrottleCurrent(k1, now), Suspended)
      else DueSwitch(k1)
  }
}
