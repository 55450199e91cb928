/** What every reachable scheduler state satisfies. */
module Invariant {
  import opened Lists
  import opened Kernel
  import opened Inheritance
  import opened Chains

  /** Lists, ledger and priorities: each list holds exactly its own tasks in order, each
      donation count and effective priority is right, and nobody waits in a circle. */
  ghost predicate Core(k: K) {
    && Sized(k)
    && Mid(k, Edges(k), Homes(k))
    && Acyclic(Edges(k))
    && forall t :: 0 <= t < N(k) ==> Priced(k, t)
  }

  /** A mutex is owned exactly while it is held, its owner is alive, and it has an owner
      whenever somebody waits for it. */
  ghost predicate Owners(owner: seq<Option<nat>>, depth: seq<nat>, state: seq<Status>, waitMtx: seq<Option<nat>>) {
    && |depth| == |owner|
    && (forall m :: 0 <= m < |owner| ==> (owner[m].Some? <==> depth[m] >= 1))
    && (forall m :: 0 <= m < |owner| && owner[m].Some? ==> owner[m].value < |state| && state[owner[m].value] != Free)
    && (forall t :: 0 <= t < |waitMtx| && waitMtx[t].Some? ==>
          waitMtx[t].value < |owner| && owner[waitMtx[t].value].Some?)
  }

  /** Waits and grants belong to the wait call the task is in; a granted task no longer waits. */
  ghost predicate Calls(call: seq<Call>, state: seq<Status>, waitSem: seq<Option<nat>>, waitMtx: seq<Option<nat>>,
                        granted: seq<bool>, grantSem: seq<Option<nat>>, grantMtx: seq<Option<nat>>) {
    && |call| == |state| == |waitSem| == |waitMtx| == |granted| == |grantSem| == |grantMtx|
    && (forall t :: 0 <= t < |call| && (waitSem[t].Some? || grantSem[t].Some?) ==> call[t] == InSemaphore)
    && (forall t :: 0 <= t < |call| && (waitMtx[t].Some? || grantMtx[t].Some?) ==> call[t] == InMutex)
    && (forall t :: 0 <= t < |call| && (waitSem[t].Some? || waitMtx[t].Some?) ==> !granted[t])
    && (forall t :: 0 <= t < |call| ==> (granted[t] <==> grantSem[t].Some? || grantMtx[t].Some?))
    && (forall t :: 0 <= t < |call| && granted[t] ==> state[t] in {Ready, Running, Throttled})
  }

  /** A mutex grant that was not consumed yet is ownership at depth one. */
  ghost predicate HandedOff(grantMtx: seq<Option<nat>>, owner: seq<Option<nat>>, depth: seq<nat>) {
    && |depth| == |owner|
    && forall t :: 0 <= t < |grantMtx| && grantMtx[t].Some? ==>
         grantMtx[t].value < |owner| && owner[grantMtx[t].value] == Some(t) && depth[grantMtx[t].value] == 1
  }

  /** Nobody waits for a semaphore that still has permits. */
  ghost predicate Dry(waitSem: seq<Option<nat>>, count: seq<nat>) {
    forall t :: 0 <= t < |waitSem| && waitSem[t].Some? ==> waitSem[t].value < |count| && count[waitSem[t].value] == 0
  }

  ghost predicate Reasons(state: seq<Status>, waitSem: seq<Option<nat>>, waitMtx: seq<Option<nat>>) {
    && |state| == |waitSem| == |waitMtx|
    && forall t :: 0 <= t < |state| && state[t] == Blocked ==> waitSem[t].Some? || waitMtx[t].Some?
  }

  /** One hart: only `current` runs. A pending ticket has `current` as its non-running source
      and a Ready target of the same identity; without one, `current` runs, unless the timer
      has just throttled it. Tickets are numbered in order, and all but the pending one were
      consumed. */
  ghost predicate Hart(state: seq<Status>, current: nat, pending: Option<Ticket>, ident: seq<nat>, nextSeq: nat, lastSeq: nat) {
    && |ident| == |state| && current < |state| && IDLE < |state|
    && state[IDLE] in {Ready, Running}
    && (forall t :: 0 <= t < |state| && state[t] == Running ==> t == current)
    && match pending
       case None =>
         && lastSeq == nextSeq
         && (state[current] == Running || (state[current] in {Throttled, Ready} && current != IDLE))
       case Some(tk) =>
         && tk.sequence == nextSeq == lastSeq + 1
         && tk.previous == current && state[current] != Running
         && tk.target < |state| && tk.target != current && state[tk.target] == Ready
         && tk.previousIdent == ident[current] && tk.targetIdent == ident[tk.target]
  }

  /** Only the running task holds the scheduler lock; its start is recorded exactly while it
      does; an exhaustion is deferred only under the lock. */
  ghost predicate Locks(state: seq<Status>, current: nat, lockDepth: seq<nat>, lockStart: seq<Option<nat>>, budget: seq<Budget.State>) {
    && |state| == |lockDepth| == |lockStart| == |budget| && current < |state|
    && (forall t :: 0 <= t < |state| && lockDepth[t] != 0 ==> t == current && state[t] == Running)
    && (forall t :: 0 <= t < |state| ==> (lockStart[t].Some? <==> lockDepth[t] != 0))
    && (forall t :: 0 <= t < |state| && budget[t].lockOverrun ==> lockDepth[t] != 0)
  }

  /** A throttled task has a budget with nothing remaining; the idle task has none. */
  ghost predicate Quotas(state: seq<Status>, budget: seq<Budget.State>) {
    && |budget| == |state| && IDLE < |state| && budget[IDLE].spec.None?
    && forall t :: 0 <= t < |state| && state[t] == Throttled ==> budget[t].spec.Some? && budget[t].remaining == 0
  }

  /** Everything but lists, priorities and the hart. */
  ghost predicate Rest(k: K) {
    && Sized(k)
    && Owners(k.owner, k.depth, k.state, k.waitMtx)
    && Calls(k.call, k.state, k.waitSem, k.waitMtx, k.granted, k.grantSem, k.grantMtx)
    && HandedOff(k.grantMtx, k.owner, k.depth)
    && Dry(k.waitSem, k.count)
    && Reasons(k.state, k.waitSem, k.waitMtx)
    && Locks(k.state, k.current, k.lockDepth, k.lockStart, k.budget)
    && Quotas(k.state, k.budget)
  }

  ghost predicate Side(k: K) {
    Rest(k) && Hart(k.state, k.current, k.pending, k.ident, k.nextSeq, k.lastSeq)
  }

  ghost predicate Inv(k: K) {
    Sized(k) && Core(k) && Side(k)
  }

  // ---- One task changes state ---------------------------------------------------------------------

  lemma OwnersState(owner: seq<Option<nat>>, depth: seq<nat>, state: seq<Status>, waitMtx: seq<Option<nat>>, t: nat, s: Status)
    requires Owners(owner, depth, state, waitMtx) && t < |state|
    requires s == Free ==> forall m :: 0 <= m < |owner| ==> owner[m] != Some(t)
    ensures Owners(owner, depth, state[t := s], waitMtx)
  {
  }

  lemma HartReadied(state: seq<Status>, current: nat, pending: Option<Ticket>, ident: seq<nat>, nextSeq: nat, lastSeq: nat, t: nat)
    requires Hart(state, current, pending, ident, nextSeq, lastSeq) && t < |state| && state[t] != Running && t != IDLE
    ensures Hart(state[t := Ready], current, pending, ident, nextSeq, lastSeq)
  {
  }

  lemma LocksState(state: seq<Status>, current: nat, lockDepth: seq<nat>, lockStart: seq<Option<nat>>, budget: seq<Budget.State>, t: nat, s: Status)
    requires Locks(state, current, lockDepth, lockStart, budget) && t < |state| && (state[t] != Running || lockDepth[t] == 0)
    ensures Locks(state[t := s], current, lockDepth, lockStart, budget)
  {
  }

  lemma QuotasState(state: seq<Status>, budget: seq<Budget.State>, t: nat, s: Status)
    requires Quotas(state, budget) && t < |state|
    requires s == Throttled ==> budget[t].spec.Some? && budget[t].remaining == 0
    ensures Quotas(state[t := s], budget)
  {
  }

  lemma CallsState(call: seq<Call>, state: seq<Status>, waitSem: seq<Option<nat>>, waitMtx: seq<Option<nat>>,
                   granted: seq<bool>, grantSem: seq<Option<nat>>, grantMtx: seq<Option<nat>>, t: nat, s: Status)
    requires Calls(call, state, waitSem, waitMtx, granted, grantSem, grantMtx) && t < |state|
    requires granted[t] ==> s in {Ready, Running, Throttled}
    ensures Calls(call, state[t := s], waitSem, waitMtx, granted, grantSem, grantMtx)
  {
  }

  lemma ReasonsState(state: seq<Status>, waitSem: seq<Option<nat>>, waitMtx: seq<Option<nat>>, t: nat, s: Status)
    requires Reasons(state, waitSem, waitMtx) && t < |state| && (s == Blocked ==> waitSem[t].Some? || waitMtx[t].Some?)
    ensures Reasons(state[t := s], waitSem, waitMtx)
  {
  }

  // ---- Small steps in the middle of an operation -------------------------------------------------

  /** The fields that `Core` looks at are the same in both states. */
  ghost predicate SameCore(k: K, r: K) {
    && r.state == k.state && r.waitSem == k.waitSem && r.waitMtx == k.waitMtx && r.base == k.base
    && r.prio == k.prio && r.inh == k.inh && r.q == k.q && r.owner == k.owner && |r.count| == |k.count|
  }

  lemma SameCoreKeeps(k: K, r: K)
    requires Core(k) && Sized(r) && SameCore(k, r)
    requires forall t :: 0 <= t < N(k) && k.state[t] == Ready ==> IsTarget(k, t) == IsTarget(r, t)
    ensures Core(r)
  {
    hide Placed, WaitSorted, Ledger, Effective;
    assert Homes(r) == Homes(k);
    assert forall t :: 0 <= t < N(k) ==> Priced(k, t) ==> Priced(r, t);
  }

  /** Conclude `Core` from a mid-operation state whose books match the stable rules. */
  lemma Conclude(k: K, don: seq<Option<nat>>, home: seq<Option<nat>>)
    requires Mid(k, don, home) && Acyclic(don) && forall t :: 0 <= t < N(k) ==> Priced(k, t)
    requires forall t :: 0 <= t < N(k) ==> don[t] == Hop(k, t)
    requires forall t :: 0 <= t < N(k) ==> home[t] == Home(k, t)
    ensures Core(k)
  {
    hide Placed, WaitSorted, Ledger, Effective, Waiting;
    assert don == Edges(k);
    assert home == Homes(k);
  }

  /** Only the state, lists and waits differ, and they still fit. */
  lemma MidLists(k: K, r: K, don: seq<Option<nat>>, home: seq<Option<nat>>, home': seq<Option<nat>>)
    requires Mid(k, don, home) && Sized(r) && N(r) == N(k) && |home'| == N(k)
    requires r.prio == k.prio && r.inh == k.inh
    requires Placed(r.q, home') && WaitSorted(r.q, r.prio) && Waiting(r.state, r.waitSem, r.waitMtx)
    requires forall t :: 0 <= t < N(k) && home'[t].Some? && home'[t].value < LEVELS ==> home'[t].value == k.prio[t]
    ensures Mid(r, don, home')
  {
    hide Placed, WaitSorted, Ledger, Waiting;
    assert home' == Rehome(home', r.prio);
  }

  /** Append `t` to its ready bucket. */
  lemma AppendKeeps(q: seq<seq<nat>>, home: seq<Option<nat>>, prio: seq<nat>, t: nat)
    requires Placed(q, home) && WaitSorted(q, prio) && t < |home| && home[t].None? && t < |prio| && prio[t] < LEVELS <= |q|
    ensures var q' := q[prio[t] := q[prio[t]] + [t]]; Placed(q', home[t := Some(prio[t])]) && WaitSorted(q', prio)
  {
    PlacedAppend(q, home, prio[t], t);
  }

  /** Take `t` out of the list it is in. */
  lemma TakeKeeps(q: seq<seq<nat>>, home: seq<Option<nat>>, prio: seq<nat>, t: nat)
    requires Placed(q, home) && WaitSorted(q, prio) && t < |home| && home[t].Some?
    ensures var l := home[t].value;
      var q' := q[l := Without(q[l], t)]; Placed(q', home[t := None]) && WaitSorted(q', prio)
  {
    var l := home[t].value;
    PlacedWithout(q, home, l, t);
    if LEVELS <= l {
      WithoutSorted(q[l], t, prio);
    }
  }

  /** Insert `t` into a wait queue. */
  lemma EnterKeeps(q: seq<seq<nat>>, home: seq<Option<nat>>, prio: seq<nat>, t: nat, l: nat)
    requires Placed(q, home) && WaitSorted(q, prio) && t < |home| && home[t].None? && t < |prio|
    requires LEVELS <= l < |q| && Below(q[l], |prio|)
    ensures var q' := q[l := Insert(q[l], t, prio)]; Placed(q', home[t := Some(l)]) && WaitSorted(q', prio)
  {
    PlacedInsert(q, home, l, t, prio);
    InsertSorted(q[l], t, prio);
  }
}
