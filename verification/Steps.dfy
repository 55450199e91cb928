/** Lists, ledger and priorities across every critical section. */
module Steps {
  import opened Lists
  import Budget
  import opened Kernel
  import opened Inheritance
  import opened Chains
  import opened Invariant

  /** Nothing about mutexes or priorities differs. */
  ghost predicate SameDonations(k: K, r: K) {
    && r.base == k.base && r.prio == k.prio && r.inh == k.inh && r.waitMtx == k.waitMtx && r.owner == k.owner
    && |r.count| == |k.count|
  }

  /** A step that leaves donations alone keeps `Core` if the lists follow the tasks. */
  lemma Moved(k: K, r: K, home: seq<Option<nat>>)
    requires Core(k) && Sized(r) && N(r) == N(k) && SameDonations(k, r) && |home| == N(k)
    requires Placed(r.q, home) && WaitSorted(r.q, r.prio) && Waiting(r.state, r.waitSem, r.waitMtx)
    requires forall t :: 0 <= t < N(r) ==> home[t] == Home(r, t)
    ensures Core(r)
  {
    hide Placed, WaitSorted, Ledger, Waiting, Effective;
    MidLists(k, r, Edges(k), Homes(k), home);
    assert forall t :: 0 <= t < N(k) ==> Priced(k, t) ==> Priced(r, t);
    Conclude(r, Edges(k), home);
  }

  // ---- Becoming ready -------------------------------------------------------------------------------

  /** A task that was in no list becomes Ready in its bucket. */
  lemma ReadiedCore(k: K, t: nat)
    requires Core(k) && t < N(k) && t != IDLE && !IsTarget(k, t)
    requires k.state[t] != Ready && k.waitSem[t].None? && k.waitMtx[t].None?
    ensures Core(MakeReady(k, t))
  {
    hide Placed, WaitSorted, Ledger, Effective, Acyclic;
    var r := MakeReady(k, t);
    AppendKeeps(k.q, Homes(k), k.prio, t);
    Moved(k, r, Homes(k)[t := Some(k.prio[t])]);
  }

  /** Only `t` changed state and semaphore wait, from waiting to Ready. */
  ghost predicate SemWoken(k: K, r: K, t: nat) {
    && Sized(k) && Sized(r) && N(r) == N(k) && t < N(k) && t != IDLE && !IsTarget(k, t)
    && k.waitSem[t].Some? && SameDonations(k, r) && r.pending == k.pending
    && r.state == k.state[t := Ready] && r.waitSem == k.waitSem[t := None]
  }

  lemma SemWokenHome(k: K, r: K, t: nat, x: nat)
    requires SemWoken(k, r, t) && Waiting(k.state, k.waitSem, k.waitMtx) && x < N(k)
    ensures Home(k, t) == Some(SemList(k, k.waitSem[t].value))
    ensures Home(r, x) == if x == t then Some(k.prio[t]) else Home(k, x)
    ensures Waiting(r.state, r.waitSem, r.waitMtx)
  {
  }

  /** A semaphore waiter leaves its queue for its ready bucket; the rest of the task's
      fields may change. */
  lemma SemWokenCore(k: K, r: K, t: nat)
    requires Core(k) && SemWoken(k, r, t)
    requires var l := SemList(k, k.waitSem[t].value);
      var q := k.q[l := Without(k.q[l], t)]; r.q == q[k.prio[t] := q[k.prio[t]] + [t]]
    ensures Core(r)
  {
    hide Placed, WaitSorted, Ledger, Effective, Acyclic, Waiting, Home;
    var l := SemList(k, k.waitSem[t].value);
    SemWokenHome(k, r, t, t);
    TakeKeeps(k.q, Homes(k), k.prio, t);
    AppendKeeps(k.q[l := Without(k.q[l], t)], Homes(k)[t := None], k.prio, t);
    var home := Homes(k)[t := None][t := Some(k.prio[t])];
    forall x | 0 <= x < N(k) ensures home[x] == Home(r, x) {
      SemWokenHome(k, r, t, x);
    }
    Moved(k, r, home);
  }

  lemma FirstWaiter(k: K, l: nat)
    requires Core(k) && LEVELS <= l < |k.q| && k.q[l] != []
    ensures Homes(k)[k.q[l][0]] == Some(l)
    ensures Without(k.q[l], k.q[l][0]) == k.q[l][1..]
  {
    hide WaitSorted, Ledger, Effective, Acyclic;
    PlacedPop(k.q, Homes(k), l);
    WithoutAt(k.q[l], 0);
  }

  lemma ReleaseSemCore(k: K, s: nat)
    requires Core(k) && s < |k.count|
    requires forall t :: 0 <= t < N(k) && k.waitSem[t].Some? ==> t != IDLE && !IsTarget(k, t)
    ensures Core(ReleaseSem(k, s))
  {
    hide Placed, WaitSorted, Ledger, Effective, Acyclic;
    var l := SemList(k, s);
    var r := ReleaseSem(k, s);
    if k.q[l] == [] {
      SameCoreKeeps(k, r);
    } else {
      FirstWaiter(k, l);
      SemWokenCore(k, r, k.q[l][0]);
    }
  }

  lemma LeaveSemCore(k: K, t: nat)
    requires Core(k) && t < N(k) && t != IDLE && !IsTarget(k, t) && k.waitSem[t].Some?
    ensures Core(LeaveSem(k, t))
  {
    hide Placed, WaitSorted, Ledger, Effective, Acyclic;
    SemWokenCore(k, LeaveSem(k, t), t);
  }

  // ---- Leaving the hart ----------------------------------------------------------------------------------

  /** The running task enters a state that belongs in no list. */
  lemma ParkedCore(k: K, r: K, c: nat)
    requires Core(k) && Sized(r) && N(r) == N(k) && c < N(k) && SameDonations(k, r) && r.pending == k.pending && r.q == k.q
    requires k.state[c] !in {Ready, Blocked} && r.state == k.state[c := r.state[c]] && r.state[c] !in {Ready, Blocked}
    requires r.waitSem == k.waitSem
    ensures Core(r)
  {
    hide Placed, WaitSorted, Ledger, Effective, Acyclic;
    assert forall t :: 0 <= t < N(k) ==> Home(r, t) == Homes(k)[t];
    Moved(k, r, Homes(k));
  }

  /** The running task joins a semaphore queue. */
  lemma SemJoinedCore(k: K, r: K, c: nat, s: nat)
    requires Core(k) && Sized(r) && N(r) == N(k) && c < N(k) && s < |k.count| && SameDonations(k, r) && r.pending == k.pending
    requires k.state[c] == Running && r.state == k.state[c := Blocked] && r.waitSem == k.waitSem[c := Some(s)]
    requires var l := SemList(k, s); r.q == k.q[l := Insert(k.q[l], c, k.prio)]
    ensures Core(r)
  {
    hide Placed, WaitSorted, Ledger, Effective, Acyclic;
    assert k.waitSem[c].None? && k.waitMtx[c].None?;
    EnterKeeps(k.q, Homes(k), k.prio, c, SemList(k, s));
    Moved(k, r, Homes(k)[c := Some(SemList(k, s))]);
  }

  // ---- Tickets and dispatch ---------------------------------------------------------------------------------

  /** The most urgent ready task. */
  lemma PoppedIs(k: K)
    requires Core(k)
    ensures var r := PopReady(k);
      match r.1
      case None => r.0 == k && forall l :: 0 <= l < LEVELS ==> k.q[l] == []
      case Some(x) =>
        && Homes(k)[x] == Some(k.prio[x]) && k.state[x] == Ready && x != IDLE && !IsTarget(k, x)
        && r.0 == k.(q := k.q[k.prio[x] := Without(k.q[k.prio[x]], x)])
        && k.q[k.prio[x]][0] == x
        && (forall l :: 0 <= l < k.prio[x] ==> k.q[l] == [])
        && Placed(r.0.q, Homes(k)[x := None]) && WaitSorted(r.0.q, k.prio)
  {
    hide WaitSorted, Ledger, Effective, Acyclic;
    var l := FirstBucket(k.q, 0);
    if l < LEVELS {
      PlacedPop(k.q, Homes(k), l);
      WithoutAt(k.q[l], 0);
      TakeKeeps(k.q, Homes(k), k.prio, k.q[l][0]);
    }
  }

  /** Pop the most urgent task, or idle, into a ticket. */
  lemma SwitchAwayCore(k: K)
    requires Core(k) && k.pending.None?
    ensures Core(SwitchAway(k))
  {
    hide Placed, WaitSorted, Ledger, Effective, Acyclic, FirstBucket, PopReady;
    PoppedIs(k);
    var r := SwitchAway(k);
    var next := PopReady(k).1;
    if next.Some? {
      Moved(k, r, Homes(k)[next.value := None]);
    } else {
      Moved(k, r, Homes(k));
    }
  }

  ghost predicate Swapped(k: K, r: K, c: nat, x: nat) {
    && Sized(k) && Sized(r) && N(r) == N(k) && c < N(k) && x < N(k)
    && k.pending.None? && k.state[c] == Running && k.state[x] == Ready && x != IDLE
    && SameDonations(k, r) && r.waitSem == k.waitSem
    && if r.pending.Some? then r.state == k.state[c := Ready] && r.pending.value.target == x
       else r.state == k.state[c := Ready][x := Running]
  }

  lemma SwappedHome(k: K, r: K, c: nat, x: nat, t: nat)
    requires Swapped(k, r, c, x) && Waiting(k.state, k.waitSem, k.waitMtx) && t < N(k)
    ensures Home(k, c).None? && Home(k, x) == Some(k.prio[x])
    ensures Home(r, t) == if t == x then None else if t == c && c != IDLE then Some(k.prio[c]) else Home(k, t)
  {
  }

  lemma SwappedWaiting(k: K, r: K, c: nat, x: nat)
    requires Swapped(k, r, c, x) && Waiting(k.state, k.waitSem, k.waitMtx)
    ensures Waiting(r.state, r.waitSem, r.waitMtx)
  {
  }

  /** The running task `c` goes back to its bucket while `x`, taken from its own, becomes the
      target of a ticket or runs at once. */
  lemma SwappedCore(k: K, r: K, c: nat, x: nat)
    requires Core(k) && Swapped(k, r, c, x)
    requires var q := k.q[k.prio[x] := Without(k.q[k.prio[x]], x)];
      r.q == if c == IDLE then q else q[k.prio[c] := q[k.prio[c]] + [c]]
    ensures Core(r)
  {
    hide Placed, WaitSorted, Ledger, Effective, Acyclic, Waiting, Home;
    SwappedWaiting(k, r, c, x);
    SwappedHome(k, r, c, x, c);
    TakeKeeps(k.q, Homes(k), k.prio, x);
    var home := Homes(k)[x := None];
    if c != IDLE {
      AppendKeeps(k.q[k.prio[x] := Without(k.q[k.prio[x]], x)], home, k.prio, c);
      home := home[c := Some(k.prio[c])];
    }
    forall t | 0 <= t < N(k) ensures home[t] == Home(r, t) {
      SwappedHome(k, r, c, x, t);
    }
    Moved(k, r, home);
  }

  /** Pop the most urgent task, send the running one back, and hand the hart over by ticket. */
  lemma HandOverCore(k: K, r: K)
    requires Core(k) && k.pending.None? && k.state[k.current] == Running && PopReady(k).1.Some?
    requires var (k1, next) := PopReady(k);
      Sized(r) && SameCore(MakeReady(k1, k.current), r) && r.pending.Some? && r.pending.value.target == next.value
    ensures Core(r)
  {
    hide Mid, Ledger, Effective, Acyclic, FirstBucket, PopReady, Homes;
    PoppedIs(k);
    SwappedCore(k, r, k.current, PopReady(k).1.value);
  }

  /** The same, inside the trap: the popped task runs at once. */
  lemma PreemptCore(k: K, r: K)
    requires Core(k) && k.pending.None? && k.state[k.current] == Running && PopReady(k).1.Some?
    requires var (k1, next) := PopReady(k);
      var k2 := MakeReady(k1, k.current);
      Sized(r) && SameCore(k2.(state := k2.state[next.value := Running]), r) && r.pending.None?
    ensures Core(r)
  {
    hide Mid, Ledger, Effective, Acyclic, FirstBucket, PopReady, Homes;
    PoppedIs(k);
    SwappedCore(k, r, k.current, PopReady(k).1.value);
  }

  /** Only `x` changed state, from Ready to Running. */
  lemma StartedHome(k: K, r: K, x: nat, t: nat)
    requires Sized(k) && Sized(r) && N(r) == N(k) && x < N(k) && t < N(k) && Waiting(k.state, k.waitSem, k.waitMtx)
    requires SameDonations(k, r) && r.waitSem == k.waitSem && k.state[x] == Ready && r.state == k.state[x := Running]
    requires r.pending.None? && (k.pending.Some? ==> k.pending.value.target == x)
    ensures Home(r, t) == if t == x then None else Home(k, t)
    ensures Waiting(r.state, r.waitSem, r.waitMtx)
  {
  }

  /** The trap finds no running task: the most urgent one (or idle) runs. */
  lemma PickCore(k: K, r: K)
    requires Core(k) && k.pending.None? && k.state[IDLE] == Ready
    requires var (k1, next) := PopReadyOrIdle(k);
      Sized(r) && SameCore(k1.(state := k1.state[next := Running]), r) && r.pending.None?
    ensures Core(r)
  {
    hide Placed, WaitSorted, Ledger, Effective, Acyclic, FirstBucket, PopReady, Home, Waiting;
    PoppedIs(k);
    var next := PopReadyOrIdle(k).1;
    assert Home(k, IDLE).None? by { IdleHome(k); }
    var home := Homes(k)[next := None];
    assert PopReady(k).1.None? ==> home == Homes(k);
    StartedHome(k, r, next, next);
    forall t | 0 <= t < N(k) ensures home[t] == Home(r, t) {
      StartedHome(k, r, next, t);
    }
    Moved(k, r, home);
  }

  lemma IdleHome(k: K)
    requires Sized(k) && k.state[IDLE] == Ready
    ensures Home(k, IDLE).None?
  {
  }

  /** The trap consumes a ticket. */
  lemma ConsumeCore(k: K, r: K)
    requires Core(k) && k.pending.Some? && k.state[k.pending.value.target] == Ready
    requires Sized(r) && SameCore(k.(state := k.state[k.pending.value.target := Running]), r) && r.pending.None?
    ensures Core(r)
  {
    hide Placed, WaitSorted, Ledger, Effective, Acyclic;
    assert forall t :: 0 <= t < N(k) ==> Home(r, t) == Homes(k)[t];
    Moved(k, r, Homes(k));
  }

  // ---- A slot changes hands -----------------------------------------------------------------------------------

  lemma NoDonors(inh: seq<seq<nat>>, prio: seq<nat>, don: seq<Option<nat>>, t: nat, l: nat)
    requires Ledger(inh, prio, don) && t < |inh| && l < |inh[t]|
    requires forall x :: 0 <= x < |don| ==> don[x] != Some(t)
    ensures inh[t][l] == 0
  {
    assert Donors(don, prio, t, l) == {};
  }

  lemma NoDonationsEffective(base: nat, inh: seq<nat>)
    requires |inh| == LEVELS && base < LEVELS && forall l :: 0 <= l < LEVELS ==> inh[l] == 0
    ensures Effective(base, inh) == base
  {
    hide Effective;
    EffectiveIs(base, inh);
  }

  /** A task in no list, to whom nobody donates and who donates to nobody, gets a new base
      priority and possibly another unlisted state. */
  ghost predicate Reborn(k: K, r: K, t: nat) {
    && Sized(k) && Sized(r) && N(r) == N(k) && t < N(k) && r.pending == k.pending
    && k.waitSem[t].None? && k.waitMtx[t].None? && r.waitSem == k.waitSem && r.waitMtx == k.waitMtx
    && k.state[t] != Ready && r.state == k.state[t := r.state[t]] && r.state[t] !in {Ready, Blocked}
    && r.q == k.q && r.owner == k.owner && |r.count| == |k.count|
    && r.base == k.base[t := r.base[t]] && r.prio == k.prio[t := r.base[t]]
    && (r.inh == k.inh || r.inh == k.inh[t := seq(LEVELS, _ => 0)])
    && (forall x :: 0 <= x < N(k) ==> Hop(k, x) != Some(t))
  }

  lemma RebornHome(k: K, r: K, t: nat, x: nat)
    requires Reborn(k, r, t) && Waiting(k.state, k.waitSem, k.waitMtx) && x < N(k)
    ensures Home(k, t).None? && Home(r, x) == Home(k, x) && Hop(r, x) == Hop(k, x) == Edges(k)[x]
    ensures Waiting(r.state, r.waitSem, r.waitMtx) && Hop(k, t).None?
  {
  }

  lemma RebornInh(k: K, r: K, t: nat)
    requires Core(k) && Reborn(k, r, t)
    ensures r.inh == k.inh && forall l :: 0 <= l < LEVELS ==> k.inh[t][l] == 0
  {
    hide Placed, WaitSorted, Ledger, Effective, Acyclic, Waiting, Home;
    assert forall x :: 0 <= x < N(k) ==> Edges(k)[x] == Hop(k, x);
    forall l | 0 <= l < LEVELS ensures k.inh[t][l] == 0 {
      NoDonors(k.inh, k.prio, Edges(k), t, l);
    }
    assert k.inh[t] == seq(LEVELS, _ => 0);
  }

  lemma RebornCore(k: K, r: K, t: nat)
    requires Core(k) && Reborn(k, r, t)
    ensures Core(r)
  {
    hide Placed, WaitSorted, Ledger, Effective, Acyclic, Waiting, Home, Hop;
    RebornHome(k, r, t, t);
    RebornInh(k, r, t);
    LooseKeeps(k.q, Homes(k), t, k.prio, r.base[t]);
    assert Edges(k)[t].None?;
    if k.prio[t] != r.base[t] {
      LedgerMoved(k.inh, k.prio, Edges(k), t, r.base[t]);
    } else {
      assert r.prio == k.prio;
    }
    NoDonationsEffective(r.base[t], k.inh[t]);
    assert forall x :: 0 <= x < N(k) ==> Priced(k, x) ==> Priced(r, x);
    assert Homes(k) == Rehome(Homes(k), r.prio);
    assert r.prio == k.prio[t := r.base[t]];
    forall x | 0 <= x < N(k) ensures Homes(k)[x] == Home(r, x) && Edges(k)[x] == Hop(r, x) {
      RebornHome(k, r, t, x);
    }
    Conclude(r, Edges(k), Homes(k));
  }

  // ---- Run policy -----------------------------------------------------------------------------------------------

  lemma SetPolicyIs(k: K, t: nat, policy: Budget.Policy, now: nat)
    requires Sized(k) && t < N(k) && Budget.ValidPolicy(policy) && now <= Budget.U64_MAX
    ensures var r := SetPolicy(k, t, policy, now);
      && SameDonations(k, r) && r.pending == k.pending && r.waitSem == k.waitSem
      && r.state == (if k.state[t] == Throttled then k.state[t := Ready] else k.state)
      && r.q ==
        (if k.state[t] == Ready && InReady(k, t) then
          var q := k.q[k.prio[t] := Without(k.q[k.prio[t]], t)]; q[k.prio[t] := q[k.prio[t]] + [t]]
        else if k.state[t] == Throttled then k.q[k.prio[t] := k.q[k.prio[t]] + [t]]
        else k.q)
  {
  }

  lemma SetPolicyHome(k: K, r: K, t: nat, x: nat)
    requires Sized(k) && Sized(r) && N(r) == N(k) && t < N(k) && x < N(k) && Waiting(k.state, k.waitSem, k.waitMtx)
    requires SameDonations(k, r) && r.pending == k.pending && r.waitSem == k.waitSem
    requires r.state == if k.state[t] == Throttled then k.state[t := Ready] else k.state
    requires k.state[t] == Throttled ==> t != IDLE && !IsTarget(k, t)
    ensures Home(r, x) == if x == t && k.state[t] == Throttled then Some(k.prio[t]) else Home(k, x)
    ensures Waiting(r.state, r.waitSem, r.waitMtx)
    ensures k.state[t] == Throttled ==> Home(k, t).None?
  {
  }

  lemma SetPolicyCore(k: K, t: nat, policy: Budget.Policy, now: nat)
    requires Core(k) && t < N(k) && Budget.ValidPolicy(policy) && now <= Budget.U64_MAX
    requires k.state[t] == Throttled ==> t != IDLE && !IsTarget(k, t)
    ensures Core(SetPolicy(k, t, policy, now))
  {
    hide Placed, WaitSorted, Ledger, Effective, Acyclic, SetPolicy, Home, Waiting, InReady, Without;
    var r := SetPolicy(k, t, policy, now);
    SetPolicyIs(k, t, policy, now);
    ReadyIffHome(k, Homes(k), t);
    var home := if k.state[t] == Throttled then Homes(k)[t := Some(k.prio[t])] else Homes(k);
    SetPolicyHome(k, r, t, t);
    forall x | 0 <= x < N(k) ensures home[x] == Home(r, x) {
      SetPolicyHome(k, r, t, x);
    }
    if k.state[t] == Ready && InReady(k, t) {
      ReadyHome(k, t);
      TakeKeeps(k.q, Homes(k), k.prio, t);
      AppendKeeps(k.q[k.prio[t] := Without(k.q[k.prio[t]], t)], Homes(k)[t := None], k.prio, t);
      assert Homes(k)[t := None][t := Some(k.prio[t])] == Homes(k);
    } else if k.state[t] == Throttled {
      AppendKeeps(k.q, Homes(k), k.prio, t);
    }
    Moved(k, r, home);
  }

  /** A listed ready task is in the bucket of its priority. */
  lemma ReadyHome(k: K, t: nat)
    requires Sized(k) && t < N(k) && k.state[t] == Ready && Home(k, t).Some?
    ensures Home(k, t) == Some(k.prio[t])
  {
  }
}
