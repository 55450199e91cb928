/** Who wakes at a timer interrupt: exactly the tasks whose time has come. */
module Wakeups {
  import opened Lists
  import Budget
  import opened Kernel
  import opened Inheritance
  import opened Invariant
  import opened Preserved
  import opened PreservedMutex
  import opened PreservedHart
  import opened Runs
  import opened Locking

  /** `t` sleeps or waits, and its deadline has passed. */
  predicate Due(k: K, t: nat, now: nat)
    requires Sized(k) && t < N(k)
  {
    (k.state[t] == Sleeping && now >= k.wakeAt[t]) || Expired(k, t, now)
  }

  /** `t` is throttled and its next boundary has come. */
  predicate Refillable(k: K, t: nat, now: nat)
    requires Sized(k) && t < N(k)
  {
    k.state[t] == Throttled && Budget.ReplenishDue(k.budget[t], now)
  }

  /** Nothing about task `x` itself differs. */
  predicate SameTask(k: K, r: K, x: nat)
    requires Sized(k) && Sized(r) && N(r) == N(k) && x < N(k)
  {
    && r.state[x] == k.state[x] && r.wakeAt[x] == k.wakeAt[x] && r.budget[x] == k.budget[x]
    && r.waitSem[x] == k.waitSem[x] && r.waitMtx[x] == k.waitMtx[x]
    && r.granted[x] == k.granted[x] && r.grantSem[x] == k.grantSem[x] && r.grantMtx[x] == k.grantMtx[x]
  }

  /** What the first scan does to `x`: a due task is ready, and if it waited it got nothing. */
  predicate Scanned(k: K, r: K, x: nat, now: nat)
    requires Sized(k) && Sized(r) && N(r) == N(k) && x < N(k)
  {
    if Due(k, x, now) then
      && r.state[x] == Ready && r.budget[x] == k.budget[x] && r.waitSem[x].None? && r.waitMtx[x].None?
      && (k.state[x] == Blocked ==> !r.granted[x] && r.grantSem[x].None? && r.grantMtx[x].None?)
    else SameTask(k, r, x)
  }

  /** What the whole wake-up pass does to `x`. */
  predicate Woken(k: K, r: K, x: nat, now: nat)
    requires Sized(k) && Sized(r) && N(r) == N(k) && x < N(k)
  {
    if Refillable(k, x, now) then Refilled(k, r, x, now) else Scanned(k, r, x, now)
  }

  lemma WaitFacts(k: K, t: nat)
    requires Inv(k) && t < N(k)
    ensures k.state[t] == Blocked ==> k.waitSem[t].Some? || k.waitMtx[t].Some?
    ensures k.waitSem[t].Some? || k.waitMtx[t].Some? ==> k.state[t] == Blocked && !k.granted[t] && k.grantSem[t].None? && k.grantMtx[t].None?
    ensures k.waitSem[t].Some? ==> k.waitMtx[t].None?
  {
    hide Placed, WaitSorted, Ledger, Effective, Acyclic, Hart, Locks, Quotas, Owners, HandedOff, Dry;
  }

  lemma ReadyScans(k: K, t: nat, x: nat)
    requires Sized(k) && t < N(k) && x < N(k)
    ensures var r := MakeReady(k, t); if x == t then r.state[x] == Ready && SameTask(k.(state := k.state[t := Ready]), r, x) else SameTask(k, r, x)
  {
  }

  lemma LeaveSemScans(k: K, t: nat, x: nat)
    requires Sized(k) && t < N(k) && x < N(k) && k.waitSem[t].Some? && k.waitMtx[t].None? && k.grantMtx[t].None?
    ensures var r := LeaveSem(k, t); N(r) == N(k) && if x == t then Freed(k, r, x) else SameTask(k, r, x)
  {
    hide LeaveSem;
    LeaveSemIs(k, t);
  }

  lemma LeaveMtxScans(k: K, t: nat, x: nat)
    requires Sized(k) && t < N(k) && x < N(k) && k.waitMtx[t].Some? && k.waitSem[t].None? && k.grantSem[t].None?
    ensures var r := LeaveMtx(k, t); N(r) == N(k) && if x == t then Freed(k, r, x) else SameTask(k, r, x)
  {
    hide LeaveMtx;
    LeaveMtxIs(k, t);
  }

  /** `x` is ready and got nothing. */
  predicate Freed(k: K, r: K, x: nat)
    requires Sized(k) && Sized(r) && N(r) == N(k) && x < N(k)
  {
    && r.state[x] == Ready && r.budget[x] == k.budget[x] && r.waitSem[x].None? && r.waitMtx[x].None?
    && !r.granted[x] && r.grantSem[x].None? && r.grantMtx[x].None?
  }

  lemma WakeOneScans(k: K, t: nat, now: nat, x: nat)
    requires Inv(k) && t < N(k) && x < N(k)
    ensures var r := WakeOne(k, t, now); if x == t then Scanned(k, r, x, now) else SameTask(k, r, x)
  {
    hide Core, Side, LeaveSem, LeaveMtx, MakeReady;
    WaitFacts(k, t);
    ReadyScans(k, t, x);
    if k.waitSem[t].Some? {
      LeaveSemScans(k, t, x);
    }
    if k.waitMtx[t].Some? {
      LeaveMtxScans(k, t, x);
    }
  }

  lemma SameSelf(k: K, x: nat)
    requires Sized(k) && x < N(k)
    ensures SameTask(k, k, x)
  {
  }

  /** Scans of different tasks compose. */
  lemma ScansCompose(k: K, k1: K, r: K, x: nat, now: nat)
    requires Sized(k) && Sized(k1) && Sized(r) && N(k1) == N(r) == N(k) && x < N(k)
    ensures SameTask(k, k1, x) && SameTask(k1, r, x) ==> SameTask(k, r, x)
    ensures SameTask(k, k1, x) && Scanned(k1, r, x, now) ==> Scanned(k, r, x, now)
    ensures Scanned(k, k1, x, now) && SameTask(k1, r, x) ==> Scanned(k, r, x, now)
    ensures SameTask(k, k1, x) ==> Refillable(k1, x, now) == Refillable(k, x, now)
    ensures SameTask(k, k1, x) && Refilled(k1, r, x, now) ==> Refilled(k, r, x, now)
    ensures Refilled(k, k1, x, now) && SameTask(k1, r, x) ==> Refilled(k, r, x, now)
  {
    hide Budget.ReplenishIfDue, Budget.ReplenishDue;
  }

  /** `x` got its refill. */
  predicate Refilled(k: K, r: K, x: nat, now: nat)
    requires Sized(k) && Sized(r) && N(r) == N(k) && x < N(k)
  {
    r.state[x] == Ready && r.budget[x] == Budget.ReplenishIfDue(k.budget[x], now)
  }

  lemma {:induction false} WakeFirstScans(k: K, n: nat, now: nat, x: nat)
    requires Inv(k) && n <= N(k) && x < N(k)
    ensures var r := WakeFirst(k, n, now); if x < n then Scanned(k, r, x, now) else SameTask(k, r, x)
  {
    hide Core, Side, WakeOne, Scanned, SameTask;
    SameSelf(k, x);
    if n > 0 {
      var k1 := WakeFirst(k, n - 1, now);
      WakeFirstScans(k, n - 1, now, x);
      WakeFirstKeeps(k, n - 1, now);
      WakeOneScans(k1, n - 1, now, x);
      ScansCompose(k, k1, WakeOne(k1, n - 1, now), x, now);
    }
  }

  lemma ReplenishOneScans(k: K, t: nat, now: nat, x: nat)
    requires Sized(k) && t < N(k) && x < N(k) && now <= Budget.U64_MAX
    ensures var r := ReplenishOne(k, t, now);
      if x == t && Refillable(k, x, now) then Refilled(k, r, x, now)
      else SameTask(k, r, x)
  {
    hide Budget.ReplenishIfDue;
  }

  lemma {:induction false} ReplenishFirstScans(k: K, n: nat, now: nat, x: nat)
    requires Sized(k) && n <= N(k) && x < N(k) && now <= Budget.U64_MAX
    ensures var r := ReplenishFirst(k, n, now);
      if x < n && Refillable(k, x, now) then Refilled(k, r, x, now) else SameTask(k, r, x)
  {
    hide ReplenishOne, Refillable, Refilled, SameTask;
    SameSelf(k, x);
    if n > 0 {
      var k1 := ReplenishFirst(k, n - 1, now);
      ReplenishFirstScans(k, n - 1, now, x);
      ReplenishOneScans(k1, n - 1, now, x);
      ScansCompose(k, k1, ReplenishOne(k1, n - 1, now), x, now);
    }
  }

  /** The wake-up pass readies exactly the sleepers and waiters whose deadline has passed, the
      waiters without a grant, and the throttled tasks whose boundary has come, with a full
      budget; it touches no other task. */
  lemma WokenExactly(k: K, now: nat, x: nat)
    requires Inv(k) && now <= Budget.U64_MAX && x < N(k)
    ensures Woken(k, WakeSleepers(k, now), x, now)
  {
    hide Core, Side, WakeFirst, ReplenishFirst;
    WakeFirstKeeps(k, N(k), now);
    WakeFirstScans(k, N(k), now, x);
    ReplenishFirstScans(WakeFirst(k, N(k), now), N(k), now, x);
  }

  /** The timer scans start and stop no task on the hart. */
  lemma ScanLeavesHart(k: K, now: nat)
    requires Inv(k) && now <= Budget.U64_MAX
    ensures var r := WakeSleepers(k, now);
      r.current == k.current && r.lockStart == k.lockStart && (r.state[r.current] == Running <==> k.state[k.current] == Running)
  {
    hide Core, Side, WakeSleepers;
    WokenExactly(k, now, k.current);
    WakeSleepersHart(k, now);
  }
}
