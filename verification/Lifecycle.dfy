/** Who uses a semaphore or mutex: only a wait on an object makes a task use it, and the busy tests
    of the destroy calls see exactly whether anybody does. */
module Lifecycle {
  import opened Lists
  import Budget
  import opened Kernel
  import opened Inheritance
  import opened Invariant
  import opened MutexSteps
  import opened Preserved
  import opened PreservedMutex
  import opened PreservedHart
  import opened Runs
  import opened Accounts

  /** Some task waits for semaphore `s` or holds an unconsumed grant of it. */
  ghost predicate UsesSem(k: K, s: nat)
    requires Sized(k)
  {
    exists t :: 0 <= t < N(k) && (k.waitSem[t] == Some(s) || k.grantSem[t] == Some(s))
  }

  /** Some task owns mutex `m`, waits for it or holds an unconsumed grant of it. */
  ghost predicate UsesMtx(k: K, m: nat)
    requires Sized(k)
  {
    (m < |k.owner| && k.owner[m].Some?) || exists t :: 0 <= t < N(k) && (k.waitMtx[t] == Some(m) || k.grantMtx[t] == Some(m))
  }

  /** `r` has the objects of `k` and no user of `s` or `m` that `k` had not. */
  ghost predicate NoNewUser(k: K, r: K, s: nat, m: nat)
    requires Sized(k) && Sized(r)
  {
    && N(r) == N(k) && |r.count| == |k.count| && |r.owner| == |k.owner|
    && (UsesSem(r, s) ==> UsesSem(k, s)) && (UsesMtx(r, m) ==> UsesMtx(k, m))
  }

  /** Whoever names `x` in `b` named it in `a`. */
  ghost predicate From(a: seq<Option<nat>>, b: seq<Option<nat>>, x: nat) {
    |a| == |b| && forall t :: 0 <= t < |b| && b[t] == Some(x) ==> a[t] == Some(x)
  }

  /** The same objects, and names of `s` and `m` only where they were. */
  lemma UsersFrom(k: K, r: K, s: nat, m: nat)
    requires Sized(k) && Sized(r) && N(r) == N(k) && |r.count| == |k.count| && |r.owner| == |k.owner|
    requires From(k.waitSem, r.waitSem, s) && From(k.waitMtx, r.waitMtx, m)
    requires forall t :: 0 <= t < N(r) && r.grantSem[t] == Some(s) ==> k.grantSem[t] == Some(s) || k.waitSem[t] == Some(s)
    requires forall t :: 0 <= t < N(r) && r.grantMtx[t] == Some(m) ==> k.grantMtx[t] == Some(m) || k.waitMtx[t] == Some(m)
    requires m < |r.owner| && r.owner[m].Some? ==> UsesMtx(k, m)
    ensures NoNewUser(k, r, s, m)
  {
    if UsesSem(r, s) {
      var t :| 0 <= t < N(r) && (r.waitSem[t] == Some(s) || r.grantSem[t] == Some(s));
      assert k.waitSem[t] == Some(s) || k.grantSem[t] == Some(s);
    }
    if UsesMtx(r, m) && !(m < |r.owner| && r.owner[m].Some?) {
      var t :| 0 <= t < N(r) && (r.waitMtx[t] == Some(m) || r.grantMtx[t] == Some(m));
      assert k.waitMtx[t] == Some(m) || k.grantMtx[t] == Some(m);
    }
  }

  /** Fewer waits and grants, owners unchanged. */
  lemma ShrunkUsers(k: K, r: K, s: nat, m: nat)
    requires Sized(k) && Sized(r) && N(r) == N(k) && r.owner == k.owner && |r.count| == |k.count|
    requires Fewer(k.waitSem, r.waitSem) && Fewer(k.waitMtx, r.waitMtx) && Fewer(k.grantSem, r.grantSem) && Fewer(k.grantMtx, r.grantMtx)
    ensures NoNewUser(k, r, s, m)
  {
    hide NoNewUser;
    UsersFrom(k, r, s, m);
  }

  lemma ChainUsers(k: K, k1: K, r: K, s: nat, m: nat)
    requires Sized(k) && Sized(k1) && Sized(r) && NoNewUser(k, k1, s, m) && NoNewUser(k1, r, s, m)
    ensures NoNewUser(k, r, s, m)
  {
    hide UsesSem, UsesMtx;
  }

  lemma ReleaseSemUsers(k: K, s0: nat, s: nat, m: nat)
    requires Inv(k) && s0 < |k.count|
    ensures NoNewUser(k, ReleaseSem(k, s0), s, m)
  {
    hide Core, Side, NoNewUser;
    var ws := k.q[SemList(k, s0)];
    if ws != [] {
      SemQueue(k, s0, ws[0]);
    }
    UsersFrom(k, ReleaseSem(k, s0), s, m);
  }

  /** A queued task waits for the mutex. */
  predicate HeadWaits(k: K, m: nat)
    requires Sized(k) && m < |k.owner|
  {
    k.q[MtxList(k, m)] != [] ==> k.waitMtx[k.q[MtxList(k, m)][0]] == Some(m)
  }

  lemma QueueHead(k: K, m: nat)
    requires Inv(k) && m < |k.owner|
    ensures HeadWaits(k, m)
  {
    hide Core, Side;
    if k.q[MtxList(k, m)] != [] {
      NobodyWaits(k, m, k.q[MtxList(k, m)][0]);
    }
  }

  lemma ReleaseMutexUsers(k: K, m0: nat, o: nat, s: nat, m: nat)
    requires Sized(k) && m0 < |k.owner| && o < N(k) && HeadWaits(k, m0)
    ensures NoNewUser(k, ReleaseMutex(k, m0, o), s, m)
  {
    hide ReleaseMutex, NoNewUser;
    ReleaseMutexIs(k, m0, o);
    UsersFrom(k, ReleaseMutex(k, m0, o), s, m);
  }

  lemma CancelUsers(k: K, t: nat, s: nat, m: nat)
    requires Inv(k) && t < N(k)
    ensures NoNewUser(k, Cancel(k, t).0, s, m)
  {
    hide Core, Side, LeaveSem, LeaveMtx, ReleaseSem, ReleaseMutex, NoNewUser, UsesSem, UsesMtx;
    if k.waitSem[t].Some? {
      LeaveSemIs(k, t);
      ShrunkUsers(k, LeaveSem(k, t), s, m);
    } else if k.grantSem[t].Some? {
      UngrantedKeeps(k, t);
      var k1 := k.(grantSem := k.grantSem[t := None], granted := k.granted[t := false]);
      ShrunkUsers(k, k1, s, m);
      ReleaseSemUsers(k1, k.grantSem[t].value, s, m);
      ChainUsers(k, k1, ReleaseSem(k1, k.grantSem[t].value), s, m);
    } else if k.waitMtx[t].Some? {
      LeaveMtxIs(k, t);
      ShrunkUsers(k, LeaveMtx(k, t), s, m);
    } else if k.grantMtx[t].Some? {
      var m0 := k.grantMtx[t].value;
      UngrantedKeeps(k, t);
      QueueHead(k, m0);
      var k1 := k.(grantMtx := k.grantMtx[t := None], granted := k.granted[t := false], depth := k.depth[m0 := 0]);
      ShrunkUsers(k, k1, s, m);
      ReleaseMutexUsers(k1, m0, t, s, m);
      ChainUsers(k, k1, ReleaseMutex(k1, m0, t), s, m);
    } else {
      ShrunkUsers(k, k, s, m);
    }
  }

  lemma MutexUnlockUsers(k: K, m0: nat, s: nat, m: nat)
    requires Inv(k) && m0 < |k.owner|
    ensures NoNewUser(k, MutexUnlock(k, m0).0, s, m)
  {
    hide Core, Side, ReleaseMutex, NoNewUser, UsesSem, UsesMtx;
    QueueHead(k, m0);
    ShrunkUsers(k, k, s, m);
    if k.owner[m0] == Some(k.current) && k.depth[m0] > 0 {
      var k1 := k.(depth := k.depth[m0 := k.depth[m0] - 1]);
      ShrunkUsers(k, k1, s, m);
      ReleaseMutexUsers(k1, m0, k.current, s, m);
      ChainUsers(k, k1, ReleaseMutex(k1, m0, k.current), s, m);
    }
  }

  /** What a semaphore wait does to the fields that name objects. */
  lemma SemDownNames(k: K, s: nat, patience: Patience, deliverable: bool)
    requires Sized(k) && s < |k.count|
    ensures var r := SemDown(k, s, patience, deliverable).0;
      && (r.waitSem == k.waitSem || r.waitSem == k.waitSem[k.current := Some(s)])
      && r.waitMtx == k.waitMtx && r.grantSem == k.grantSem && r.grantMtx == k.grantMtx && r.owner == k.owner
      && |r.count| == |k.count| && N(r) == N(k)
  {
    hide FirstBucket, Insert;
  }

  lemma SemDownUsers(k: K, s0: nat, patience: Patience, deliverable: bool, s: nat, m: nat)
    requires Sized(k) && s0 < |k.count| && s != s0
    ensures NoNewUser(k, SemDown(k, s0, patience, deliverable).0, s, m)
  {
    hide SemDown, NoNewUser;
    SemDownNames(k, s0, patience, deliverable);
    UsersFrom(k, SemDown(k, s0, patience, deliverable).0, s, m);
  }

  /** What joining a mutex queue does to the fields that name objects. */
  lemma EnlistNames(k: K, m: nat, patience: Patience)
    requires Sized(k) && m < |k.owner| && k.owner[m].Some?
    ensures var r := SwitchAway(Enlist(k, m, patience));
      r.waitMtx == k.waitMtx[k.current := Some(m)] && r.waitSem == k.waitSem && SameHoldings(k, r)
  {
    hide AddInheritance, FirstBucket, Insert;
  }

  lemma MutexLockNames(k: K, m: nat, patience: Patience, deliverable: bool)
    requires Sized(k) && m < |k.owner|
    ensures var r := MutexLock(k, m, patience, deliverable).0;
      && (r.waitMtx == k.waitMtx || r.waitMtx == k.waitMtx[k.current := Some(m)])
      && (r.owner == k.owner || r.owner == k.owner[m := Some(k.current)])
      && r.waitSem == k.waitSem && r.grantSem == k.grantSem && r.grantMtx == k.grantMtx
      && |r.count| == |k.count| && N(r) == N(k)
  {
    hide Enlist, SwitchAway, ChainContains;
    if k.owner[m].Some? {
      EnlistNames(k, m, patience);
    }
  }

  lemma MutexLockUsers(k: K, m0: nat, patience: Patience, deliverable: bool, s: nat, m: nat)
    requires Sized(k) && m0 < |k.owner| && m != m0
    ensures NoNewUser(k, MutexLock(k, m0, patience, deliverable).0, s, m)
  {
    hide MutexLock, NoNewUser;
    MutexLockNames(k, m0, patience, deliverable);
    UsersFrom(k, MutexLock(k, m0, patience, deliverable).0, s, m);
  }

  lemma UntakenUsers(k: K, r: K, s: nat, m: nat)
    requires Sized(k) && Sized(r) && Untaken(k, r)
    ensures NoNewUser(k, r, s, m)
  {
    hide NoNewUser;
    ShrunkUsers(k, r, s, m);
  }

  /** The object an operation is called on, if any. */
  predicate CallsSem(op: Op, s: nat) { op.Downs? && op.s == s }
  predicate CallsMtx(op: Op, m: nat) { op.LocksMutex? && op.m == m }

  /** Only a wait on an object makes a task use it. */
  lemma StepUsers(k: K, op: Op, s: nat, m: nat)
    requires Inv(k) && Enabled(k, op) && !CallsSem(op, s) && !CallsMtx(op, m)
    ensures NoNewUser(k, Apply(k, op).0, s, m)
  {
    hide Core, Side, NoNewUser, UsesSem, UsesMtx, SemDown, ReleaseSem, MutexLock, MutexUnlock, Cancel, Untaken;
    if !IsWaitOp(op) {
      OthersUntaken(k, op);
      UntakenUsers(k, Apply(k, op).0, s, m);
    } else {
      match op
      case Downs(s0, patience, deliverable) => SemDownUsers(k, s0, patience, deliverable, s, m);
      case Posts(s0) => ReleaseSemUsers(k, s0, s, m);
      case LocksMutex(m0, patience, deliverable) => MutexLockUsers(k, m0, patience, deliverable, s, m);
      case UnlocksMutex(m0) => MutexUnlockUsers(k, m0, s, m);
      case Cancels(t) => CancelUsers(k, t, s, m);
      case FinishesDown => ShrunkUsers(k, ConsumeSem(k).0, s, m);
      case FinishesLock => ShrunkUsers(k, ConsumeMtx(k).0, s, m);
    }
  }

  // ---- Destruction ----------------------------------------------------------------------------------------

  /** What `semaphore_destroy` looks at: no queue and no unconsumed grant. */
  ghost predicate SemIdle(k: K, s: nat)
    requires Sized(k) && s < |k.count|
  {
    k.q[SemList(k, s)] == [] && forall t :: 0 <= t < N(k) ==> k.grantSem[t] != Some(s)
  }

  /** What `mutex_destroy` looks at: no owner and no queue. */
  predicate MutexIdle(k: K, m: nat)
    requires Sized(k) && m < |k.owner|
  {
    k.owner[m].None? && k.q[MtxList(k, m)] == []
  }

  /** Step by step for one semaphore, and for one mutex. */
  lemma StepSemUsers(k: K, op: Op, s: nat)
    requires Inv(k) && Enabled(k, op) && !CallsSem(op, s)
    ensures var r := Apply(k, op).0; |r.count| == |k.count| && (UsesSem(r, s) ==> UsesSem(k, s))
  {
    hide Core, Side, Apply, UsesSem, UsesMtx;
    StepUsers(k, op, s, |k.owner|);
  }

  lemma StepMtxUsers(k: K, op: Op, m: nat)
    requires Inv(k) && Enabled(k, op) && !CallsMtx(op, m)
    ensures var r := Apply(k, op).0; |r.owner| == |k.owner| && (UsesMtx(r, m) ==> UsesMtx(k, m))
  {
    hide Core, Side, Apply, UsesSem, UsesMtx;
    StepUsers(k, op, |k.count|, m);
  }

  lemma SemIdleExact(k: K, s: nat)
    requires Inv(k) && s < |k.count|
    ensures SemIdle(k, s) <==> !UsesSem(k, s)
  {
    hide Core, Side;
    forall t | 0 <= t < N(k) ensures k.waitSem[t] == Some(s) <==> t in k.q[SemList(k, s)] {
      SemQueue(k, s, t);
    }
    if k.q[SemList(k, s)] != [] {
      assert k.q[SemList(k, s)][0] in k.q[SemList(k, s)];
    }
  }

  lemma MutexIdleExact(k: K, m: nat)
    requires Inv(k) && m < |k.owner|
    ensures MutexIdle(k, m) <==> !UsesMtx(k, m)
  {
    hide Core, Calls, Dry, Reasons, Hart, Locks, Quotas;
    forall t | 0 <= t < N(k) ensures k.waitMtx[t] == Some(m) <==> t in k.q[MtxList(k, m)] {
      NobodyWaits(k, m, t);
    }
    if k.q[MtxList(k, m)] != [] {
      assert k.q[MtxList(k, m)][0] in k.q[MtxList(k, m)];
    }
  }
}
