/** Donation and handoff: the critical sections that change who donates to whom. */
module MutexSteps {
  import opened Lists
  import Budget
  import opened Kernel
  import opened Inheritance
  import opened Chains
  import opened Invariant
  import opened Steps

  /** A refresh of a settled chain ends in a stable state. */
  lemma RefreshedCore(k: K, t: nat, g: seq<nat>)
    requires Sized(k) && Refreshable(k, t, g, Edges(k), Homes(k)) && Below(g, N(k))
    ensures Core(Refresh(k, t, N(k)))
    ensures Refreshed(k, Refresh(k, t, N(k)), t, g, Edges(k), Homes(k))
  {
    hide Placed, WaitSorted, Ledger, Effective, Waiting, Settled;
    RefreshKeeps(k, t, N(k), g, Edges(k), Homes(k));
    var r := Refresh(k, t, N(k));
    var home := Rehome(Homes(k), r.prio);
    forall x | 0 <= x < N(k) ensures home[x] == Home(r, x) {
      RepricedHome(k, r, x);
    }
    assert Falls(Edges(k), g);
    Conclude(r, Edges(k), home);
  }

  lemma RepricedHome(k: K, r: K, x: nat)
    requires Sized(k) && Sized(r) && Repriced(k, r) && x < N(k)
    ensures Rehome(Homes(k), r.prio)[x] == Home(r, x)
  {
  }

  // ---- Base priority ---------------------------------------------------------------------------

  lemma SetPriorityCore(k: K, t: nat, p: nat)
    requires Core(k) && t < N(k) && p < LEVELS
    ensures Core(SetPriority(k, t, p))
  {
    hide Placed, WaitSorted, Ledger, Effective, Waiting, Refresh;
    var k1 := k.(base := k.base[t := p]);
    var g := ShortChains(Edges(k));
    assert Homes(k1) == Homes(k);
    assert forall x :: 0 <= x < N(k) && x != t ==> Priced(k, x) ==> Priced(k1, x);
    RefreshedCore(k1, t, g);
  }

  // ---- Blocking on a mutex -------------------------------------------------------------------------

  /** The current task, queued on `m` and counted at its owner, before the refresh. */
  function Queued(k: K, m: nat, patience: Patience): (r: K)
    requires Sized(k) && m < |k.owner| && k.owner[m].Some?
    ensures Sized(r)
  {
    var c := k.current;
    var l := MtxList(k, m);
    Bump(k.(state := k.state[c := Blocked],
            wakeAt := k.wakeAt[c := if patience.Until? then patience.deadline else 0],
            waitMtx := k.waitMtx[c := Some(m)],
            granted := k.granted[c := false],
            call := k.call[c := InMutex],
            q := k.q[l := Insert(k.q[l], c, k.prio)]), k.owner[m].value, k.prio[c])
  }

  lemma QueuedBooks(k: K, m: nat, patience: Patience)
    requires Core(k) && m < |k.owner| && k.owner[m].Some? && k.state[k.current] == Running
    ensures var r := Queued(k, m, patience);
      && Edges(r) == Edges(k)[k.current := k.owner[m]]
      && Homes(r) == Homes(k)[k.current := Some(MtxList(k, m))]
      && Waiting(r.state, r.waitSem, r.waitMtx)
      && Edges(k)[k.current].None? && Homes(k)[k.current].None?
  {
    hide Placed, WaitSorted, Ledger, Effective, Acyclic;
    var r := Queued(k, m, patience);
    assert Edges(r) == Edges(k)[k.current := k.owner[m]];
    assert Homes(r) == Homes(k)[k.current := Some(MtxList(k, m))];
  }

  lemma QueuedMid(k: K, m: nat, patience: Patience)
    requires Core(k) && m < |k.owner| && k.owner[m].Some? && k.state[k.current] == Running
    ensures var r := Queued(k, m, patience); Mid(r, Edges(r), Homes(r))
  {
    hide Placed, WaitSorted, Ledger, Effective, Acyclic, Waiting, Home;
    var c := k.current;
    QueuedBooks(k, m, patience);
    EnterKeeps(k.q, Homes(k), k.prio, c, MtxList(k, m));
    LedgerGains(k.inh, k.prio, Edges(k), c, k.owner[m].value);
    var r := Queued(k, m, patience);
    assert Homes(r) == Rehome(Homes(r), r.prio);
  }

  /** Joining a mutex queue keeps everything, provided the joining task is not on the owner
      chain: that is what the chain walk excludes. */
  lemma EnlistCore(k: K, m: nat, patience: Patience)
    requires Core(k) && m < |k.owner| && k.owner[m].Some? && k.state[k.current] == Running
    requires !ChainContains(k, k.owner[m].value, k.current, N(k))
    ensures Core(Enlist(k, m, patience))
  {
    hide Placed, WaitSorted, Ledger, Effective, Waiting, Home, Refresh, ChainContains, Mid;
    var c, o := k.current, k.owner[m].value;
    QueuedBooks(k, m, patience);
    QueuedMid(k, m, patience);
    ChainContainsExact(k, o, c);
    NewEdgeAcyclic(Edges(k), c, o);
    var r := Queued(k, m, patience);
    var g := ShortChains(Edges(r));
    assert forall x :: 0 <= x < N(k) && x != o ==> Priced(k, x) ==> Priced(r, x);
    RefreshedCore(r, o, g);
  }

  // ---- Leaving a mutex queue ---------------------------------------------------------------------------

  /** `t` taken out of its mutex queue and of its owner's counts, before the refresh. */
  function Dequeued(k: K, t: nat): (r: K)
    requires Sized(k) && t < N(k) && Hop(k, t).Some?
    ensures Sized(r) && Repriced(k, r)
  {
    var l := MtxList(k, k.waitMtx[t].value);
    Drop(k.(q := k.q[l := Without(k.q[l], t)]), Hop(k, t).value, k.prio[t])
  }

  lemma DequeuedMid(k: K, t: nat)
    requires Core(k) && t < N(k) && Hop(k, t).Some?
    ensures Mid(Dequeued(k, t), Edges(k)[t := None], Homes(k)[t := None])
    ensures k.inh[Hop(k, t).value][k.prio[t]] >= 1
  {
    hide Placed, WaitSorted, Ledger, Effective, Acyclic;
    TakeKeeps(k.q, Homes(k), k.prio, t);
    LedgerLoses(k.inh, k.prio, Edges(k), t, Hop(k, t).value);
    var home := Homes(k)[t := None];
    assert home == Rehome(home, k.prio);
  }

  lemma DequeuedRefreshable(k: K, t: nat, g: seq<nat>)
    requires Core(k) && t < N(k) && Hop(k, t).Some? && Falls(Edges(k), g)
    ensures g[Hop(k, t).value] < g[t]
    ensures Refreshable(Dequeued(k, t), Hop(k, t).value, g, Edges(k)[t := None], Homes(k)[t := None])
  {
    hide Placed, WaitSorted, Ledger, Effective, Acyclic, Mid;
    DequeuedMid(k, t);
    var r, o := Dequeued(k, t), Hop(k, t).value;
    assert Edges(k)[t] == Some(o);
    assert Edges(r) == Edges(k);
    assert forall x :: 0 <= x < N(k) && x != o ==> Priced(k, x) ==> Priced(r, x);
    assert forall x :: 0 <= x < N(k) ==> Home(r, x) == Home(k, x) && Hop(r, x) == Hop(k, x);
  }

  lemma LeaveMtxCore(k: K, t: nat)
    requires Core(k) && t < N(k) && t != IDLE && !IsTarget(k, t) && Hop(k, t).Some?
    ensures Core(LeaveMtx(k, t))
  {
    hide Placed, WaitSorted, Ledger, Effective, Refresh, Mid, Settled;
    var g := ShortChains(Edges(k));
    DequeuedRefreshable(k, t, g);
    var o, don, home := Hop(k, t).value, Edges(k)[t := None], Homes(k)[t := None];
    RefreshKeeps(Dequeued(k, t), o, N(k), g, don, home);
    var k1 := Refresh(Dequeued(k, t), o, N(k));
    assert k1 == Withdraw(k, t, k.waitMtx[t].value);
    assert k1.prio[t] == k.prio[t];
    LeftCore(k, k1, LeaveMtx(k, t), t);
  }

  /** `t` stopped waiting for its mutex and became Ready; `k1` is `k` with new priorities. */
  ghost predicate Left(k: K, k1: K, r: K, t: nat) {
    && Sized(k) && Sized(k1) && Sized(r) && t < N(k) && Repriced(k, k1)
    && k.waitMtx[t].Some? && t != IDLE && !IsTarget(k, t)
    && r.state == k1.state[t := Ready] && r.waitMtx == k1.waitMtx[t := None] && r.waitSem == k1.waitSem
    && r.prio == k1.prio && r.inh == k1.inh && r.base == k1.base
    && r.pending == k1.pending && r.owner == k1.owner && |r.count| == |k1.count|
    && r.q == k1.q[k1.prio[t] := k1.q[k1.prio[t]] + [t]]
  }

  lemma LeftHome(k: K, k1: K, r: K, t: nat, x: nat)
    requires Left(k, k1, r, t) && x < N(k) && Waiting(k.state, k.waitSem, k.waitMtx)
    ensures Home(r, x) == Rehome(Homes(k)[t := None], k1.prio)[t := Some(k1.prio[t])][x]
    ensures Hop(r, x) == Edges(k)[t := None][x]
    ensures Waiting(r.state, r.waitSem, r.waitMtx)
  {
  }

  lemma LeftCore(k: K, k1: K, r: K, t: nat)
    requires Core(k) && Left(k, k1, r, t)
    requires Mid(k1, Edges(k)[t := None], Rehome(Homes(k)[t := None], k1.prio)) && forall x :: 0 <= x < N(k) ==> Priced(k1, x)
    ensures Core(r)
  {
    hide Placed, WaitSorted, Ledger, Effective, Waiting, Home, Hop, Acyclic;
    var don, home1 := Edges(k)[t := None], Rehome(Homes(k)[t := None], k1.prio);
    FewerAcyclic(Edges(k), don);
    AppendKeeps(k1.q, home1, k1.prio, t);
    var home := home1[t := Some(k1.prio[t])];
    forall x | 0 <= x < N(k) ensures home[x] == Home(r, x) && don[x] == Hop(r, x) {
      LeftHome(k, k1, r, t, x);
    }
    LeftHome(k, k1, r, t, t);
    assert forall x :: 0 <= x < N(k) ==> Priced(k1, x) ==> Priced(r, x);
    MidLists(k1, r, don, home1, home);
    Conclude(r, don, home);
  }

  // ---- Handing a mutex over ---------------------------------------------------------------------------------

  /** `don` without the donations of the tasks in `ws`. */
  ghost function Undonated(don: seq<Option<nat>>, ws: seq<nat>): (r: seq<Option<nat>>)
    ensures |r| == |don|
    ensures forall x :: 0 <= x < |r| ==> r[x] == if x in ws then None else don[x]
  {
    seq(|don|, x requires 0 <= x < |don| => if x in ws then None else don[x])
  }

  /** `o` waits for nothing, `ws` are some of its waiters, and the books agree with the lists
      for everyone but waiters of `o`. */
  ghost predicate Releasing(k: K, o: nat, ws: seq<nat>, don: seq<Option<nat>>, home: seq<Option<nat>>) {
    && Sized(k) && |don| == N(k) && |home| == N(k) && Mid(k, don, home)
    && o < N(k) && Below(ws, N(k)) && NoDup(ws)
    && Acyclic(Edges(k))
    && (forall x :: 0 <= x < N(k) && Hop(k, x) != Some(o) ==> don[x] == Hop(k, x) && home[x] == Home(k, x))
    && (forall i :: 0 <= i < |ws| ==> don[ws[i]] == Some(o) && Hop(k, ws[i]) == Some(o))
    && (forall x :: 0 <= x < N(k) ==> Priced(k, x))
  }

  lemma ReleaseRefreshable(k: K, o: nat, ws: seq<nat>, don: seq<Option<nat>>, home: seq<Option<nat>>, g: seq<nat>)
    requires Releasing(k, o, ws, don, home) && ws != [] && Falls(Edges(k), g)
    ensures Refreshable(Drop(k, o, k.prio[ws[0]]), o, g, don[ws[0] := None], home)
    ensures k.inh[o][k.prio[ws[0]]] >= 1
  {
    hide Placed, WaitSorted, Ledger, Effective, Waiting, Acyclic, Home, Hop;
    var k1 := Drop(k, o, k.prio[ws[0]]);
    LedgerLoses(k.inh, k.prio, don, ws[0], o);
    forall x | 0 <= x < N(k)
      ensures Home(k1, x) == Home(k, x) && Hop(k1, x) == Hop(k, x) == Edges(k)[x]
    {
      SameHop(k, k1, x);
    }
    assert forall x :: 0 <= x < N(k) && g[x] <= g[o] ==> Edges(k)[x] != Some(o);
    assert forall x :: 0 <= x < N(k) && x != o ==> Priced(k, x) ==> Priced(k1, x);
  }

  lemma SameHop(k: K, k1: K, x: nat)
    requires Sized(k) && Sized(k1) && x < N(k) && k1 == k.(inh := k1.inh)
    ensures Home(k1, x) == Home(k, x) && Hop(k1, x) == Hop(k, x) == Edges(k)[x]
  {
  }

  /** Taking one donation back prices the releasing task right and leaves its waiters alone. */
  lemma ReleaseOne(k: K, o: nat, ws: seq<nat>, don: seq<Option<nat>>, home: seq<Option<nat>>)
    requires Releasing(k, o, ws, don, home) && ws != []
    ensures var r := RemoveInheritance(k, o, k.prio[ws[0]]);
      && Releasing(r, o, ws[1..], don[ws[0] := None], Rehome(home, r.prio))
      && (forall x :: 0 <= x < N(k) && Hop(k, x) == Some(o) ==> r.prio[x] == k.prio[x])
  {
    hide Mid, Refresh, Home, Hop, Refreshable, Priced;
    var k1 := Drop(k, o, k.prio[ws[0]]);
    var g := ShortChains(Edges(k));
    ReleaseRefreshable(k, o, ws, don, home, g);
    RefreshKeeps(k1, o, N(k), g, don[ws[0] := None], home);
    ReleasedBooks(k, k1, Refresh(k1, o, N(k)), o, ws, don, home);
    forall x | 0 <= x < N(k) && Hop(k, x) == Some(o) ensures g[x] > g[o] {
      SameHop(k, k, x);
    }
  }

  lemma ReleasedBooks(k: K, k1: K, r: K, o: nat, ws: seq<nat>, don: seq<Option<nat>>, home: seq<Option<nat>>)
    requires Releasing(k, o, ws, don, home) && ws != [] && Sized(k1) && k1 == k.(inh := k1.inh)
    requires Sized(r) && Repriced(k1, r) && Mid(r, don[ws[0] := None], Rehome(home, r.prio))
    requires forall x :: 0 <= x < N(k) ==> Priced(r, x)
    ensures Releasing(r, o, ws[1..], don[ws[0] := None], Rehome(home, r.prio))
  {
    hide Placed, WaitSorted, Ledger, Effective, Waiting, Mid, Acyclic;
    assert Edges(r) == Edges(k);
    forall x | 0 <= x < N(k) && Hop(r, x) != Some(o)
      ensures don[ws[0] := None][x] == Hop(r, x) && Rehome(home, r.prio)[x] == Home(r, x)
    {
      assert home[x] == Home(k, x);
    }
  }

  lemma ReleasingFacts(k: K, o: nat, ws: seq<nat>, don: seq<Option<nat>>, home: seq<Option<nat>>)
    requires Releasing(k, o, ws, don, home)
    ensures Sized(k) && o < N(k) == |don| && |home| == N(k) && Below(ws, N(k))
    ensures forall i :: 0 <= i < |ws| ==> Hop(k, ws[i]) == Some(o)
    ensures Rehome(home, k.prio) == home
  {
    hide Placed, WaitSorted, Ledger, Waiting, Hop, Home, Acyclic, Priced;
  }

  lemma UndonatedSplit(don: seq<Option<nat>>, ws: seq<nat>)
    requires ws != [] && ws[0] < |don|
    ensures Undonated(don[ws[0] := None], ws[1..]) == Undonated(don, ws)
  {
    assert ws == [ws[0]] + ws[1..];
  }

  lemma RemoveAllUnfolds(k: K, o: nat, ws: seq<nat>)
    requires Sized(k) && o < N(k) && Below(ws, N(k))
    ensures ws == [] ==> RemoveAll(k, o, ws) == k
    ensures ws != [] ==> RemoveAll(k, o, ws) == RemoveAll(RemoveInheritance(k, o, k.prio[ws[0]]), o, ws[1..])
  {
    hide RemoveInheritance;
  }

  lemma {:induction false} ReleaseAll(k: K, o: nat, ws: seq<nat>, don: seq<Option<nat>>, home: seq<Option<nat>>)
    requires Releasing(k, o, ws, don, home)
    ensures var r := RemoveAll(k, o, ws);
      && Releasing(r, o, [], Undonated(don, ws), Rehome(home, r.prio))
      && (forall x :: 0 <= x < N(k) && Hop(k, x) == Some(o) ==> r.prio[x] == k.prio[x])
    decreases |ws|
  {
    hide Releasing, RemoveAll, RemoveInheritance, Home, Hop;
    ReleasingFacts(k, o, ws, don, home);
    RemoveAllUnfolds(k, o, ws);
    if ws == [] {
      assert Undonated(don, ws) == don;
    } else {
      ReleaseOne(k, o, ws, don, home);
      UndonatedSplit(don, ws);
      var k1 := RemoveInheritance(k, o, k.prio[ws[0]]);
      var home1 := Rehome(home, k1.prio);
      ReleaseAll(k1, o, ws[1..], don[ws[0] := None], home1);
      assert Rehome(home1, RemoveAll(k, o, ws).prio) == Rehome(home, RemoveAll(k, o, ws).prio);
      forall x | 0 <= x < N(k) && Hop(k, x) == Some(o) ensures Hop(k1, x) == Some(o) {
        RepricedHop(k, k1, x);
      }
    }
  }

  lemma RepricedHop(k: K, r: K, x: nat)
    requires Sized(k) && Sized(r) && Repriced(k, r) && x < N(k)
    ensures Hop(r, x) == Hop(k, x)
  {
  }

  /** `don` with the tasks in `ws` donating to `o`. */
  ghost function Donated(don: seq<Option<nat>>, ws: seq<nat>, o: nat): (r: seq<Option<nat>>)
    ensures |r| == |don|
    ensures forall x :: 0 <= x < |r| ==> r[x] == if x in ws then Some(o) else don[x]
  {
    seq(|don|, x requires 0 <= x < |don| => if x in ws then Some(o) else don[x])
  }

  /** A donation no more urgent than the beneficiary does not move its priority. */
  lemma EffectiveUnmoved(base: nat, inh: seq<nat>, p: nat)
    requires |inh| == LEVELS && base < LEVELS && p < LEVELS && Effective(base, inh) <= p
    ensures Effective(base, inh[p := inh[p] + 1]) == Effective(base, inh)
  {
    hide Effective, Lowest;
    var inh' := inh[p := inh[p] + 1];
    EffectiveIs(base, inh);
    EffectiveIs(base, inh');
    var e, e' := Effective(base, inh), Effective(base, inh');
    assert e != base ==> inh'[e] != 0;
    assert e' != base && e' != p ==> inh[e'] != 0;
  }

  lemma DonateOne(k: K, o: nat, w: nat, don: seq<Option<nat>>, home: seq<Option<nat>>)
    requires Mid(k, don, home) && o < N(k) && w < N(k) && don[w].None? && k.prio[o] <= k.prio[w]
    requires forall x :: 0 <= x < N(k) ==> Priced(k, x)
    ensures var r := AddInheritance(k, o, k.prio[w]);
      && r == k.(inh := r.inh) && Mid(r, don[w := Some(o)], home)
      && forall x :: 0 <= x < N(k) ==> Priced(r, x)
  {
    hide Placed, WaitSorted, Ledger, Effective, Waiting, Refresh;
    var k1 := Bump(k, o, k.prio[w]);
    assert Priced(k, o);
    LedgerGains(k.inh, k.prio, don, w, o);
    EffectiveUnmoved(k.base[o], k.inh[o], k.prio[w]);
    assert forall x :: 0 <= x < N(k) ==> Priced(k, x) ==> Priced(k1, x);
    RefreshUnfolds(k1, o, N(k));
  }

  /** Waiters no more urgent than the new owner can donate to it without changing any
      priority. */
  lemma {:induction false} DonateAll(k: K, o: nat, ws: seq<nat>, don: seq<Option<nat>>, home: seq<Option<nat>>)
    requires Mid(k, don, home) && o < N(k) && Below(ws, N(k)) && NoDup(ws)
    requires forall x :: 0 <= x < N(k) ==> Priced(k, x)
    requires forall i :: 0 <= i < |ws| ==> don[ws[i]].None? && k.prio[o] <= k.prio[ws[i]]
    ensures var r := AddAll(k, o, ws);
      && r == k.(inh := r.inh) && Mid(r, Donated(don, ws, o), home)
      && forall x :: 0 <= x < N(k) ==> Priced(r, x)
    decreases |ws|
  {
    hide Placed, WaitSorted, Ledger, Priced, Waiting, AddInheritance;
    if ws == [] {
      assert Donated(don, ws, o) == don;
    } else {
      var w := ws[0];
      DonateOne(k, o, w, don, home);
      DonateAll(AddInheritance(k, o, k.prio[w]), o, ws[1..], don[w := Some(o)], home);
      assert ws == [w] + ws[1..];
      assert Donated(don[w := Some(o)], ws[1..], o) == Donated(don, ws, o);
    }
  }

  /** Nobody waits for a mutex whose queue is empty. */
  lemma NobodyWaits(k: K, m: nat, x: nat)
    requires Core(k) && m < |k.owner| && x < N(k)
    ensures k.waitMtx[x] == Some(m) <==> x in k.q[MtxList(k, m)]
  {
    hide WaitSorted, Ledger, Effective, Acyclic, Rehome;
    assert x in k.q[MtxList(k, m)] <==> Homes(k)[x] == Some(MtxList(k, m));
  }

  lemma AbandonedCore(k: K, m: nat)
    requires Core(k) && m < |k.owner| && k.q[MtxList(k, m)] == []
    ensures Core(k.(owner := k.owner[m := None]))
  {
    hide Placed, WaitSorted, Ledger, Effective, Waiting, Acyclic;
    var r := k.(owner := k.owner[m := None]);
    forall x | 0 <= x < N(k) ensures Edges(k)[x] == Hop(r, x) && Home(k, x) == Home(r, x) {
      NobodyWaits(k, m, x);
    }
    assert forall x :: 0 <= x < N(k) ==> Priced(k, x) ==> Priced(r, x);
    Conclude(r, Edges(k), Homes(k));
  }

  /** The head of the queue is taken out; every waiter still donates to `o`. */
  lemma ReleaseStarts(k: K, m: nat, o: nat)
    requires Core(k) && m < |k.owner| && k.owner[m] == Some(o) && k.q[MtxList(k, m)] != []
    ensures var l := MtxList(k, m);
      Releasing(k.(q := k.q[l := k.q[l][1..]]), o, k.q[l], Edges(k), Homes(k)[k.q[l][0] := None])
  {
    hide Placed, WaitSorted, Ledger, Effective, Waiting, Acyclic, Home, Hop, Rehome;
    var l := MtxList(k, m);
    var k0, home0 := k.(q := k.q[l := k.q[l][1..]]), Homes(k)[k.q[l][0] := None];
    ReleaseStartsMid(k, m);
    HeadIsMostUrgent(k, m);
    forall i | 0 <= i < |k.q[l]| ensures Hop(k0, k.q[l][i]) == Some(o) && Edges(k)[k.q[l][i]] == Some(o) {
      NobodyWaits(k, m, k.q[l][i]);
      RequeuedHop(k, k0, k.q[l][i]);
      HopOfWaiter(k, m, k.q[l][i]);
    }
    forall x | 0 <= x < N(k)
      ensures Home(k0, x) == Homes(k)[x] && Hop(k0, x) == Edges(k)[x]
      ensures Priced(k0, x)
      ensures x == k.q[l][0] ==> Hop(k0, x) == Some(o)
    {
      RequeuedHop(k, k0, x);
      assert Priced(k, x);
    }
  }

  /** Only list contents differ. */
  lemma RequeuedHop(k: K, k0: K, x: nat)
    requires Sized(k) && Sized(k0) && k0 == k.(q := k0.q) && x < N(k)
    ensures Home(k0, x) == Home(k, x) == Homes(k)[x] && Hop(k0, x) == Hop(k, x) == Edges(k)[x] && Edges(k0) == Edges(k)
  {
  }

  lemma ReleaseStartsMid(k: K, m: nat)
    requires Core(k) && m < |k.owner| && k.q[MtxList(k, m)] != []
    ensures var (l, home0) := (MtxList(k, m), Homes(k)[k.q[MtxList(k, m)][0] := None]);
      var k0 := k.(q := k.q[l := k.q[l][1..]]);
      Sized(k0) && Mid(k0, Edges(k), home0)
  {
    hide WaitSorted, Ledger, Effective, Waiting, Acyclic;
    var l := MtxList(k, m);
    PlacedPop(k.q, Homes(k), l);
    WithoutAt(k.q[l], 0);
    TakeKeeps(k.q, Homes(k), k.prio, k.q[l][0]);
    MidLists(k, k.(q := k.q[l := k.q[l][1..]]), Edges(k), Homes(k), Homes(k)[k.q[l][0] := None]);
  }

  /** The state in which `next` has just become the owner and nobody donates to it yet. */
  ghost predicate Granted(k: K, k2: K, k3: K, m: nat) {
    && Sized(k) && Sized(k2) && m < |k.owner|
    && k.q[MtxList(k, m)] != [] && k2 == k.(prio := k2.prio, inh := k2.inh, q := k2.q)
    && k.q[MtxList(k, m)][0] != IDLE && !IsTarget(k, k.q[MtxList(k, m)][0])
    && k3 == Grant(k2, m, k.q[MtxList(k, m)][0])
  }

  lemma GrantedHome(k: K, k2: K, k3: K, m: nat, x: nat)
    requires Core(k) && Granted(k, k2, k3, m) && x < N(k)
    ensures var next, home := k.q[MtxList(k, m)][0], Homes(k)[k.q[MtxList(k, m)][0] := None];
      && Home(k3, x) == Rehome(home, k2.prio)[next := Some(k2.prio[next])][x]
      && k.waitMtx[next] == Some(m)
      && Waiting(k3.state, k3.waitSem, k3.waitMtx)
  {
    hide Placed, WaitSorted, Ledger, Effective, Acyclic;
    NobodyWaits(k, m, k.q[MtxList(k, m)][0]);
  }

  lemma GrantedHop(k: K, k2: K, k3: K, m: nat, x: nat)
    requires Core(k) && Granted(k, k2, k3, m) && x < N(k)
    ensures var l := MtxList(k, m);
      Hop(k3, x) == if x == k.q[l][0] then None else if x in k.q[l] then Some(k.q[l][0]) else Edges(k)[x]
  {
    hide Placed, WaitSorted, Ledger, Effective, Acyclic, Waiting;
    NobodyWaits(k, m, x);
  }

  lemma GrantedMid(k: K, k2: K, k3: K, m: nat, don: seq<Option<nat>>)
    requires Core(k) && Granted(k, k2, k3, m)
    requires Mid(k2, don, Rehome(Homes(k)[k.q[MtxList(k, m)][0] := None], k2.prio))
    requires forall x :: 0 <= x < N(k) ==> Priced(k2, x)
    ensures Mid(k3, don, Homes(k3)) && forall x :: 0 <= x < N(k) ==> Priced(k3, x)
  {
    hide Placed, WaitSorted, Ledger, Effective, Acyclic, Waiting, Home;
    var next := k.q[MtxList(k, m)][0];
    var home2 := Rehome(Homes(k)[next := None], k2.prio);
    AppendKeeps(k2.q, home2, k2.prio, next);
    GrantedHome(k, k2, k3, m, next);
    forall x | 0 <= x < N(k) ensures Home(k3, x) == home2[next := Some(k2.prio[next])][x] {
      GrantedHome(k, k2, k3, m, x);
    }
    assert Homes(k3) == home2[next := Some(k2.prio[next])];
    MidLists(k2, k3, don, home2, Homes(k3));
    assert forall x :: 0 <= x < N(k) ==> Priced(k2, x) ==> Priced(k3, x);
  }

  /** The first waiter is at least as urgent as the rest. */
  lemma HeadIsMostUrgent(k: K, m: nat)
    requires Core(k) && m < |k.owner| && k.q[MtxList(k, m)] != []
    ensures var ws := k.q[MtxList(k, m)]; forall i :: 0 <= i < |ws| ==> k.prio[ws[0]] <= k.prio[ws[i]]
    ensures var ws := k.q[MtxList(k, m)]; NoDup(ws) && Below(ws, N(k))
  {
    hide Ledger, Effective, Acyclic, Waiting;
    assert Sorted(k.q[MtxList(k, m)], k.prio);
  }

  /** The final unlock, or the cancellation of an unconsumed handoff: ownership goes to the
      first waiter, the donations of all others follow, and the new owner's priority does not
      change on the way. */
  lemma ReleaseMutexCore(k: K, m: nat, o: nat)
    requires Core(k) && m < |k.owner| && k.owner[m] == Some(o)
    requires forall x :: 0 <= x < N(k) && k.waitMtx[x].Some? ==> x != IDLE && !IsTarget(k, x)
    ensures Core(ReleaseMutex(k, m, o))
    ensures k.q[MtxList(k, m)] != [] ==>
      var next := k.q[MtxList(k, m)][0]; ReleaseMutex(k, m, o).prio[next] == k.prio[next]
  {
    hide Mid, Effective, Acyclic, Home, Hop, Refresh, RemoveInheritance, AddAll, Grant;
    var l := MtxList(k, m);
    var ws := k.q[l];
    if ws == [] {
      AbandonedCore(k, m);
    } else {
      ReleaseStarts(k, m, o);
      var k0, don, home := k.(q := k.q[l := ws[1..]]), Edges(k), Homes(k)[ws[0] := None];
      ReleaseAll(k0, o, ws, don, home);
      var k2 := RemoveAll(k0, o, ws);
      assert k2 == RemoveAll(RemoveInheritance(k0, o, k.prio[ws[0]]), o, ws[1..]);
      NobodyWaits(k, m, ws[0]);
      forall x | 0 <= x < N(k) ensures Hop(k0, x) == Hop(k, x) {
        RepricedHop(k, k0, x);
      }
      ReleaseEnds(k, k2, m, o);
    }
  }

  lemma ReleaseEnds(k: K, k2: K, m: nat, o: nat)
    requires Core(k) && m < |k.owner| && k.owner[m] == Some(o) && k.q[MtxList(k, m)] != []
    requires var next := k.q[MtxList(k, m)][0]; next != IDLE && !IsTarget(k, next)
    requires Sized(k2) && k2 == k.(prio := k2.prio, inh := k2.inh, q := k2.q)
    requires Releasing(k2, o, [], Undonated(Edges(k), k.q[MtxList(k, m)]), Rehome(Homes(k)[k.q[MtxList(k, m)][0] := None], k2.prio))
    requires forall x :: 0 <= x < N(k) && Hop(k, x) == Some(o) ==> k2.prio[x] == k.prio[x]
    ensures var (next, rest) := (k.q[MtxList(k, m)][0], k.q[MtxList(k, m)][1..]);
      var r := AddAll(Grant(k2, m, next), next, rest);
      Core(r) && r.prio[next] == k.prio[next] && r == Grant(k2, m, next).(inh := r.inh)
  {
    hide Mid, Effective, Acyclic, Home, Hop, Refresh, AddAll, Grant, Priced;
    var ws := k.q[MtxList(k, m)];
    var next, rest := ws[0], ws[1..];
    var don := Undonated(Edges(k), ws);
    var k3 := Grant(k2, m, next);
    assert Granted(k, k2, k3, m);
    GrantedMid(k, k2, k3, m, don);
    HeadIsMostUrgent(k, m);
    forall i | 0 <= i < |ws| ensures Hop(k, ws[i]) == Some(o) {
      NobodyWaits(k, m, ws[i]);
      HopOfWaiter(k, m, ws[i]);
    }
    GrantedPrio(k2, k3, m, next);
    forall i | 0 <= i < |rest| ensures don[rest[i]].None? && k3.prio[next] <= k3.prio[rest[i]] {
      assert rest[i] == ws[i + 1];
    }
    DonateAll(k3, next, rest, don, Homes(k3));
    var r := AddAll(k3, next, rest);
    var don' := Donated(don, rest, next);
    forall x | 0 <= x < N(k) ensures don'[x] == Hop(r, x) && Homes(k3)[x] == Home(r, x)
      && (don'[x].Some? ==> don'[x] == Edges(k)[x] || don'[x] == Some(next))
    {
      GrantedHop(k, k2, k3, m, x);
      SameHop(k3, r, x);
      assert x in ws <==> x == next || x in rest by { assert ws == [next] + rest; }
    }
    assert don'[next].None? by { GrantedHop(k, k2, k3, m, next); SameHop(k3, r, next); }
    HandoffAcyclic(Edges(k), don', next);
    Conclude(r, don', Homes(k3));
  }

  lemma HopOfWaiter(k: K, m: nat, x: nat)
    requires Sized(k) && x < N(k) && k.waitMtx[x] == Some(m)
    ensures Hop(k, x) == k.owner[m]
  {
  }

  lemma GrantedPrio(k2: K, k3: K, m: nat, next: nat)
    requires Sized(k2) && m < |k2.owner| && next < N(k2) && k3 == Grant(k2, m, next)
    ensures k3.prio == k2.prio
  {
  }
}
