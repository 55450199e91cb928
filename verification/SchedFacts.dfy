/** What the scheduler's methods rely on about the states they pass through. */
module SchedFacts {
  import opened Lists
  import Budget
  import opened Kernel
  import opened Inheritance
  import opened Links
  import opened Queues
  import opened Chains
  import opened Runs
  import opened Invariant
  import opened Steps
  import opened MutexSteps
  import opened Preserved
  import opened PreservedMutex
  import opened PreservedHart

  /** A waiter's priority changes while it is out of its queue. */
  lemma SetEffectiveIs(k: K, t: nat, p: nat, home: seq<Option<nat>>)
    requires Sized(k) && t < N(k) && p < LEVELS && k.prio[t] != p
    requires |home| == N(k) && Placed(k.q, home) && home[t] == Home(k, t) && Waiting(k.state, k.waitSem, k.waitMtx)
    ensures var (r, was) := (SetEffective(k, t, p), k.prio[t]);
      && r == k.(prio := k.prio[t := p], q := r.q)
      && (k.state[t] == Ready && InReady(k, t) <==> k.state[t] == Ready && home[t].Some?)
      && (k.state[t] == Ready && home[t].Some? ==>
            home[t] == Some(was) && r.q == k.q[was := Without(k.q[was], t)][p := k.q[p] + [t]])
      && (k.waitSem[t].Some? ==>
            var l := SemList(k, k.waitSem[t].value);
            home[t] == Some(l) && r.q == k.q[l := Insert(Without(k.q[l], t), t, k.prio[t := p])])
      && (k.waitSem[t].None? && !(k.state[t] == Ready && home[t].Some?) ==> r.q == k.q)
      && (k.waitSem[t].Some? ==> k.state[t] != Ready && Below(Without(k.q[SemList(k, k.waitSem[t].value)], t), N(k)))
  {
    ReadyIffHome(k, home, t);
  }

  lemma SetEffectiveSame(k: K, t: nat)
    requires Sized(k) && t < N(k)
    ensures SetEffective(k, t, k.prio[t]) == k
  {
  }

  /** A count after a donation was added still fits its byte: nobody donates to itself. */
  lemma CountFits(k: K, o: nat, p: nat, f: seq<nat>, don: seq<Option<nat>>, home: seq<Option<nat>>)
    requires Refreshable(k, o, f, don, home) && p < LEVELS
    ensures k.inh[o][p] <= 255
  {
    hide Placed, WaitSorted, Effective, Waiting, Home, Priced;
    var d := Donors(don, k.prio, o, p);
    assert don[o] == Hop(k, o) == Edges(k)[o];
    assert o !in d;
    SetBelow(d + {o}, N(k));
    assert |d + {o}| == |d| + 1;
  }

  /** The lists determine where each task is. */
  lemma PlacedUnique(q: seq<seq<nat>>, home: seq<Option<nat>>, home': seq<Option<nat>>)
    requires Placed(q, home) && Placed(q, home') && |home| == |home'|
    ensures home == home'
  {
    forall t | 0 <= t < |home| ensures home[t] == home'[t] {
      if home[t].Some? {
        var i :| 0 <= i < |q[home[t].value]| && q[home[t].value][i] == t;
      }
    }
  }

  /** `b` is `r` with one donation to `o` moved from level `was` to level `want`. */
  ghost predicate Moves(r: K, b: K, o: nat, was: nat, want: nat)
    requires Sized(r)
  {
    && o < N(r) && was < LEVELS && want < LEVELS && was != want
    && b == Bump(Drop(r, o, was), o, want) && r.inh[o][was] >= 1 && r.inh[o][want] < 255
  }

  /** What the next hop of a refresh may rely on, once `t` has been reseated as `r`. */
  lemma HopReady(k: K, r: K, t: nat, want: nat, f: seq<nat>, don: seq<Option<nat>>, home: seq<Option<nat>>, home': seq<Option<nat>>)
    requires Refreshable(k, t, f, don, home) && Hop(k, t).Some? && |home'| == N(k) && want == Effective(k.base[t], k.inh[t])
    requires k.prio[t] != want && r == Reseat(k, t, want) && Placed(r.q, home')
    ensures var (o, b) := (Hop(k, t).value, Rebooked(k, t));
      Moves(r, b, o, k.prio[t], want) && f[o] < f[t] && Refreshable(b, o, f, don, home')
  {
    hide Placed, WaitSorted, Ledger, Effective, Waiting, Home, Reseat;
    var o := Hop(k, t).value;
    HopRefreshable(k, t, f, don, home);
    HopLedger(k, t, don);
    ReseatIs(k, t, want);
    var b := Rebooked(k, t);
    PlacedUnique(b.q, home', Rehome(home, b.prio));
    CountFits(b, o, want, f, don, home');
  }

  lemma RefreshEnds(k: K, t: nat, fuel: nat, f: seq<nat>, don: seq<Option<nat>>, home: seq<Option<nat>>, home': seq<Option<nat>>)
    requires Refreshable(k, t, f, don, home) && f[t] < fuel && |home'| == N(k)
    requires Placed(Refresh(k, t, fuel).q, home')
    ensures Refreshed(k, Refresh(k, t, fuel), t, f, don, home) && home' == Rehome(home, Refresh(k, t, fuel).prio)
  {
    hide Placed, WaitSorted, Ledger, Effective, Waiting, Home, Settled, Falls, Refresh;
    RefreshKeeps(k, t, fuel, f, don, home);
    PlacedUnique(Refresh(k, t, fuel).q, home', Rehome(home, Refresh(k, t, fuel).prio));
  }

  /** What a refresh of a chain may rely on about the task at hand. */
  lemma RefreshStarts(k: K, t: nat, f: seq<nat>, don: seq<Option<nat>>, home: seq<Option<nat>>)
    requires Refreshable(k, t, f, don, home)
    ensures Sized(k) && |f| == N(k) == |home| == |k.waitMtx| && t < N(k) && |k.owner| == |k.q| - LEVELS - |k.count|
    ensures home[t] == Home(k, t) && Waiting(k.state, k.waitSem, k.waitMtx)
    ensures k.waitMtx[t].Some? ==>
      k.state[t] != Ready && k.waitSem[t].None? && home[t] == Some(MtxList(k, k.waitMtx[t].value))
      && forall p :: 0 <= p < LEVELS ==> Below(Without(SetEffective(k, t, p).q[MtxList(k, k.waitMtx[t].value)], t), N(k))
  {
    hide Placed, WaitSorted, Ledger, Effective, Priced, SetEffective;
  }

  // ---- Queues a refresh does not reach --------------------------------------------------------

  /** Every member of list `l` sits above `t`. */
  ghost predicate Above(k: K, l: nat, f: seq<nat>, t: nat) {
    |f| == N(k) && t < N(k) && LEVELS <= l < |k.q| && forall i :: 0 <= i < |k.q[l]| ==> k.q[l][i] < N(k) && f[k.q[l][i]] > f[t]
  }

  /** A refresh touches no wait queue whose members all sit above the chain. */
  lemma {:induction false} QueueUntouched(k: K, t: nat, fuel: nat, f: seq<nat>, don: seq<Option<nat>>, home: seq<Option<nat>>, l: nat)
    requires Refreshable(k, t, f, don, home) && Above(k, l, f, t)
    ensures Refresh(k, t, fuel).q[l] == k.q[l]
    decreases fuel
  {
    hide Placed, WaitSorted, Ledger, Effective, Rebooked, Reseat, Refresh, Refreshable, Above, Home, Waiting;
    RefreshStarts(k, t, f, don, home);
    if fuel > 0 {
      RefreshUnfolds(k, t, fuel);
      if !Priced(k, t) {
        ReseatElsewhere(k, t, Effective(k.base[t], k.inh[t]), f, don, home, l);
        if Hop(k, t).Some? {
          RebookedElsewhere(k, t, f, don, home, l);
          QueueUntouched(Rebooked(k, t), Hop(k, t).value, fuel - 1, f, don, Rehome(home, Rebooked(k, t).prio), l);
        }
      }
    } else {
      NoFuel(k, t);
    }
  }

  lemma RebookedElsewhere(k: K, t: nat, f: seq<nat>, don: seq<Option<nat>>, home: seq<Option<nat>>, l: nat)
    requires Refreshable(k, t, f, don, home) && Above(k, l, f, t) && !Priced(k, t) && Hop(k, t).Some?
    ensures var (o, b) := (Hop(k, t).value, Rebooked(k, t));
      b.q[l] == k.q[l] && Refreshable(b, o, f, don, Rehome(home, b.prio)) && Above(b, l, f, o)
  {
    hide Placed, WaitSorted, Ledger, Effective, Rebooked, Reseat, Refreshable, Home, Waiting;
    RefreshStarts(k, t, f, don, home);
    ReseatElsewhere(k, t, Effective(k.base[t], k.inh[t]), f, don, home, l);
    RebookedIs(k, t);
    HopRefreshable(k, t, f, don, home);
  }

  lemma NoFuel(k: K, t: nat)
    requires Sized(k) && t < N(k)
    ensures Refresh(k, t, 0) == k
  {
  }

  lemma ReseatElsewhere(k: K, t: nat, p: nat, f: seq<nat>, don: seq<Option<nat>>, home: seq<Option<nat>>, l: nat)
    requires Refreshable(k, t, f, don, home) && Above(k, l, f, t) && p < LEVELS && k.prio[t] != p
    ensures Reseat(k, t, p).q[l] == k.q[l]
  {
    hide WaitSorted, Ledger, Effective, Reseat, Priced, Without, Insert;
    ReseatIs(k, t, p);
    ReadyIffHome(k, home, t);
    assert home[t] != Some(l);
  }

  /** `t` no longer waits for a semaphore, with or without its grant. */
  function SemEnded(k: K, t: nat, grant: bool): (r: K)
    requires Sized(k) && t < N(k)
    ensures Sized(r) && N(r) == N(k)
  {
    k.(wakeAt := k.wakeAt[t := 0], granted := k.granted[t := grant],
       grantSem := k.grantSem[t := if grant then k.waitSem[t] else None], waitSem := k.waitSem[t := None])
  }

  /** Where a waiting task is listed. */
  lemma WaitingHome(k: K, t: nat)
    requires Inv(k) && t < N(k)
    ensures k.waitSem[t].Some? ==> Homes(k)[t] == Some(SemList(k, k.waitSem[t].value))
    ensures k.waitMtx[t].Some? ==> Homes(k)[t] == Some(MtxList(k, k.waitMtx[t].value))
  {
    hide Placed, WaitSorted, Ledger, Effective, Acyclic, Side;
  }

  /** The current task queued on a semaphore, before the switch. */
  function SemQueued(k: K, s: nat, patience: Patience): (r: K)
    requires Sized(k) && s < |k.count|
    ensures Sized(r)
  {
    var c, l := k.current, SemList(k, s);
    k.(state := k.state[c := Blocked],
       wakeAt := k.wakeAt[c := if patience.Until? then patience.deadline else 0],
       waitSem := k.waitSem[c := Some(s)],
       granted := k.granted[c := false],
       call := k.call[c := InSemaphore],
       q := k.q[l := Insert(k.q[l], c, k.prio)])
  }

  lemma SemDownMid(k: K, s: nat, patience: Patience)
    requires Inv(k) && InUserCode(k) && s < |k.count|
    ensures var r := SemQueued(k, s, patience); Core(r) && r.pending.None?
    ensures Homes(k)[k.current].None?
  {
    hide Placed, WaitSorted, Ledger, Effective, Acyclic, Rest, Insert;
    SemJoinedCore(k, SemQueued(k, s, patience), k.current, s);
  }

  // ---- Handing a mutex over --------------------------------------------------------------------

  /** What taking one donation back needs, and that it leaves the queue being walked alone. */
  lemma TakeBackStarts(k: K, o: nat, ws: seq<nat>, don: seq<Option<nat>>, home: seq<Option<nat>>, l: nat) returns (g: seq<nat>)
    requires Releasing(k, o, ws, don, home) && ws != []
    requires LEVELS <= l < |k.q| && forall i :: 0 <= i < |k.q[l]| ==> Hop(k, k.q[l][i]) == Some(o)
    ensures var b := Drop(k, o, k.prio[ws[0]]);
      && Below(g, N(k)) && k.inh[o][k.prio[ws[0]]] >= 1 && Refreshable(b, o, g, don[ws[0] := None], home)
      && Refresh(b, o, N(k)).q[l] == k.q[l]
  {
    hide Mid, Effective, Acyclic, Home, Refresh, Refreshable, Placed, WaitSorted, Ledger;
    g := ShortChains(Edges(k));
    ReleaseRefreshable(k, o, ws, don, home, g);
    var b := Drop(k, o, k.prio[ws[0]]);
    forall i | 0 <= i < |b.q[l]| ensures b.q[l][i] < N(b) && g[b.q[l][i]] > g[o] {
      SameHop(k, k, k.q[l][i]);
    }
    QueueUntouched(b, o, N(k), g, don[ws[0] := None], home, l);
  }

  lemma ReleasedHome(k: K, r: K, o: nat, ws: seq<nat>, don: seq<Option<nat>>, home: seq<Option<nat>>, home': seq<Option<nat>>)
    requires Releasing(k, o, ws, don, home) && r == RemoveAll(k, o, ws) && |home'| == N(k) && Placed(r.q, home')
    ensures Releasing(r, o, [], Undonated(don, ws), home') && home' == Rehome(home, r.prio)
    ensures forall x :: 0 <= x < N(k) && Hop(k, x) == Some(o) ==> r.prio[x] == k.prio[x]
  {
    hide Placed, WaitSorted, Ledger, Waiting, Acyclic, Priced, Home, Hop, RemoveAll;
    ReleaseAll(k, o, ws, don, home);
    PlacedUnique(r.q, home', Rehome(home, r.prio));
  }

  lemma NotNil(ws: seq<nat>, i: nat, n: nat)
    requires Below(ws, n) && n <= SLOT_LIMIT && i <= |ws| && At(ws, i) == NIL
    ensures ws[i..] == []
  {
  }

  /** `o` has just become the owner; the tasks in `ws` wait for it but do not donate yet. */
  ghost predicate Giving(k: K, o: nat, ws: seq<nat>, don: seq<Option<nat>>, home: seq<Option<nat>>) {
    && Sized(k) && |don| == N(k) && Mid(k, don, home) && Acyclic(Edges(k)) && home == Homes(k)
    && o < N(k) && Below(ws, N(k)) && NoDup(ws)
    && (forall x :: 0 <= x < N(k) ==> Priced(k, x))
    && (forall x :: 0 <= x < N(k) ==> don[x] == Hop(k, x) || Hop(k, x) == Some(o))
    && (forall i :: 0 <= i < |ws| ==> don[ws[i]].None? && Hop(k, ws[i]) == Some(o) && k.prio[o] <= k.prio[ws[i]])
  }

  /** One more donation to the new owner: it changes a count and nothing else. */
  lemma GiveOne(k: K, o: nat, ws: seq<nat>, don: seq<Option<nat>>, home: seq<Option<nat>>) returns (g: seq<nat>)
    requires Giving(k, o, ws, don, home) && ws != []
    ensures var r := AddInheritance(k, o, k.prio[ws[0]]);
      && Below(g, N(k)) && Refreshable(Bump(k, o, k.prio[ws[0]]), o, g, don[ws[0] := Some(o)], home)
      && r == k.(inh := r.inh) && Giving(r, o, ws[1..], don[ws[0] := Some(o)], home)
  {
    hide Placed, WaitSorted, Ledger, Effective, Waiting, Home, Refresh;
    var w, don' := ws[0], don[ws[0] := Some(o)];
    var b := Bump(k, o, k.prio[w]);
    g := ShortChains(Edges(k));
    LedgerGains(k.inh, k.prio, don, w, o);
    DonateOne(k, o, w, don, home);
    forall x | 0 <= x < N(k) ensures Hop(b, x) == Hop(k, x) == Edges(k)[x] && Home(b, x) == Home(k, x) {
      SameHop(k, b, x);
    }
    assert Edges(b) == Edges(k);
    assert forall x :: 0 <= x < N(k) && x != o ==> Priced(k, x) ==> Priced(b, x);
    GaveOne(k, AddInheritance(k, o, k.prio[w]), o, ws, don, home);
  }

  lemma GaveOne(k: K, r: K, o: nat, ws: seq<nat>, don: seq<Option<nat>>, home: seq<Option<nat>>)
    requires Giving(k, o, ws, don, home) && ws != [] && Sized(r) && r == k.(inh := r.inh)
    requires Mid(r, don[ws[0] := Some(o)], home) && forall x :: 0 <= x < N(k) ==> Priced(r, x)
    ensures Giving(r, o, ws[1..], don[ws[0] := Some(o)], home)
  {
    hide Placed, WaitSorted, Ledger, Effective, Waiting, Home, Mid, Priced;
    forall x | 0 <= x < N(k) ensures Hop(r, x) == Hop(k, x) && Home(r, x) == Home(k, x) {
      SameHop(k, r, x);
    }
    assert Homes(r) == Homes(k) && Edges(r) == Edges(k);
  }

  /** The books right after the handoff, before the remaining waiters donate again. */
  lemma GivingStarts(k: K, k2: K, m: nat, o: nat)
    requires Core(k) && m < |k.owner| && k.owner[m] == Some(o) && k.q[MtxList(k, m)] != []
    requires var next := k.q[MtxList(k, m)][0]; next != IDLE && !IsTarget(k, next)
    requires Sized(k2) && k2 == k.(prio := k2.prio, inh := k2.inh, q := k2.q)
    requires Releasing(k2, o, [], Undonated(Edges(k), k.q[MtxList(k, m)]), Rehome(Homes(k)[k.q[MtxList(k, m)][0] := None], k2.prio))
    requires forall x :: 0 <= x < N(k) && Hop(k, x) == Some(o) ==> k2.prio[x] == k.prio[x]
    ensures var ws := k.q[MtxList(k, m)];
      var k3 := Grant(k2, m, ws[0]);
      Giving(k3, ws[0], ws[1..], Undonated(Edges(k), ws), Homes(k3))
  {
    hide Mid, Effective, Acyclic, Home, Hop, Grant, Priced;
    var ws := k.q[MtxList(k, m)];
    var next, rest := ws[0], ws[1..];
    var don := Undonated(Edges(k), ws);
    var k3 := Grant(k2, m, next);
    assert Granted(k, k2, k3, m);
    GrantedMid(k, k2, k3, m, don);
    HeadIsMostUrgent(k, m);
    GrantedPrio(k2, k3, m, next);
    forall x | 0 <= x < N(k)
      ensures Edges(k3)[x] == Hop(k3, x)
      ensures x in ws ==> k3.prio[x] == k.prio[x]
      ensures Hop(k3, x) == if x == next then None else if x in ws then Some(next) else Edges(k)[x]
    {
      GrantedHop(k, k2, k3, m, x);
      SameHop(k3, k3, x);
      if x in ws {
        NobodyWaits(k, m, x);
        HopOfWaiter(k, m, x);
      }
    }
    forall i | 0 <= i < |rest| ensures rest[i] == ws[i + 1] && don[rest[i]].None? && Hop(k3, rest[i]) == Some(next) && k3.prio[next] <= k3.prio[rest[i]] {
      assert rest[i] in ws && next in ws;
    }
    HandoffAcyclic(Edges(k), Edges(k3), next);
  }

  lemma AddAllUnfolds(k: K, o: nat, ws: seq<nat>)
    requires Sized(k) && o < N(k) && Below(ws, N(k))
    ensures ws == [] ==> AddAll(k, o, ws) == k
    ensures ws != [] ==> AddAll(k, o, ws) == AddAll(AddInheritance(k, o, k.prio[ws[0]]), o, ws[1..])
  {
    hide AddInheritance;
  }

  lemma GivingHome(k: K, o: nat, ws: seq<nat>, don: seq<Option<nat>>, home: seq<Option<nat>>, home': seq<Option<nat>>)
    requires Giving(k, o, ws, don, home) && |home'| == N(k) && Placed(k.q, home')
    ensures home' == home && o < N(k) == |don| && Below(ws, N(k))
  {
    hide Placed, WaitSorted, Ledger, Effective, Waiting, Home, Hop;
    PlacedUnique(k.q, home, home');
  }

  /** The mutex recorded as `next`'s, which no longer waits. */
  function HandedTo(k: K, m: nat, next: nat): (r: K)
    requires Sized(k) && m < |k.owner| && next < N(k)
    ensures Sized(r) && N(r) == N(k)
  {
    k.(owner := k.owner[m := Some(next)], depth := k.depth[m := 1], grantMtx := k.grantMtx[next := k.waitMtx[next]],
       waitMtx := k.waitMtx[next := None], wakeAt := k.wakeAt[next := 0], granted := k.granted[next := true])
  }

  lemma ReleaseSteps(k: K, m: nat, o: nat)
    requires Sized(k) && m < |k.owner| && o < N(k) && k.q[MtxList(k, m)] != []
    ensures var ws := k.q[MtxList(k, m)];
      var k0 := k.(q := k.q[MtxList(k, m) := ws[1..]]);
      && Sized(k0) && RemoveAll(k0, o, ws) == RemoveAll(RemoveInheritance(k0, o, k0.prio[ws[0]]), o, ws[1..])
      && ReleaseMutex(k, m, o) == AddAll(Grant(RemoveAll(k0, o, ws), m, ws[0]), ws[0], ws[1..])
  {
    hide RemoveInheritance, Grant, AddAll;
  }

  /** What the second half of a handoff finds, in terms of the state it started from. */
  lemma HandOffFacts(k: K, k2: K, m: nat, o: nat)
    requires Core(k) && m < |k.owner| && k.owner[m] == Some(o) && k.q[MtxList(k, m)] != []
    requires forall x :: 0 <= x < N(k) && k.waitMtx[x].Some? ==> x != IDLE && !IsTarget(k, x)
    requires var ws := k.q[MtxList(k, m)];
      var k0 := k.(q := k.q[MtxList(k, m) := ws[1..]]);
      Sized(k0) && k2 == RemoveAll(k0, o, ws)
    ensures var ws := k.q[MtxList(k, m)];
      var k3 := Grant(k2, m, ws[0]);
      && Placed(k2.q, Rehome(Homes(k)[ws[0] := None], k2.prio)) && ws[0] != IDLE
      && Giving(k3, ws[0], ws[1..], Undonated(Edges(k), ws), Homes(k3)) && Placed(k3.q, Homes(k3))
  {
    hide Placed, WaitSorted, Ledger, Effective, Acyclic, Waiting, Home, Hop, Releasing, RemoveAll, Giving, Rehome;
    var ws := k.q[MtxList(k, m)];
    var k0, home := k.(q := k.q[MtxList(k, m) := ws[1..]]), Homes(k)[ws[0] := None];
    ReleaseStarts(k, m, o);
    ReleaseAll(k0, o, ws, Edges(k), home);
    NobodyWaits(k, m, ws[0]);
    forall x | 0 <= x < N(k) ensures Hop(k0, x) == Hop(k, x) {
      RepricedHop(k, k0, x);
    }
    ReleasingPlaced(k2, o, Undonated(Edges(k), ws), Rehome(home, k2.prio));
    GivingStarts(k, k2, m, o);
    GivingPlaced(Grant(k2, m, ws[0]), ws[0], ws[1..], Undonated(Edges(k), ws));
  }

  lemma ReleasingPlaced(k: K, o: nat, don: seq<Option<nat>>, home: seq<Option<nat>>)
    requires Releasing(k, o, [], don, home)
    ensures Placed(k.q, home)
  {
    hide WaitSorted, Ledger, Effective, Acyclic, Waiting, Home, Hop;
  }

  lemma GivingPlaced(k: K, o: nat, ws: seq<nat>, don: seq<Option<nat>>)
    requires Sized(k) && Giving(k, o, ws, don, Homes(k))
    ensures Placed(k.q, Homes(k))
  {
    hide WaitSorted, Ledger, Effective, Acyclic, Waiting, Home, Hop;
  }

  /** A switch decided on but not yet committed. */
  datatype Intent = Intent(sequence: nat, previous: nat, previousIdent: nat, target: nat, targetIdent: nat, previousResume: nat)

  /** A switch-away leaves the popped target, or idle, with a fresh ticket. */
  lemma SwitchAwayIs(k: K)
    requires Core(k) && k.pending.None?
    ensures var (k1, t) := PopReadyOrIdle(k);
      SwitchAway(k) == Commit(k1, t) && k1 == k.(q := k1.q) && (t != IDLE ==> k.state[t] == Ready && !InReady(k1, t))
  {
    hide WaitSorted, Ledger, Effective, Acyclic, FirstBucket, PopReady;
    PoppedIs(k);
    var next := PopReady(k).1;
    if next.Some? {
      ReadyIffHome(PopReady(k).0, Homes(k)[next.value := None], next.value);
    }
  }

  /** The donations a new waiter brings, before the refresh along the owner chain. */
  lemma EnlistStarts(k: K, m: nat, patience: Patience) returns (g: seq<nat>)
    requires Core(k) && m < |k.owner| && k.owner[m].Some? && k.state[k.current] == Running
    requires !ChainContains(k, k.owner[m].value, k.current, N(k))
    ensures var r := Queued(k, m, patience);
      Below(g, N(k)) && Refreshable(r, k.owner[m].value, g, Edges(r), Homes(r))
      && Homes(k)[k.current].None? && Homes(r) == Homes(k)[k.current := Some(MtxList(k, m))]
  {
    hide Placed, WaitSorted, Ledger, Effective, Waiting, Home, Refresh, ChainContains, Mid;
    var c, o := k.current, k.owner[m].value;
    QueuedBooks(k, m, patience);
    QueuedMid(k, m, patience);
    ChainContainsExact(k, o, c);
    NewEdgeAcyclic(Edges(k), c, o);
    var r := Queued(k, m, patience);
    g := ShortChains(Edges(r));
    assert forall x :: 0 <= x < N(k) && x != o ==> Priced(k, x) ==> Priced(r, x);
  }

  // ---- Waiting for a mutex ------------------------------------------------------------------------

  /** The current task recorded as waiting for `m`. */
  function MtxWaiting(k: K, m: nat, patience: Patience): (r: K)
    requires Sized(k) && m < |k.owner|
    ensures Sized(r)
  {
    var c := k.current;
    k.(state := k.state[c := Blocked],
       wakeAt := k.wakeAt[c := if patience.Until? then patience.deadline else 0],
       waitMtx := k.waitMtx[c := Some(m)],
       granted := k.granted[c := false],
       call := k.call[c := InMutex])
  }

  lemma EnlistIs(k: K, m: nat, patience: Patience)
    requires Sized(k) && m < |k.owner| && k.owner[m].Some?
    ensures var k1 := MtxWaiting(k, m, patience);
      var k2 := k1.(q := k1.q[MtxList(k, m) := Insert(k1.q[MtxList(k, m)], k.current, k1.prio)]);
      && Sized(k2) && Enlist(k, m, patience) == AddInheritance(k2, k.owner[m].value, k.prio[k.current])
      && Queued(k, m, patience) == Bump(k2, k.owner[m].value, k.prio[k.current])
  {
    hide AddInheritance, Insert;
  }

  /** The blocked task is still the current one. */
  lemma EnlistStill(k: K, m: nat, patience: Patience)
    requires Inv(k) && m < |k.owner| && k.owner[m].Some? && k.state[k.current] == Running
    ensures var r := Enlist(k, m, patience);
      r.current == k.current && r.resume == k.resume && r.state == k.state[k.current := Blocked] && r.pending.None?
  {
    hide AddInheritance, Insert, Core, Rest;
  }

  /** The same tasks in the same places. */
  lemma SameHomes(k: K, r: K)
    requires Sized(k) && Sized(r) && N(r) == N(k) && r == k.(depth := r.depth)
    ensures Homes(r) == Homes(k)
  {
  }

  lemma UserHoldsNoGrant(k: K)
    requires Inv(k) && InUserCode(k)
    ensures k.grantMtx[k.current].None?
  {
    hide Core, Hart, Owners, HandedOff, Dry, Reasons, Locks, Quotas;
  }

  /** `t` recorded as no longer waiting for a mutex. */
  function MtxEnded(k: K, t: nat): (r: K)
    requires Sized(k) && t < N(k)
    ensures Sized(r) && N(r) == N(k)
  {
    k.(waitMtx := k.waitMtx[t := None], granted := k.granted[t := false], grantMtx := k.grantMtx[t := None], wakeAt := k.wakeAt[t := 0])
  }

  /** The donation a leaving waiter takes back, before the refresh along the owner chain. */
  lemma LeaveStarts(k: K, t: nat) returns (g: seq<nat>)
    requires Inv(k) && t < N(k) && k.waitMtx[t].Some?
    ensures Hop(k, t).Some? && t != IDLE && Below(g, N(k))
    ensures var (o, l) := (Hop(k, t).value, MtxList(k, k.waitMtx[t].value));
      var k0 := k.(q := k.q[l := Without(k.q[l], t)]);
      && Sized(k0) && k.inh[o][k.prio[t]] >= 1
      && Refreshable(Drop(k0, o, k.prio[t]), o, g, Edges(k)[t := None], Homes(k)[t := None])
  {
    hide Placed, WaitSorted, Ledger, Effective, Side, Mid, Homes, Refreshable, Home;
    WaitersAside(k);
    g := ShortChains(Edges(k));
    DequeuedMid(k, t);
    DequeuedRefreshable(k, t, g);
  }

  /** A sleeping or throttled task is in no list. */
  lemma SleeperHome(k: K, t: nat)
    requires Inv(k) && t < N(k) && k.state[t] in {Sleeping, Throttled}
    ensures Homes(k)[t].None?
  {
    hide Placed, WaitSorted, Ledger, Effective, Acyclic, Side;
  }

  lemma RefillSized(k: K, t: nat, now: nat)
    requires Sized(k) && t < N(k) && now <= Budget.U64_MAX
    ensures Sized(k.(budget := k.budget[t := Budget.ReplenishIfDue(k.budget[t], now)]))
  {
    Budget.ValidKept(k.budget[t], Budget.Cooperative, now, false);
  }

  /** The budgets after a switch. */
  function Accounted(k: K, previous: nat, next: nat, now: nat): (r: K)
    requires Sized(k) && previous < N(k) && next < N(k) && now <= Budget.U64_MAX
    ensures Sized(r) && N(r) == N(k)
  {
    Budget.ValidKept(k.budget[previous], Budget.Cooperative, now, false);
    var out := k.budget[previous := Budget.OnSwitchOut(k.budget[previous], now)];
    Budget.ValidKept(out[next], Budget.Cooperative, now, false);
    k.(budget := out[next := Budget.OnDispatch(out[next], now)])
  }

  function Resumed(k: K, next: nat): (r: K)
    requires next < |k.state| == |k.resume|
  {
    k.(state := k.state[next := Running],
       resume := k.resume[next := if k.resume[next] == U32_MAX then 0 else k.resume[next] + 1],
       current := next, slicePending := false)
  }

  lemma AccountedIs(k: K, previous: nat, next: nat, now: nat)
    requires Sized(k) && previous < N(k) && next < N(k) && now <= Budget.U64_MAX
    ensures |k.budget| == N(k) == |k.resume|
    ensures var out := k.budget[previous := Budget.OnSwitchOut(k.budget[previous], now)];
      && (out[next].spec.Some? ==> out[next].spec.value.period > 0)
      && Accounted(k, previous, next, now) == k.(budget := out[next := Budget.OnDispatch(out[next], now)])
    ensures previous == k.current ==> Dispatch(k, next, now) == Resumed(Accounted(k, previous, next, now), next)
  {
    Budget.ValidKept(k.budget[previous], Budget.Cooperative, now, false);
  }

  /** The running task is in no list, and some other task will be popped. */
  lemma RescheduleFacts(k: K, allowEqual: bool, home: seq<Option<nat>>)
    requires Core(k) && MustYield(k, allowEqual) && |home| == N(k) && Placed(k.q, home)
    ensures home[k.current].None? && PopReady(k).1.Some? && PopReady(k).1.value != k.current
  {
    hide WaitSorted, Ledger, Effective, Acyclic, FirstBucket;
    PlacedUnique(k.q, home, Homes(k));
    PoppedIs(k);
  }

  lemma RunningHome(k: K)
    requires Inv(k) && k.state[k.current] == Running
    ensures Homes(k)[k.current].None? && k.pending.None?
  {
    hide Placed, WaitSorted, Ledger, Effective, Acyclic, Rest;
  }

  /** A pending target is in no ready bucket. */
  lemma TargetDetached(k: K)
    requires Core(k) && k.pending.Some? && k.state[k.pending.value.target] == Ready
    ensures !InReady(k, k.pending.value.target)
  {
    hide WaitSorted, Ledger, Effective, Acyclic;
    ReadyIffHome(k, Homes(k), k.pending.value.target);
  }

  /** The popped task stays detached while the yielding one goes back to its bucket. */
  lemma YieldFacts(k: K)
    requires Inv(k) && k.state[k.current] == Running && k.lockDepth[k.current] == 0 && PopReady(k).1.Some?
    ensures var (k1, next) := PopReady(k);
      var r := MakeReady(k1, k.current);
      && next.value != k.current && k1.pending.None? && k1.current == k.current
      && r.state[next.value] == Ready && !InReady(r, next.value) && r.state[k.current] == Ready
      && r.current == k.current && r.pending.None?
  {
    hide Core, Rest, Hart, PopReady, FirstBucket;
    SentBackIs(k);
    NoTicketYet(k);
    HandOverKeeps(k, k.slicePending);
    var (k1, next) := PopReady(k);
    TargetDetached(Commit(MakeReady(k1, k.current).(slicePending := k.slicePending), next.value));
  }

  lemma NoTicketYet(k: K)
    requires Inv(k) && k.state[k.current] == Running
    ensures k.pending.None?
  {
    hide Core, Rest;
  }

  lemma StillRuns(k: K, now: nat)
    requires Sized(k) && now <= Budget.U64_MAX && k.state[k.current] == Running
    ensures var r := WakeSleepers(k, now);
      r.current == k.current && r.state[r.current] == Running && r.lockDepth == k.lockDepth
  {
    hide WakeFirst, ReplenishFirst;
    WakeFirstUntouched(k, N(k), now);
    ReplenishFirstUntouched(WakeFirst(k, N(k), now), N(k), now);
  }

  lemma SleepFacts(k: K, until: nat)
    requires Inv(k) && InUserCode(k) && k.current != IDLE
    ensures k.pending.None? && Core(k.(state := k.state[k.current := Sleeping], wakeAt := k.wakeAt[k.current := until]))
  {
    hide Placed, WaitSorted, Ledger, Effective, Acyclic, Rest;
    ParkedCore(k, k.(state := k.state[k.current := Sleeping], wakeAt := k.wakeAt[k.current := until]), k.current);
  }

  lemma PriorityStarts(k: K, t: nat, p: nat) returns (g: seq<nat>)
    requires Core(k) && t < N(k) && p < LEVELS
    ensures |g| == N(k) && g[t] < N(k) && Below(g, N(k)) && Refreshable(k.(base := k.base[t := p]), t, g, Edges(k), Homes(k))
  {
    hide Placed, WaitSorted, Ledger, Effective, Waiting;
    var k1 := k.(base := k.base[t := p]);
    g := ShortChains(Edges(k));
    assert Homes(k1) == Homes(k);
    assert forall x :: 0 <= x < N(k) && x != t ==> Priced(k, x) ==> Priced(k1, x);
  }

  /** What an unlock finds once one level is given back. */
  lemma UnlockFacts(k: K, now: nat)
    requires Inv(k) && k.state[k.current] == Running && k.lockDepth[k.current] != 0 && now <= Budget.U64_MAX
    ensures k.lockStart[k.current].Some? && k.pending.None?
    ensures var (k1, c) := (Released(k), k.current);
      && k1 == k.(lockDepth := k1.lockDepth, lockStart := k1.lockStart) && k1.lockDepth == k.lockDepth[c := k.lockDepth[c] - 1]
      && (k1.lockDepth[c] == 0 && k.budget[c].lockOverrun ==>
            Core(k1.(budget := k.budget[c := Budget.Throttled(k.budget[c], now)], state := k.state[c := Throttled])))
      && (!(k1.lockDepth[c] == 0 && k.budget[c].lockOverrun) ==> Inv(k1))
  {
    hide Core, Calls, HandedOff, Dry, Reasons, Owners, Quotas, Budget.Throttled;
    var k1, c := Released(k), k.current;
    SameCoreKeeps(k, k1);
    if k1.lockDepth[c] == 0 && k.budget[c].lockOverrun {
      ThrottledCore(k1, now);
    } else {
      ReleasedKeeps(k);
    }
  }

  /** What a running task that must give way finds. */
  lemma GiveWay(k: K, allowEqual: bool)
    requires Inv(k) && MustYield(k, allowEqual)
    ensures var (r, next) := TakeReschedule(k, allowEqual);
      && next.Some? && r.state[next.value] == Ready && !InReady(r, next.value) && r.state[k.current] == Ready
      && r.current == k.current && r.pending.None?
  {
    hide Core, Side, FirstBucket, PopReady, MakeReady, InReady;
    InvCore(k);
    RescheduleFacts(k, allowEqual, Homes(k));
    YieldFacts(k);
  }

  lemma InvCore(k: K)
    requires Inv(k)
    ensures Core(k) && Placed(k.q, Homes(k))
  {
    hide Side, WaitSorted, Ledger, Effective, Acyclic, Placed;
  }

  lemma ThrottledCore(k: K, now: nat)
    requires Core(k) && k.state[k.current] == Running && k.budget[k.current].lockOverrun && now <= Budget.U64_MAX
    ensures Core(k.(budget := k.budget[k.current := Budget.Throttled(k.budget[k.current], now)], state := k.state[k.current := Throttled]))
  {
    hide Placed, WaitSorted, Ledger, Effective, Acyclic, Budget.Throttled;
    Budget.ValidKept(k.budget[k.current], Budget.Cooperative, now, false);
    ParkedCore(k, k.(budget := k.budget[k.current := Budget.Throttled(k.budget[k.current], now)], state := k.state[k.current := Throttled]), k.current);
  }

  lemma NothingToCharge(k: K, now: nat)
    requires Sized(k) && now <= Budget.U64_MAX && k.state[k.current] != Running
    ensures ChargeCurrent(k, now) == k
  {
  }

  // ---- Policy, spawn and exit ------------------------------------------------------------------------

  /** `t` under a new policy, before it is queued again. */
  function Repolicied(k: K, t: nat, p: Budget.Policy, now: nat): (r: K)
    requires Sized(k) && t < N(k) && Budget.ValidPolicy(p) && now <= Budget.U64_MAX
    ensures Sized(r) && N(r) == N(k)
  {
    k.(policy := k.policy[t := p],
       budget := k.budget[t := FreshBudget(p, k.state[t] == Running, now)],
       state := if k.state[t] == Throttled then k.state[t := Ready] else k.state)
  }

  /** Where a task whose policy changes is listed. */
  lemma PolicyFacts(k: K, t: nat)
    requires Inv(k) && t < N(k)
    ensures k.state[t] == Ready ==>
      if InReady(k, t) then Homes(k)[t] == Some(k.prio[t]) else Homes(k)[t].None?
    ensures k.state[t] == Throttled ==> Homes(k)[t].None?
  {
    hide WaitSorted, Ledger, Effective, Acyclic, Side;
    ReadyIffHome(k, Homes(k), t);
  }

  lemma FreeHome(k: K, t: nat)
    requires Inv(k) && t < N(k) && k.state[t] in {Free, Sleeping, Throttled}
    ensures Homes(k)[t].None?
  {
    hide Placed, WaitSorted, Ledger, Effective, Acyclic, Side;
  }

  function WaitsCleared(k: K, c: nat): (r: K)
    requires Sized(k) && c < N(k)
    ensures Sized(r) && N(r) == N(k)
  {
    k.(state := k.state[c := Free], wakeAt := k.wakeAt[c := 0],
       waitSem := k.waitSem[c := None], waitMtx := k.waitMtx[c := None],
       granted := k.granted[c := false], grantSem := k.grantSem[c := None], grantMtx := k.grantMtx[c := None],
       base := k.base[c := LEVELS - 1], prio := k.prio[c := LEVELS - 1])
  }

  function RunCleared(k: K, c: nat): (r: K)
    requires Sized(k) && c < N(k)
    ensures Sized(r) && N(r) == N(k)
  {
    k.(inh := k.inh[c := seq(LEVELS, _ => 0)], lockDepth := k.lockDepth[c := 0], lockStart := k.lockStart[c := None],
       ident := k.ident[c := 0], resume := k.resume[c := 0], policy := k.policy[c := Budget.Cooperative],
       budget := k.budget[c := Budget.Unbudgeted()], call := k.call[c := User])
  }

  lemma ExitFacts(k: K)
    requires Inv(k) && InUserCode(k) && MayExit(k)
    ensures k.pending.None? && Core(Emptied(k)) && Emptied(k) == RunCleared(WaitsCleared(k, k.current), k.current)
  {
    hide Core, Rest;
    EmptiedCore(k);
  }

  /** A policy change in steps: out of the bucket, the new policy, back into the bucket. */
  lemma SetPolicySteps(k: K, t: nat, p: Budget.Policy, now: nat)
    requires Sized(k) && t < N(k) && Budget.ValidPolicy(p) && now <= Budget.U64_MAX
    ensures var queued := k.state[t] == Ready && InReady(k, t);
      var k1 := if queued then k.(q := k.q[k.prio[t] := Without(k.q[k.prio[t]], t)]) else k;
      && Sized(k1)
      && var k2 := Repolicied(k1, t, p, now);
         && k2.prio == k.prio && k2.q == k1.q
         && SetPolicy(k, t, p, now) == if queued || k.state[t] == Throttled then ReadyPush(k2, t) else k2
  {
    hide InReady, FreshBudget;
  }

  /** A post in steps. */
  lemma ReleaseSemIs(k: K, s: nat)
    requires Sized(k) && s < |k.count|
    ensures var l := SemList(k, s);
      if k.q[l] == [] then ReleaseSem(k, s) == k.(count := k.count[s := k.count[s] + 1])
      else
        var k1 := k.(q := k.q[l := k.q[l][1..]]);
        Sized(k1) && ReleaseSem(k, s) == MakeReady(SemEnded(k1, k.q[l][0], true), k.q[l][0])
  {
    hide MakeReady;
  }
}
