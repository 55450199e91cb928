/** Donation ledgers, the wait-for graph, and what a priority refresh along a chain of
    mutex owners keeps. */
module Inheritance {
  import opened Lists
  import opened Kernel

  // ---- Where a task is listed --------------------------------------------------------------

  /** Every list holds exactly the tasks that call it home, each once. */
  ghost predicate Placed(q: seq<seq<nat>>, home: seq<Option<nat>>) {
    && (forall l :: 0 <= l < |q| ==> NoDup(q[l]))
    && (forall l, i :: 0 <= l < |q| && 0 <= i < |q[l]| ==> q[l][i] < |home| && home[q[l][i]] == Some(l))
    && (forall t :: 0 <= t < |home| && home[t].Some? ==> home[t].value < |q| && t in q[home[t].value])
  }

  /** Semaphore and mutex queues are sorted by effective priority. */
  ghost predicate WaitSorted(q: seq<seq<nat>>, prio: seq<nat>) {
    forall l :: LEVELS <= l < |q| ==> Sorted(q[l], prio)
  }

  predicate IsTarget(k: K, t: nat) {
    k.pending.Some? && k.pending.value.target == t
  }

  /** The one list `t` belongs in: its bucket while Ready, the queue it waits in while
      Blocked. The idle task and a switch target belong in none. */
  function Home(k: K, t: nat): Option<nat>
    requires Sized(k) && t < N(k)
  {
    if k.state[t] == Ready then
      if t == IDLE || IsTarget(k, t) then None else Some(k.prio[t])
    else match k.waitSem[t]
      case Some(s) => Some(SemList(k, s))
      case None => match k.waitMtx[t] case Some(m) => Some(MtxList(k, m)) case None => None
  }

  ghost function Homes(k: K): (h: seq<Option<nat>>)
    requires Sized(k)
    ensures |h| == N(k) && forall t :: 0 <= t < N(k) ==> h[t] == Home(k, t)
  {
    seq(N(k), t requires 0 <= t < N(k) => Home(k, t))
  }

  /** Only Blocked tasks wait, and each on one thing. */
  ghost predicate Waiting(state: seq<Status>, waitSem: seq<Option<nat>>, waitMtx: seq<Option<nat>>) {
    && |waitSem| == |state| == |waitMtx|
    && (forall t :: 0 <= t < |state| && waitSem[t].Some? ==> state[t] == Blocked && waitMtx[t].None?)
    && (forall t :: 0 <= t < |state| && waitMtx[t].Some? ==> state[t] == Blocked)
  }

  /** `home` after priorities became `prio`: ready tasks sit in the bucket of their priority. */
  ghost function Rehome(home: seq<Option<nat>>, prio: seq<nat>): (h: seq<Option<nat>>)
    requires |home| == |prio|
    ensures |h| == |home|
    ensures forall t :: 0 <= t < |h| ==>
      h[t] == if home[t].Some? && home[t].value < LEVELS then Some(prio[t]) else home[t]
  {
    seq(|home|, t requires 0 <= t < |home| =>
      if home[t].Some? && home[t].value < LEVELS then Some(prio[t]) else home[t])
  }

  lemma PlacedWithout(q: seq<seq<nat>>, home: seq<Option<nat>>, l: nat, t: nat)
    requires Placed(q, home) && l < |q| && t < |home| && home[t] == Some(l)
    ensures Placed(q[l := Without(q[l], t)], home[t := None])
  {
    WithoutFacts(q[l], t);
    var xs := Without(q[l], t);
    forall i | 0 <= i < |xs| ensures xs[i] < |home| && home[xs[i]] == Some(l) && xs[i] != t {
      assert xs[i] in xs;
      var j :| 0 <= j < |q[l]| && q[l][j] == xs[i];
    }
  }

  lemma PlacedAbsent(q: seq<seq<nat>>, home: seq<Option<nat>>, l: nat, t: nat)
    requires Placed(q, home) && l < |q| && (t < |home| ==> home[t] != Some(l))
    ensures t !in q[l]
  {
  }

  lemma PlacedAppend(q: seq<seq<nat>>, home: seq<Option<nat>>, l: nat, t: nat)
    requires Placed(q, home) && l < |q| && t < |home| && home[t] == None
    ensures Placed(q[l := q[l] + [t]], home[t := Some(l)])
  {
    PlacedAbsent(q, home, l, t);
    var xs := q[l] + [t];
    assert xs[|q[l]|] == t;
    assert forall x :: x in q[l] ==> x in xs;
  }

  lemma PlacedInsert(q: seq<seq<nat>>, home: seq<Option<nat>>, l: nat, t: nat, prio: seq<nat>)
    requires Placed(q, home) && l < |q| && t < |home| && home[t] == None
    requires t < |prio| && Below(q[l], |prio|)
    ensures Placed(q[l := Insert(q[l], t, prio)], home[t := Some(l)])
  {
    PlacedAbsent(q, home, l, t);
    InsertMembers(q[l], t, prio);
    var xs := Insert(q[l], t, prio);
    forall i | 0 <= i < |xs| && xs[i] != t ensures xs[i] < |home| && home[xs[i]] == Some(l) {
      assert xs[i] in xs;
      var j :| 0 <= j < |q[l]| && q[l][j] == xs[i];
    }
  }

  lemma PlacedPop(q: seq<seq<nat>>, home: seq<Option<nat>>, l: nat)
    requires Placed(q, home) && l < |q| && q[l] != []
    ensures q[l][0] < |home| && home[q[l][0]] == Some(l)
    ensures Placed(q[l := q[l][1..]], home[q[l][0] := None])
  {
    var t := q[l][0];
    PlacedWithout(q, home, l, t);
    WithoutAt(q[l], 0);
    assert Without(q[l], t) == q[l][1..];
  }

  lemma SortedFrame(xs: seq<nat>, prio: seq<nat>, prio': seq<nat>)
    requires Sorted(xs, prio) && |prio'| == |prio|
    requires forall x :: x in xs ==> x < |prio| && prio'[x] == prio[x]
    ensures Sorted(xs, prio')
  {
    forall i, j | 0 <= i < j < |xs| ensures prio'[xs[i]] <= prio'[xs[j]] {
      assert xs[i] in xs && xs[j] in xs;
    }
  }

  /** A task that changes priority while it is in no wait queue leaves them all sorted. */
  lemma WaitSortedFrame(q: seq<seq<nat>>, prio: seq<nat>, t: nat, p: nat)
    requires WaitSorted(q, prio) && t < |prio|
    requires forall l :: LEVELS <= l < |q| ==> t !in q[l]
    ensures WaitSorted(q, prio[t := p])
  {
    forall l | LEVELS <= l < |q| ensures Sorted(q[l], prio[t := p]) {
      assert forall x :: x in q[l] ==> x < |prio|;
      SortedFrame(q[l], prio, prio[t := p]);
    }
  }

  // ---- Changing one effective priority -----------------------------------------------------

  /** `set_effective_priority`, followed for a mutex waiter by the re-sort of its queue. */
  function Reseat(k: K, t: nat, p: nat): (r: K)
    requires Sized(k) && t < N(k) && p < LEVELS
    ensures Sized(r) && Repriced(k, r)
  {
    var k1 := SetEffective(k, t, p);
    if k.waitMtx[t].Some? then Resort(k1, k.waitMtx[t].value, t) else k1
  }

  lemma ReinsertKeeps(q: seq<seq<nat>>, home: seq<Option<nat>>, l: nat, t: nat, prio: seq<nat>, p: nat)
    requires Placed(q, home) && |home| == |prio| && t < |home| && home[t] == Some(l)
    requires LEVELS <= l < |q| && AllBelow(q, |prio|) && WaitSorted(q, prio)
    ensures var q' := q[l := Insert(Without(q[l], t), t, prio[t := p])];
      Placed(q', home) && WaitSorted(q', prio[t := p])
  {
    var prio' := prio[t := p];
    var q1 := q[l := Without(q[l], t)];
    PlacedWithout(q, home, l, t);
    WithoutSorted(q[l], t, prio);
    forall i | LEVELS <= i < |q1| ensures t !in q1[i] {
      PlacedAbsent(q1, home[t := None], i, t);
    }
    WaitSortedFrame(q1, prio, t, p);
    PlacedInsert(q1, home[t := None], l, t, prio');
    InsertSorted(q1[l], t, prio');
    assert q1[l := Insert(q1[l], t, prio')] == q[l := Insert(Without(q[l], t), t, prio')];
    assert home[t := None][t := Some(l)] == home;
  }

  lemma RebucketKeeps(q: seq<seq<nat>>, home: seq<Option<nat>>, t: nat, prio: seq<nat>, p: nat)
    requires Placed(q, home) && |home| == |prio| && t < |home| && home[t] == Some(prio[t])
    requires prio[t] < LEVELS && p < LEVELS <= |q| && prio[t] != p && WaitSorted(q, prio)
    ensures var q1 := q[prio[t] := Without(q[prio[t]], t)];
      var q' := q1[p := q1[p] + [t]];
      Placed(q', home[t := Some(p)]) && WaitSorted(q', prio[t := p])
  {
    var q1 := q[prio[t] := Without(q[prio[t]], t)];
    PlacedWithout(q, home, prio[t], t);
    PlacedAppend(q1, home[t := None], p, t);
    assert home[t := None][t := Some(p)] == home[t := Some(p)];
    LooseKeeps(q, home, t, prio, p);
  }

  lemma LooseKeeps(q: seq<seq<nat>>, home: seq<Option<nat>>, t: nat, prio: seq<nat>, p: nat)
    requires Placed(q, home) && |home| == |prio| && t < |home| && WaitSorted(q, prio)
    requires home[t].Some? ==> home[t].value < LEVELS
    ensures WaitSorted(q, prio[t := p])
  {
    forall l | LEVELS <= l < |q| ensures t !in q[l] {
      PlacedAbsent(q, home, l, t);
    }
    WaitSortedFrame(q, prio, t, p);
  }

  lemma ReadyIffHome(k: K, home: seq<Option<nat>>, t: nat)
    requires Sized(k) && t < N(k) && |home| == N(k) && Placed(k.q, home)
    ensures InReady(k, t) <==> home[t].Some? && home[t].value < LEVELS
  {
    if home[t].Some? && home[t].value < LEVELS {
      assert t in k.q[home[t].value];
    }
  }

  /** What a change of priority does to the lists, by the one list the task is in. */
  lemma ReseatIs(k: K, t: nat, p: nat)
    requires Sized(k) && t < N(k) && p < LEVELS && k.prio[t] != p && Waiting(k.state, k.waitSem, k.waitMtx)
    ensures var r := Reseat(k, t, p);
      && r.prio == k.prio[t := p] && r.inh == k.inh
      && r.q ==
        if k.state[t] == Ready && InReady(k, t) then
          var q1 := k.q[k.prio[t] := Without(k.q[k.prio[t]], t)]; q1[p := q1[p] + [t]]
        else if k.waitSem[t].Some? then
          var l := SemList(k, k.waitSem[t].value); k.q[l := Insert(Without(k.q[l], t), t, k.prio[t := p])]
        else if k.waitMtx[t].Some? then
          var l := MtxList(k, k.waitMtx[t].value); k.q[l := Insert(Without(k.q[l], t), t, k.prio[t := p])]
        else k.q
  {
  }

  /** One task changes priority: every list still holds its own tasks, and every wait queue
      is still sorted. */
  lemma ReseatKeeps(k: K, t: nat, p: nat, home: seq<Option<nat>>)
    requires Sized(k) && t < N(k) && p < LEVELS && k.prio[t] != p
    requires |home| == N(k) && Placed(k.q, home) && WaitSorted(k.q, k.prio)
    requires home[t] == Home(k, t) && Waiting(k.state, k.waitSem, k.waitMtx)
    ensures var r := Reseat(k, t, p);
      && r.prio == k.prio[t := p] && r.inh == k.inh
      && Placed(r.q, if k.state[t] == Ready && home[t].Some? then home[t := Some(p)] else home)
      && WaitSorted(r.q, r.prio)
  {
    ReseatIs(k, t, p);
    ReadyIffHome(k, home, t);
    if k.state[t] == Ready && home[t].Some? {
      RebucketKeeps(k.q, home, t, k.prio, p);
    } else if k.waitSem[t].Some? {
      ReinsertKeeps(k.q, home, SemList(k, k.waitSem[t].value), t, k.prio, p);
    } else if k.waitMtx[t].Some? {
      ReinsertKeeps(k.q, home, MtxList(k, k.waitMtx[t].value), t, k.prio, p);
    } else {
      LooseKeeps(k.q, home, t, k.prio, p);
    }
  }

  // ---- The donation ledger -------------------------------------------------------------------

  /** Who donates to whom: the owner of the mutex each task waits for. */
  ghost function EdgesOf(waitMtx: seq<Option<nat>>, owner: seq<Option<nat>>): (e: seq<Option<nat>>)
    requires InRange(waitMtx, |owner|)
    ensures |e| == |waitMtx|
    ensures forall t :: 0 <= t < |e| ==> e[t] == if waitMtx[t].None? then None else owner[waitMtx[t].value]
  {
    seq(|waitMtx|, t requires 0 <= t < |waitMtx| => if waitMtx[t].None? then None else owner[waitMtx[t].value])
  }

  ghost function Edges(k: K): (e: seq<Option<nat>>)
    requires Sized(k)
    ensures |e| == N(k)
  {
    EdgesOf(k.waitMtx, k.owner)
  }

  ghost function Donors(don: seq<Option<nat>>, prio: seq<nat>, o: nat, p: nat): set<nat> {
    set w | 0 <= w < |don| && w < |prio| && don[w] == Some(o) && prio[w] == p
  }

  /** Each count of `inherited_waiters` is the number of donors at that level. */
  ghost predicate Ledger(inh: seq<seq<nat>>, prio: seq<nat>, don: seq<Option<nat>>) {
    && |inh| == |prio| == |don|
    && forall o, p :: 0 <= o < |inh| && 0 <= p < |inh[o]| ==> inh[o][p] == |Donors(don, prio, o, p)|
  }

  ghost predicate Priced(k: K, t: nat)
    requires Sized(k) && t < N(k)
  {
    k.prio[t] == Effective(k.base[t], k.inh[t])
  }

  lemma DonorsArrive(don: seq<Option<nat>>, prio: seq<nat>, w: nat, p: nat, o: nat)
    requires |don| == |prio| && w < |prio| && prio[w] != p && don[w] == Some(o)
    ensures |Donors(don, prio[w := p], o, p)| == |Donors(don, prio, o, p)| + 1
  {
    assert Donors(don, prio[w := p], o, p) == Donors(don, prio, o, p) + {w};
  }

  lemma DonorsLeave(don: seq<Option<nat>>, prio: seq<nat>, w: nat, p: nat, o: nat)
    requires |don| == |prio| && w < |prio| && prio[w] != p && don[w] == Some(o)
    ensures |Donors(don, prio[w := p], o, prio[w])| == |Donors(don, prio, o, prio[w])| - 1
  {
    assert w in Donors(don, prio, o, prio[w]);
    assert Donors(don, prio[w := p], o, prio[w]) == Donors(don, prio, o, prio[w]) - {w};
  }

  lemma DonorsMoved(don: seq<Option<nat>>, prio: seq<nat>, w: nat, p: nat, o: nat, l: nat)
    requires |don| == |prio| && w < |prio| && prio[w] != p
    ensures |Donors(don, prio[w := p], o, l)| ==
      |Donors(don, prio, o, l)| + (if don[w] == Some(o) && l == p then 1 else 0)
                                - (if don[w] == Some(o) && l == prio[w] then 1 else 0)
  {
    if don[w] == Some(o) && l == p {
      DonorsArrive(don, prio, w, p, o);
    } else if don[w] == Some(o) && l == prio[w] {
      DonorsLeave(don, prio, w, p, o);
    } else {
      assert Donors(don, prio[w := p], o, l) == Donors(don, prio, o, l);
    }
  }

  /** A donor that changes level moves one unit between two counts of its beneficiary. */
  lemma LedgerMoved(inh: seq<seq<nat>>, prio: seq<nat>, don: seq<Option<nat>>, w: nat, p: nat)
    requires Ledger(inh, prio, don) && Wide(inh, LEVELS) && w < |prio|
    requires p < LEVELS && prio[w] < LEVELS && prio[w] != p
    ensures don[w].None? ==> Ledger(inh, prio[w := p], don)
    ensures don[w].Some? && don[w].value < |inh| ==>
      var o := don[w].value;
      inh[o][prio[w]] >= 1 &&
      Ledger(inh[o := inh[o][prio[w] := inh[o][prio[w]] - 1][p := inh[o][p] + 1]], prio[w := p], don)
  {
    if don[w].Some? && don[w].value < |inh| {
      var o := don[w].value;
      assert w in Donors(don, prio, o, prio[w]);
      assert |Donors(don, prio, o, prio[w])| >= 1;
      var inh' := inh[o := inh[o][prio[w] := inh[o][prio[w]] - 1][p := inh[o][p] + 1]];
      forall x, l | 0 <= x < |inh'| && 0 <= l < |inh'[x]| ensures inh'[x][l] == |Donors(don, prio[w := p], x, l)| {
        DonorsMoved(don, prio, w, p, x, l);
      }
    } else if don[w].None? {
      forall x, l | 0 <= x < |inh| && 0 <= l < |inh[x]| ensures inh[x][l] == |Donors(don, prio[w := p], x, l)| {
        DonorsMoved(don, prio, w, p, x, l);
      }
    }
  }

  lemma LedgerGains(inh: seq<seq<nat>>, prio: seq<nat>, don: seq<Option<nat>>, w: nat, o: nat)
    requires Ledger(inh, prio, don) && Wide(inh, LEVELS) && w < |prio| && o < |inh| && prio[w] < LEVELS && don[w].None?
    ensures Ledger(inh[o := inh[o][prio[w] := inh[o][prio[w]] + 1]], prio, don[w := Some(o)])
  {
    var don' := don[w := Some(o)];
    forall x, l | 0 <= x < |inh| && 0 <= l < LEVELS
      ensures |Donors(don', prio, x, l)| == |Donors(don, prio, x, l)| + (if x == o && l == prio[w] then 1 else 0)
    {
      if x == o && l == prio[w] {
        assert Donors(don', prio, x, l) == Donors(don, prio, x, l) + {w};
      } else {
        assert Donors(don', prio, x, l) == Donors(don, prio, x, l);
      }
    }
  }

  lemma LedgerLoses(inh: seq<seq<nat>>, prio: seq<nat>, don: seq<Option<nat>>, w: nat, o: nat)
    requires Ledger(inh, prio, don) && Wide(inh, LEVELS) && w < |prio| && o < |inh| && prio[w] < LEVELS && don[w] == Some(o)
    ensures inh[o][prio[w]] >= 1
    ensures Ledger(inh[o := inh[o][prio[w] := inh[o][prio[w]] - 1]], prio, don[w := None])
  {
    var don' := don[w := None];
    assert w in Donors(don, prio, o, prio[w]);
    forall x, l | 0 <= x < |inh| && 0 <= l < LEVELS
      ensures |Donors(don', prio, x, l)| == |Donors(don, prio, x, l)| - (if x == o && l == prio[w] then 1 else 0)
    {
      if x == o && l == prio[w] {
        assert Donors(don', prio, x, l) == Donors(don, prio, x, l) - {w};
      } else {
        assert Donors(don', prio, x, l) == Donors(don, prio, x, l);
      }
    }
  }

  // ---- The wait-for graph ----------------------------------------------------------------------

  /** `f` falls along every edge, so no walk along edges can return. */
  ghost predicate Falls(edges: seq<Option<nat>>, f: seq<nat>) {
    && |f| == |edges| && InRange(edges, |edges|)
    && forall t :: 0 <= t < |edges| && edges[t].Some? ==> f[edges[t].value] < f[t]
  }

  ghost predicate Acyclic(edges: seq<Option<nat>>) {
    exists f :: Falls(edges, f)
  }

  /** What holds in the middle of an operation, relative to the donations `don` still counted
      and the lists `home` the tasks are still in. */
  ghost predicate Mid(k: K, don: seq<Option<nat>>, home: seq<Option<nat>>) {
    && Sized(k) && |home| == N(k) && |don| == N(k)
    && Placed(k.q, home) && WaitSorted(k.q, k.prio) && home == Rehome(home, k.prio)
    && Ledger(k.inh, k.prio, don)
    && Waiting(k.state, k.waitSem, k.waitMtx)
  }

  /** Everyone at or below `t` on `f` donates and is listed as the stable rules say. */
  ghost predicate Settled(k: K, f: seq<nat>, t: nat, don: seq<Option<nat>>, home: seq<Option<nat>>)
    requires Sized(k) && |f| == N(k) && t < N(k) && |don| == N(k) && |home| == N(k)
  {
    forall x :: 0 <= x < N(k) && f[x] <= f[t] ==> don[x] == Hop(k, x) && home[x] == Home(k, x)
  }

  /** `t` reseated and its donation moved to the new level in its owner's counts. */
  function Rebooked(k: K, t: nat): (r: K)
    requires Sized(k) && t < N(k) && Hop(k, t).Some?
    ensures Sized(r) && Repriced(k, r)
  {
    var o, want := Hop(k, t).value, Effective(k.base[t], k.inh[t]);
    Bump(Drop(Reseat(k, t, want), o, k.prio[t]), o, want)
  }

  lemma RefreshUnfolds(k: K, t: nat, fuel: nat)
    requires Sized(k) && t < N(k) && fuel > 0
    ensures Priced(k, t) ==> Refresh(k, t, fuel) == k
    ensures !Priced(k, t) && Hop(k, t).None? ==>
      Refresh(k, t, fuel) == Reseat(k, t, Effective(k.base[t], k.inh[t]))
    ensures !Priced(k, t) && Hop(k, t).Some? ==>
      Refresh(k, t, fuel) == Refresh(Rebooked(k, t), Hop(k, t).value, fuel - 1)
  {
  }

  lemma RebookedIs(k: K, t: nat)
    requires Sized(k) && t < N(k) && Hop(k, t).Some? && !Priced(k, t) && Waiting(k.state, k.waitSem, k.waitMtx)
    ensures var (o, was, want) := (Hop(k, t).value, k.prio[t], Effective(k.base[t], k.inh[t]));
      var r := Rebooked(k, t);
      && r.q == Reseat(k, t, want).q
      && r.prio == k.prio[t := want]
      && (k.inh[o][was] >= 1 ==> r.inh == k.inh[o := k.inh[o][was := k.inh[o][was] - 1][want := k.inh[o][want] + 1]])
  {
    hide Effective, Lowest, Reseat;
    ReseatIs(k, t, Effective(k.base[t], k.inh[t]));
  }

  /** The ledger after one hop: balanced, or balanced again once the owner's counts follow. */
  lemma HopLedger(k: K, t: nat, don: seq<Option<nat>>)
    requires Sized(k) && t < N(k) && |don| == N(k) && Ledger(k.inh, k.prio, don)
    requires !Priced(k, t) && Waiting(k.state, k.waitSem, k.waitMtx) && don[t] == Hop(k, t)
    ensures Hop(k, t).None? ==> var r := Reseat(k, t, Effective(k.base[t], k.inh[t])); Ledger(r.inh, r.prio, don)
    ensures Hop(k, t).Some? ==> var r := Rebooked(k, t); Ledger(r.inh, r.prio, don)
    ensures Hop(k, t).Some? ==> k.inh[Hop(k, t).value][k.prio[t]] >= 1
  {
    hide Effective, Lowest, Ledger, Rebooked, Reseat;
    var want := Effective(k.base[t], k.inh[t]);
    LedgerMoved(k.inh, k.prio, don, t, want);
    ReseatIs(k, t, want);
    if Hop(k, t).Some? {
      RebookedIs(k, t);
    }
  }

  lemma HopHome(k: K, t: nat, home: seq<Option<nat>>, r: K)
    requires Sized(k) && t < N(k) && |home| == N(k) && |r.prio| == N(k)
    requires home[t] == Home(k, t) && home == Rehome(home, k.prio)
    requires r.prio == k.prio[t := r.prio[t]] && Waiting(k.state, k.waitSem, k.waitMtx)
    ensures Rehome(home, r.prio) == if k.state[t] == Ready && home[t].Some? then home[t := Some(r.prio[t])] else home
    ensures Rehome(Rehome(home, r.prio), r.prio) == Rehome(home, r.prio)
  {
  }

  /** The settled part of the world stays settled while the refresh moves to the owner. */
  lemma HopSettled(k: K, t: nat, f: seq<nat>, don: seq<Option<nat>>, home: seq<Option<nat>>)
    requires Sized(k) && t < N(k) && |f| == N(k) && |don| == N(k) && |home| == N(k)
    requires Settled(k, f, t, don, home) && home == Rehome(home, k.prio)
    requires Hop(k, t).Some? && Hop(k, t).value < N(k) && f[Hop(k, t).value] < f[t] && !Priced(k, t) && Waiting(k.state, k.waitSem, k.waitMtx)
    ensures var r := Rebooked(k, t);
      Settled(r, f, Hop(k, t).value, don, Rehome(home, r.prio))
  {
    hide Effective, Lowest, Rebooked, Reseat;
    RebookedIs(k, t);
    var r, o := Rebooked(k, t), Hop(k, t).value;
    forall x | 0 <= x < N(k) && f[x] <= f[o]
      ensures don[x] == Hop(r, x) && Rehome(home, r.prio)[x] == Home(r, x)
    {
      assert x != t;
      assert Home(r, x) == Home(k, x) == home[x];
    }
  }

  lemma HopPriced(k: K, t: nat, x: nat)
    requires Sized(k) && t < N(k) && x < N(k) && Hop(k, t).Some? && Hop(k, t).value != t && !Priced(k, t) && Waiting(k.state, k.waitSem, k.waitMtx)
    requires k.inh[Hop(k, t).value][k.prio[t]] >= 1
    requires x != Hop(k, t).value && (x != t ==> Priced(k, x))
    ensures Priced(Rebooked(k, t), x)
  {
    hide Lowest, Rebooked, Reseat;
    RebookedIs(k, t);
  }

  lemma LeafPriced(k: K, t: nat, x: nat)
    requires Sized(k) && t < N(k) && x < N(k) && !Priced(k, t) && Waiting(k.state, k.waitSem, k.waitMtx)
    requires x != t ==> Priced(k, x)
    ensures Priced(Reseat(k, t, Effective(k.base[t], k.inh[t])), x)
  {
    hide Lowest, Reseat;
    ReseatIs(k, t, Effective(k.base[t], k.inh[t]));
  }

  /** One hop of a refresh, after which only the next owner may be wrongly priced. */
  lemma HopKeeps(k: K, t: nat, don: seq<Option<nat>>, home: seq<Option<nat>>)
    requires Mid(k, don, home) && t < N(k) && don[t] == Hop(k, t) && home[t] == Home(k, t) && !Priced(k, t)
    ensures Hop(k, t).None? ==>
      var r := Reseat(k, t, Effective(k.base[t], k.inh[t])); Mid(r, don, Rehome(home, r.prio))
    ensures Hop(k, t).Some? ==>
      var r := Rebooked(k, t); Mid(r, don, Rehome(home, r.prio))
  {
    hide Effective, Lowest, Placed, WaitSorted, Ledger, Rebooked, Reseat;
    var want := Effective(k.base[t], k.inh[t]);
    ReseatKeeps(k, t, want, home);
    HopLedger(k, t, don);
    if Hop(k, t).Some? {
      RebookedIs(k, t);
      HopHome(k, t, home, Rebooked(k, t));
    } else {
      HopHome(k, t, home, Reseat(k, t, want));
    }
  }

  /** Only `t` may be wrongly priced, and the chain from `t` is settled. */
  ghost predicate Refreshable(k: K, t: nat, f: seq<nat>, don: seq<Option<nat>>, home: seq<Option<nat>>) {
    && Mid(k, don, home) && t < N(k)
    && Falls(Edges(k), f) && Settled(k, f, t, don, home)
    && forall x :: 0 <= x < N(k) && x != t ==> Priced(k, x)
  }

  /** Everyone is rightly priced; nobody above `t` on `f` was touched. */
  ghost predicate Refreshed(k: K, r: K, t: nat, f: seq<nat>, don: seq<Option<nat>>, home: seq<Option<nat>>) {
    && Sized(k) && t < N(k) && |f| == N(k) && |home| == N(k) && N(r) == N(k)
    && |r.prio| == N(k) && Mid(r, don, Rehome(home, r.prio))
    && (forall x :: 0 <= x < N(r) ==> Priced(r, x))
    && (forall x :: 0 <= x < N(r) && f[x] > f[t] ==> r.prio[x] == k.prio[x])
  }

  lemma HopRefreshable(k: K, t: nat, f: seq<nat>, don: seq<Option<nat>>, home: seq<Option<nat>>)
    requires Refreshable(k, t, f, don, home) && Hop(k, t).Some? && !Priced(k, t)
    ensures f[Hop(k, t).value] < f[t]
    ensures Refreshable(Rebooked(k, t), Hop(k, t).value, f, don, Rehome(home, Rebooked(k, t).prio))
  {
    hide Effective, Lowest, Placed, WaitSorted, Ledger, Rebooked, Reseat;
    var o, r := Hop(k, t).value, Rebooked(k, t);
    assert Edges(k)[t] == Some(o);
    HopKeeps(k, t, don, home);
    HopSettled(k, t, f, don, home);
    HopLedger(k, t, don);
    forall x | 0 <= x < N(k) && x != o ensures Priced(r, x) {
      HopPriced(k, t, x);
    }
  }

  lemma LeafRefreshed(k: K, t: nat, f: seq<nat>, don: seq<Option<nat>>, home: seq<Option<nat>>)
    requires Refreshable(k, t, f, don, home) && Hop(k, t).None? && !Priced(k, t)
    ensures Refreshed(k, Reseat(k, t, Effective(k.base[t], k.inh[t])), t, f, don, home)
  {
    hide Effective, Lowest, Placed, WaitSorted, Ledger, Reseat;
    HopKeeps(k, t, don, home);
    ReseatIs(k, t, Effective(k.base[t], k.inh[t]));
    forall x | 0 <= x < N(k) ensures Priced(Reseat(k, t, Effective(k.base[t], k.inh[t])), x) {
      LeafPriced(k, t, x);
    }
  }

  lemma HopRefreshed(k: K, r: K, t: nat, f: seq<nat>, don: seq<Option<nat>>, home: seq<Option<nat>>)
    requires Refreshable(k, t, f, don, home) && Hop(k, t).Some? && !Priced(k, t) && f[Hop(k, t).value] < f[t]
    requires Refreshed(Rebooked(k, t), r, Hop(k, t).value, f, don, Rehome(home, Rebooked(k, t).prio))
    ensures Refreshed(k, r, t, f, don, home)
  {
    hide Effective, Lowest, Placed, WaitSorted, Ledger, Rebooked, Reseat, Settled;
    RebookedIs(k, t);
    assert Rehome(Rehome(home, Rebooked(k, t).prio), r.prio) == Rehome(home, r.prio);
  }

  /** A refresh of `t`, when only `t` may be wrongly priced, prices every task right and keeps
      the ledger, the placement and the order of every queue, along a chain of any length. */
  lemma {:induction false} RefreshKeeps(k: K, t: nat, fuel: nat, f: seq<nat>, don: seq<Option<nat>>, home: seq<Option<nat>>)
    requires Refreshable(k, t, f, don, home) && f[t] < fuel
    ensures Refreshed(k, Refresh(k, t, fuel), t, f, don, home)
    decreases fuel
  {
    hide Effective, Lowest, Placed, WaitSorted, Ledger, Settled, Refreshed, Rebooked, Reseat, Refresh;
    RefreshUnfolds(k, t, fuel);
    if Priced(k, t) {
      PricedRefreshed(k, t, f, don, home);
    } else if Hop(k, t).Some? {
      HopRefreshable(k, t, f, don, home);
      RefreshKeeps(Rebooked(k, t), Hop(k, t).value, fuel - 1, f, don, Rehome(home, Rebooked(k, t).prio));
      HopRefreshed(k, Refresh(k, t, fuel), t, f, don, home);
    } else {
      LeafRefreshed(k, t, f, don, home);
    }
  }

  lemma PricedRefreshed(k: K, t: nat, f: seq<nat>, don: seq<Option<nat>>, home: seq<Option<nat>>)
    requires Refreshable(k, t, f, don, home) && Priced(k, t)
    ensures Refreshed(k, k, t, f, don, home)
  {
    hide Effective, Lowest, Placed, WaitSorted, Ledger, Settled;
    assert Rehome(home, k.prio) == home;
  }
}
