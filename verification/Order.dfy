/** First come, first served: what a step of the kernel does to the order of every ready bucket and
    wait queue. */
module Order {
  import opened Lists
  import Budget
  import opened Kernel
  import opened Inheritance
  import opened Chains
  import opened Invariant
  import opened Steps
  import opened MutexSteps

  // ---- Order in one list ------------------------------------------------------------------------------

  ghost predicate Precedes(xs: seq<nat>, x: nat, y: nat) {
    exists i, j :: 0 <= i < j < |xs| && xs[i] == x && xs[j] == y
  }

  /** From `xs` to `ys` the tasks outside `moved` stay in and keep their order, and each of them comes
      before every moved one that is no more urgent. */
  ghost predicate ListOrder(xs: seq<nat>, ys: seq<nat>, moved: set<nat>, prio: seq<nat>) {
    && (forall x :: x !in moved ==> (x in xs <==> x in ys))
    && (forall x, y :: x !in moved && y !in moved && Precedes(xs, x, y) ==> Precedes(ys, x, y))
    && (forall x, y :: x !in moved && y in moved && x in ys && y in ys && x < |prio| && y < |prio| && prio[x] <= prio[y] ==>
          Precedes(ys, x, y))
  }

  lemma SameList(xs: seq<nat>, moved: set<nat>, prio: seq<nat>)
    requires forall x :: x in moved ==> x !in xs
    ensures ListOrder(xs, xs, moved, prio)
  {
  }

  /** A task appended comes last. */
  lemma AppendOrder(xs: seq<nat>, t: nat, prio: seq<nat>)
    requires t !in xs
    ensures ListOrder(xs, xs + [t], {t}, prio)
  {
    var ys := xs + [t];
    assert ys[|xs|] == t;
    assert forall i :: 0 <= i < |xs| ==> ys[i] == xs[i];
    forall x | x !in {t} ensures x in xs <==> x in ys {
      if x in xs {
        var i :| 0 <= i < |xs| && xs[i] == x;
        assert ys[i] == x;
      }
    }
    forall x, y | x != t && y != t && Precedes(xs, x, y) ensures Precedes(ys, x, y) {
      var i, j :| 0 <= i < j < |xs| && xs[i] == x && xs[j] == y;
      assert ys[i] == x && ys[j] == y;
    }
    forall x | x != t && x in ys ensures Precedes(ys, x, t) {
      var i :| 0 <= i < |ys| && ys[i] == x;
      assert ys[i] == x && ys[|xs|] == t;
    }
  }

  /** Taking a task out leaves the others in order. */
  lemma CutOrder(xs: seq<nat>, t: nat, prio: seq<nat>)
    requires NoDup(xs)
    ensures ListOrder(xs, Without(xs, t), {t}, prio)
  {
    var ys := Without(xs, t);
    WithoutFacts(xs, t);
    if t in xs {
      var c :| 0 <= c < |xs| && xs[c] == t;
      WithoutAt(xs, c);
      forall x, y | x != t && y != t && Precedes(xs, x, y) ensures Precedes(ys, x, y) {
        var i, j :| 0 <= i < j < |xs| && xs[i] == x && xs[j] == y;
        assert ys[if i < c then i else i - 1] == x && ys[if j < c then j else j - 1] == y;
      }
    } else {
      WithoutAbsent(xs, t);
    }
  }

  lemma SpliceOrder(xs: seq<nat>, t: nat, c: nat, prio: seq<nat>)
    requires c <= |xs| && t !in xs && t < |prio| && Below(xs, |prio|)
    requires forall i :: c <= i < |xs| ==> prio[t] < prio[xs[i]]
    ensures ListOrder(xs, xs[..c] + [t] + xs[c..], {t}, prio)
  {
    var ys := xs[..c] + [t] + xs[c..];
    assert ys[c] == t;
    assert forall i :: 0 <= i < c ==> ys[i] == xs[i];
    assert forall i :: c <= i < |xs| ==> ys[i + 1] == xs[i];
    forall x, y | x != t && y != t && Precedes(xs, x, y) ensures Precedes(ys, x, y) {
      var i, j :| 0 <= i < j < |xs| && xs[i] == x && xs[j] == y;
      assert ys[if i < c then i else i + 1] == x && ys[if j < c then j else j + 1] == y;
    }
    forall x | x != t && x in xs ensures x in ys {
      var i :| 0 <= i < |xs| && xs[i] == x;
      assert ys[if i < c then i else i + 1] == x;
    }
    forall x | x != t && x in ys && x < |prio| && prio[x] <= prio[t] ensures Precedes(ys, x, t) {
      var i :| 0 <= i < |ys| && ys[i] == x;
      assert i < c;
      assert ys[i] == x && ys[c] == t;
    }
  }

  /** A task inserted by urgency comes behind every one at least as urgent. */
  lemma InsertOrder(xs: seq<nat>, t: nat, prio: seq<nat>)
    requires t !in xs && t < |prio| && Sorted(xs, prio)
    ensures ListOrder(xs, Insert(xs, t, prio), {t}, prio)
  {
    hide ListOrder, Insert;
    InsertSplits(xs, t, prio);
    var c := InsertAt(xs, t, prio);
    forall i | c <= i < |xs| ensures prio[t] < prio[xs[i]] {
      assert prio[xs[c]] <= prio[xs[i]];
    }
    SpliceOrder(xs, t, c, prio);
  }

  lemma ChainOrder(xs: seq<nat>, ys: seq<nat>, zs: seq<nat>, m1: set<nat>, m2: set<nat>, prio: seq<nat>, prio': seq<nat>)
    requires ListOrder(xs, ys, m1, prio) && ListOrder(ys, zs, m2, prio') && |prio'| == |prio|
    requires forall x :: 0 <= x < |prio| && x !in m2 ==> prio'[x] == prio[x]
    ensures ListOrder(xs, zs, m1 + m2, prio')
  {
    hide Precedes;
  }

  /** Which tasks that are in neither list count as moved does not matter. */
  lemma RenameOrder(xs: seq<nat>, ys: seq<nat>, moved: set<nat>, moved': set<nat>, prio: seq<nat>)
    requires ListOrder(xs, ys, moved, prio) && forall x :: x in xs || x in ys ==> (x in moved <==> x in moved')
    ensures ListOrder(xs, ys, moved', prio)
  {
    forall x, y | x !in moved' && y !in moved' && Precedes(xs, x, y) ensures Precedes(ys, x, y) {
      assert x in xs && y in xs;
    }
  }

  // ---- Order in all lists ----------------------------------------------------------------------------

  /** The same in every ready bucket and wait queue; only moved tasks change priority. */
  ghost predicate InOrder(k: K, r: K, moved: set<nat>) {
    && Sized(k) && Sized(r) && N(r) == N(k) && |r.q| == |k.q|
    && (forall l :: 0 <= l < |k.q| ==> ListOrder(k.q[l], r.q[l], moved, r.prio))
    && (forall x :: 0 <= x < N(k) && x !in moved ==> r.prio[x] == k.prio[x])
  }

  lemma OrderChain(k: K, k1: K, r: K, m1: set<nat>, m2: set<nat>)
    requires InOrder(k, k1, m1) && InOrder(k1, r, m2)
    ensures InOrder(k, r, m1 + m2)
  {
    hide ListOrder;
    forall l | 0 <= l < |k.q| ensures ListOrder(k.q[l], r.q[l], m1 + m2, r.prio) {
      ChainOrder(k.q[l], k1.q[l], r.q[l], m1, m2, k1.prio, r.prio);
    }
  }

  ghost predicate Listed(k: K, x: nat) {
    exists l :: 0 <= l < |k.q| && x in k.q[l]
  }

  lemma OrderRename(k: K, r: K, moved: set<nat>, moved': set<nat>)
    requires InOrder(k, r, moved)
    requires forall x :: 0 <= x < N(k) && (Listed(k, x) || Listed(r, x)) ==> (x in moved <==> x in moved')
    requires forall x :: 0 <= x < N(k) && x !in moved' ==> r.prio[x] == k.prio[x]
    ensures InOrder(k, r, moved')
  {
    hide ListOrder;
    forall l | 0 <= l < |k.q| ensures ListOrder(k.q[l], r.q[l], moved', r.prio) {
      forall x | x in k.q[l] || x in r.q[l] ensures x in moved <==> x in moved' {
        assert Listed(k, x) || Listed(r, x);
      }
      RenameOrder(k.q[l], r.q[l], moved, moved', r.prio);
    }
  }

  lemma SameOrder(k: K, r: K)
    requires Sized(k) && Sized(r) && N(r) == N(k) && r.q == k.q && r.prio == k.prio
    ensures InOrder(k, r, {})
  {
    hide ListOrder;
    forall l | 0 <= l < |k.q| ensures ListOrder(k.q[l], r.q[l], {}, r.prio) {
      SameList(k.q[l], {}, r.prio);
    }
  }

  /** `t` leaves its list for the end of a bucket, or by urgency for a place in a wait queue. */
  lemma MoveOrder(k: K, r: K, t: nat, to: Option<nat>)
    requires Sized(k) && Sized(r) && N(r) == N(k) && |r.q| == |k.q| && t < N(k)
    requires forall l :: 0 <= l < |k.q| ==> NoDup(k.q[l])
    requires forall x :: 0 <= x < N(k) && x != t ==> r.prio[x] == k.prio[x]
    requires to.Some? ==> to.value < |k.q|
    requires forall l :: 0 <= l < |k.q| && to != Some(l) ==>
      r.q[l] == Without(k.q[l], t) || (r.q[l] == k.q[l] && t !in k.q[l])
    requires to.Some? && to.value < LEVELS ==>
      r.q[to.value] == Without(k.q[to.value], t) + [t] || (t !in k.q[to.value] && r.q[to.value] == k.q[to.value] + [t])
    requires to.Some? && to.value >= LEVELS ==>
      || (r.q[to.value] == Insert(Without(k.q[to.value], t), t, r.prio) && Sorted(Without(k.q[to.value], t), r.prio))
      || (t !in k.q[to.value] && r.q[to.value] == Insert(k.q[to.value], t, r.prio) && Sorted(k.q[to.value], r.prio))
    ensures InOrder(k, r, {t})
  {
    hide ListOrder, Without, Insert, Sorted;
    forall l | 0 <= l < |k.q| ensures ListOrder(k.q[l], r.q[l], {t}, r.prio) {
      CutOrder(k.q[l], t, r.prio);
      WithoutFacts(k.q[l], t);
      if t !in k.q[l] {
        WithoutAbsent(k.q[l], t);
      }
      if to == Some(l) {
        var ys := Without(k.q[l], t);
        if l < LEVELS {
          AppendOrder(ys, t, r.prio);
        } else {
          InsertOrder(ys, t, r.prio);
        }
        ChainOrder(k.q[l], ys, r.q[l], {t}, {t}, r.prio, r.prio);
        assert {t} + {t} == {t};
      }
    }
  }

  lemma PlacedDistinct(q: seq<seq<nat>>, home: seq<Option<nat>>, t: nat)
    requires Placed(q, home) && t < |home|
    ensures forall l :: 0 <= l < |q| ==> NoDup(q[l])
    ensures forall l :: 0 <= l < |q| && home[t] != Some(l) ==> t !in q[l]
  {
    forall l | 0 <= l < |q| && home[t] != Some(l) ensures t !in q[l] {
      PlacedAbsent(q, home, l, t);
    }
  }

  // ---- Priorities along a chain --------------------------------------------------------------------------

  /** One task changes its effective priority and its place. */
  lemma ReseatOrder(k: K, t: nat, p: nat, home: seq<Option<nat>>)
    requires Sized(k) && t < N(k) && p < LEVELS && k.prio[t] != p
    requires |home| == N(k) && Placed(k.q, home) && WaitSorted(k.q, k.prio)
    requires home[t] == Home(k, t) && Waiting(k.state, k.waitSem, k.waitMtx)
    ensures InOrder(k, Reseat(k, t, p), {t})
  {
    hide Placed, Insert, Without, Sorted, Reseat;
    var r := Reseat(k, t, p);
    ReseatIs(k, t, p);
    ReadyIffHome(k, home, t);
    PlacedDistinct(k.q, home, t);
    var to := if k.state[t] == Ready && InReady(k, t) then Some(p) else home[t];
    if to.Some? && to.value >= LEVELS {
      RestSorted(k, t, p, to.value);
    }
    MoveOrder(k, r, t, to);
  }

  lemma RestSorted(k: K, t: nat, p: nat, l: nat)
    requires Sized(k) && t < N(k) && LEVELS <= l < |k.q| && WaitSorted(k.q, k.prio) && NoDup(k.q[l])
    ensures Sorted(Without(k.q[l], t), k.prio[t := p])
  {
    WithoutSorted(k.q[l], t, k.prio);
    WithoutFacts(k.q[l], t);
    SortedFrame(Without(k.q[l], t), k.prio, k.prio[t := p]);
  }

  /** A donation that moves to a more urgent level makes its beneficiary no less urgent, and the other
      way round. */
  lemma DonationMoves(base: nat, inh: seq<nat>, was: nat, want: nat)
    requires |inh| == LEVELS && base < LEVELS && was < LEVELS && want < LEVELS && was != want && inh[was] >= 1
    ensures var inh' := inh[was := inh[was] - 1][want := inh[want] + 1];
      && (want < was ==> Effective(base, inh') <= Effective(base, inh))
      && (want > was ==> Effective(base, inh') >= Effective(base, inh))
  {
    hide Effective, Lowest;
    var inh' := inh[was := inh[was] - 1][want := inh[want] + 1];
    EffectiveIs(base, inh);
    EffectiveIs(base, inh');
    var e, e' := Effective(base, inh), Effective(base, inh');
    assert e != base && want < was ==> inh'[want] != 0 && (e != was ==> inh'[e] != 0);
    assert e' != base && want > was ==> e' == want || inh[e'] != 0;
  }

  lemma DonationLeaves(base: nat, inh: seq<nat>, was: nat)
    requires |inh| == LEVELS && base < LEVELS && was < LEVELS && inh[was] >= 1
    ensures Effective(base, inh[was := inh[was] - 1]) >= Effective(base, inh)
  {
    hide Effective, Lowest;
    EffectiveIs(base, inh);
    var inh' := inh[was := inh[was] - 1];
    EffectiveIs(base, inh');
    assert Effective(base, inh') != base ==> inh[Effective(base, inh')] != 0;
  }

  lemma DonationArrives(base: nat, inh: seq<nat>, want: nat)
    requires |inh| == LEVELS && base < LEVELS && want < LEVELS
    ensures Effective(base, inh[want := inh[want] + 1]) <= Effective(base, inh)
  {
    hide Effective, Lowest;
    EffectiveIs(base, inh);
    var inh' := inh[want := inh[want] + 1];
    EffectiveIs(base, inh');
    assert Effective(base, inh) != base ==> inh'[Effective(base, inh)] != 0;
  }

  ghost function Repricings(k: K, r: K): set<nat>
    requires Sized(k) && Sized(r) && N(r) == N(k)
  {
    set x: nat | x < N(k) && r.prio[x] != k.prio[x]
  }

  /** Nobody becomes less urgent; nobody becomes more urgent. */
  predicate Rises(k: K, r: K) {
    Sized(k) && Sized(r) && N(r) == N(k) && forall x :: 0 <= x < N(k) ==> r.prio[x] <= k.prio[x]
  }

  predicate Sinks(k: K, r: K) {
    Sized(k) && Sized(r) && N(r) == N(k) && forall x :: 0 <= x < N(k) ==> r.prio[x] >= k.prio[x]
  }

  /** Order is a matter of lists and priorities. */
  lemma OrderOf(k: K, r: K, r': K, moved: set<nat>)
    requires InOrder(k, r, moved) && Sized(r') && N(r') == N(r) && r'.q == r.q && r'.prio == r.prio
    ensures InOrder(k, r', moved)
  {
    hide ListOrder;
  }

  lemma OrderFrom(k: K, k': K, r: K, moved: set<nat>)
    requires InOrder(k, r, moved) && Sized(k') && N(k') == N(k) && k'.q == k.q && k'.prio == k.prio
    ensures InOrder(k', r, moved)
  {
    hide ListOrder;
  }

  lemma StartSettled(k: K, t: nat, f: seq<nat>, don: seq<Option<nat>>, home: seq<Option<nat>>)
    requires Refreshable(k, t, f, don, home)
    ensures don[t] == Hop(k, t) && home[t] == Home(k, t) && |home| == N(k) == |f|
    ensures Placed(k.q, home) && WaitSorted(k.q, k.prio) && Waiting(k.state, k.waitSem, k.waitMtx) && Ledger(k.inh, k.prio, don)
  {
    hide Effective, Lowest, Placed, WaitSorted, Ledger, Waiting;
  }

  /** What the next hop of a refresh has to do goes the same way. */
  lemma HopDirection(k: K, t: nat, f: seq<nat>, don: seq<Option<nat>>, home: seq<Option<nat>>)
    requires Refreshable(k, t, f, don, home) && Hop(k, t).Some? && !Priced(k, t)
    ensures var (k1, o, want) := (Rebooked(k, t), Hop(k, t).value, Effective(k.base[t], k.inh[t]));
      && o != t && k1.prio == k.prio[t := want] && k1.q == Reseat(k, t, want).q
      && (want < k.prio[t] ==> Effective(k1.base[o], k1.inh[o]) <= k1.prio[o])
      && (want > k.prio[t] ==> Effective(k1.base[o], k1.inh[o]) >= k1.prio[o])
  {
    hide Effective, Lowest, Placed, WaitSorted, Rebooked, Reseat, Settled;
    var o := Hop(k, t).value;
    StartSettled(k, t, f, don, home);
    RebookedIs(k, t);
    HopLedger(k, t, don);
    assert Edges(k)[t] == Some(o);
    assert Priced(k, o);
    DonationMoves(k.base[o], k.inh[o], k.prio[t], Effective(k.base[t], k.inh[t]));
  }

  /** The first hop of a refresh. */
  lemma HopOrder(k: K, t: nat, f: seq<nat>, don: seq<Option<nat>>, home: seq<Option<nat>>)
    requires Refreshable(k, t, f, don, home) && !Priced(k, t)
    ensures var want := Effective(k.base[t], k.inh[t]);
      && Reseat(k, t, want).prio == k.prio[t := want] && InOrder(k, Reseat(k, t, want), {t})
      && (Hop(k, t).Some? ==> InOrder(k, Rebooked(k, t), {t}))
  {
    hide Effective, Lowest, Placed, WaitSorted, Ledger, Waiting, Settled, Rebooked, Reseat, InOrder, Home;
    var want := Effective(k.base[t], k.inh[t]);
    StartSettled(k, t, f, don, home);
    ReseatIs(k, t, want);
    ReseatOrder(k, t, want, home);
    if Hop(k, t).Some? {
      HopDirection(k, t, f, don, home);
      OrderOf(k, Reseat(k, t, want), Rebooked(k, t), {t});
    }
  }

  /** Two moves the same way. */
  lemma HopThen(k: K, k1: K, r: K, t: nat)
    requires Sized(k1) && Sized(r) && N(r) == N(k1) && InOrder(k, k1, {t}) && InOrder(k1, r, Repricings(k1, r)) && t < N(k) && k1.prio[t] != k.prio[t]
    requires if k1.prio[t] < k.prio[t] then Rises(k1, r) else Sinks(k1, r)
    ensures InOrder(k, r, Repricings(k, r)) && if k1.prio[t] < k.prio[t] then Rises(k, r) else Sinks(k, r)
  {
    hide ListOrder;
    OrderChain(k, k1, r, {t}, Repricings(k1, r));
    assert {t} + Repricings(k1, r) == Repricings(k, r);
  }

  /** A refresh moves every task it touches one way, and those tasks only. */
  lemma {:induction false} RefreshOrder(k: K, t: nat, fuel: nat, f: seq<nat>, don: seq<Option<nat>>, home: seq<Option<nat>>)
    requires Refreshable(k, t, f, don, home) && f[t] < fuel
    ensures var r := Refresh(k, t, fuel);
      && N(r) == N(k) && InOrder(k, r, Repricings(k, r))
      && (Effective(k.base[t], k.inh[t]) <= k.prio[t] ==> Rises(k, r))
      && (Effective(k.base[t], k.inh[t]) >= k.prio[t] ==> Sinks(k, r))
    decreases fuel
  {
    hide Effective, Lowest, Placed, WaitSorted, Ledger, Waiting, Settled, Rebooked, Reseat, Refresh, InOrder, Home, Hop;
    RefreshUnfolds(k, t, fuel);
    if Priced(k, t) {
      SameOrder(k, k);
      assert Repricings(k, k) == {};
    } else {
      HopOrder(k, t, f, don, home);
      if Hop(k, t).Some? {
        var k1, o := Rebooked(k, t), Hop(k, t).value;
        HopRefreshable(k, t, f, don, home);
        HopDirection(k, t, f, don, home);
        RefreshOrder(k1, o, fuel - 1, f, don, Rehome(home, k1.prio));
        HopThen(k, k1, Refresh(k, t, fuel), t);
      } else {
        assert Repricings(k, Refresh(k, t, fuel)) == {t};
      }
    }
  }
}
