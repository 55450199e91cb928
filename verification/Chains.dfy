/** The mutex wait-for graph: chains are short, `mutex_chain_contains` is exact, and the
    incremental priorities are the global ones. */
module Chains {
  import opened Lists
  import opened Kernel
  import opened Inheritance

  // ---- Chains are no longer than the task table ----------------------------------------------

  lemma {:induction false} Pigeonhole(xs: seq<nat>, n: nat)
    requires NoDup(xs) && Below(xs, n)
    ensures |xs| <= n
  {
    if n == 0 {
    } else if n - 1 in xs {
      var i :| 0 <= i < |xs| && xs[i] == n - 1;
      var ys := xs[..i] + xs[i+1..];
      Pigeonhole(ys, n - 1);
    } else {
      forall i | 0 <= i < |xs| ensures xs[i] < n - 1 {
        assert xs[i] in xs;
      }
      Pigeonhole(xs, n - 1);
    }
  }

  /** The tasks met along the chain of owners from `t`. */
  ghost function Path(edges: seq<Option<nat>>, f: seq<nat>, t: nat): (p: seq<nat>)
    requires Falls(edges, f) && t < |edges|
    ensures |p| >= 1 && p[0] == t && Below(p, |edges|)
    ensures forall i :: 0 <= i < |p| ==> f[p[i]] <= f[t]
    ensures forall i :: 0 < i < |p| ==> f[p[i]] < f[t]
    ensures NoDup(p)
    decreases f[t]
  {
    match edges[t] case None => [t] case Some(o) => [t] + Path(edges, f, o)
  }

  /** In an acyclic graph some measure below the table size falls along every edge: chains
      have fewer hops than there are tasks. */
  lemma ShortChains(edges: seq<Option<nat>>) returns (g: seq<nat>)
    requires Acyclic(edges)
    ensures Falls(edges, g) && Below(g, |edges|)
  {
    var f :| Falls(edges, f);
    g := seq(|edges|, t requires 0 <= t < |edges| => |Path(edges, f, t)| - 1);
    forall t | 0 <= t < |edges| ensures g[t] < |edges| {
      Pigeonhole(Path(edges, f, t), |edges|);
    }
  }

  // ---- mutex_chain_contains ---------------------------------------------------------------------

  /** `sought` is `n` hops along the owner chain from `t`. */
  ghost predicate ReachesIn(edges: seq<Option<nat>>, t: nat, sought: nat, n: nat)
    requires InRange(edges, |edges|) && t < |edges|
    decreases n
  {
    if n == 0 then t == sought
    else edges[t].Some? && ReachesIn(edges, edges[t].value, sought, n - 1)
  }

  ghost predicate Reaches(edges: seq<Option<nat>>, t: nat, sought: nat)
    requires InRange(edges, |edges|) && t < |edges|
  {
    exists n: nat :: ReachesIn(edges, t, sought, n)
  }

  lemma ReachesHop(edges: seq<Option<nat>>, t: nat, sought: nat)
    requires InRange(edges, |edges|) && t < |edges|
    ensures Reaches(edges, t, sought) <==> t == sought || (edges[t].Some? && Reaches(edges, edges[t].value, sought))
  {
    if Reaches(edges, t, sought) && t != sought {
      var n: nat :| ReachesIn(edges, t, sought, n);
      assert ReachesIn(edges, edges[t].value, sought, n - 1);
    }
    if t == sought {
      assert ReachesIn(edges, t, sought, 0);
    } else if edges[t].Some? && Reaches(edges, edges[t].value, sought) {
      var n: nat :| ReachesIn(edges, edges[t].value, sought, n);
      assert ReachesIn(edges, t, sought, n + 1);
    }
  }

  lemma {:induction false} ChainContainsFrom(k: K, t: nat, sought: nat, steps: nat, g: seq<nat>)
    requires Sized(k) && t < N(k) && Falls(Edges(k), g) && g[t] < steps
    ensures ChainContains(k, t, sought, steps) <==> Reaches(Edges(k), t, sought)
    decreases steps
  {
    ReachesHop(Edges(k), t, sought);
    if t != sought && Edges(k)[t].Some? {
      ChainContainsFrom(k, Edges(k)[t].value, sought, steps - 1, g);
    }
  }

  /** With its cap of one step per task slot, the walk answers exactly whether `sought` is on
      the chain. */
  lemma ChainContainsExact(k: K, t: nat, sought: nat)
    requires Sized(k) && t < N(k) && Acyclic(Edges(k))
    ensures ChainContains(k, t, sought, N(k)) <==> Reaches(Edges(k), t, sought)
  {
    var g := ShortChains(Edges(k));
    ChainContainsFrom(k, t, sought, N(k), g);
  }

  // ---- The graph stays acyclic ---------------------------------------------------------------------

  ghost predicate Fewer(e: seq<Option<nat>>, e': seq<Option<nat>>) {
    |e'| == |e| && forall t :: 0 <= t < |e| && e'[t].Some? ==> e'[t] == e[t]
  }

  lemma FewerAcyclic(e: seq<Option<nat>>, e': seq<Option<nat>>)
    requires Acyclic(e) && Fewer(e, e')
    ensures Acyclic(e')
  {
    var f :| Falls(e, f);
    assert Falls(e', f);
  }

  /** A new edge from `c` is safe exactly when `c` is not reachable from its head. */
  lemma NewEdgeAcyclic(e: seq<Option<nat>>, c: nat, o: nat)
    requires Acyclic(e) && c < |e| && o < |e| && e[c].None?
    ensures Acyclic(e[c := Some(o)]) <==> !Reaches(e, o, c)
  {
    var f :| Falls(e, f);
    var e' := e[c := Some(o)];
    if !Reaches(e, o, c) {
      var f' := seq(|e|, x requires 0 <= x < |e| => if Reaches(e, x, c) then f[x] + f[o] + 1 else f[x]);
      forall t | 0 <= t < |e'| && e'[t].Some? ensures f'[e'[t].value] < f'[t] {
        ReachesHop(e, t, c);
      }
      assert Falls(e', f');
    } else if Acyclic(e') {
      var g :| Falls(e', g);
      var n: nat :| ReachesIn(e, o, c, n);
      assert e'[c] == Some(o);
      FallsAlong(e, e', o, c, n, g);
    }
  }

  lemma {:induction false} FallsAlong(e: seq<Option<nat>>, e': seq<Option<nat>>, t: nat, c: nat, n: nat, g: seq<nat>)
    requires InRange(e, |e|) && t < |e| && c < |e| && ReachesIn(e, t, c, n) && e[c].None?
    requires Falls(e', g) && |e'| == |e| && forall x :: 0 <= x < |e| && x != c ==> e'[x] == e[x]
    ensures g[c] <= g[t]
    decreases n
  {
    if n > 0 {
      assert t != c;
      FallsAlong(e, e', e[t].value, c, n - 1, g);
    }
  }

  /** A handoff redirects edges to the new owner, who waits for nothing. */
  lemma HandoffAcyclic(e: seq<Option<nat>>, e': seq<Option<nat>>, next: nat)
    requires Acyclic(e) && |e'| == |e| && next < |e| && e'[next].None?
    requires forall t :: 0 <= t < |e| && e'[t].Some? ==> e'[t] == e[t] || e'[t] == Some(next)
    ensures Acyclic(e')
  {
    var f :| Falls(e, f);
    var f' := seq(|e|, x requires 0 <= x < |e| => if x == next then 0 else f[x] + 1);
    assert Falls(e', f');
  }

  // ---- The incremental priorities are the global ones --------------------------------------------------

  lemma EffectiveIs(base: nat, inh: seq<nat>)
    requires |inh| == LEVELS && base < LEVELS
    ensures forall l :: 0 <= l < LEVELS && inh[l] != 0 ==> Effective(base, inh) <= l
    ensures Effective(base, inh) == base || inh[Effective(base, inh)] != 0
  {
  }

  /** A waiter's priority bounds its owner's. */
  lemma EdgeBounds(k: K, w: nat)
    requires Sized(k) && w < N(k) && Ledger(k.inh, k.prio, Edges(k)) && Edges(k)[w].Some?
    requires InRange(Edges(k), N(k)) && Priced(k, Edges(k)[w].value)
    ensures k.prio[Edges(k)[w].value] <= k.prio[w]
  {
    hide Effective, Lowest;
    var o := Edges(k)[w].value;
    assert w in Donors(Edges(k), k.prio, o, k.prio[w]);
    assert k.inh[o][k.prio[w]] == |Donors(Edges(k), k.prio, o, k.prio[w])|;
    EffectiveIs(k.base[o], k.inh[o]);
  }

  lemma {:induction false} WaitersBound(k: K, w: nat, t: nat, n: nat)
    requires Sized(k) && w < N(k) && t < N(k) && InRange(Edges(k), N(k)) && Ledger(k.inh, k.prio, Edges(k))
    requires forall x :: 0 <= x < N(k) ==> Priced(k, x)
    requires ReachesIn(Edges(k), w, t, n)
    ensures k.prio[t] <= k.prio[w] <= k.base[w]
    decreases n
  {
    hide Effective, Lowest, Ledger;
    assert Priced(k, w);
    if n > 0 {
      EdgeBounds(k, w);
      WaitersBound(k, Edges(k)[w].value, t, n - 1);
    }
  }

  /** Someone who transitively waits for `t` has exactly its effective priority as base. */
  lemma {:induction false} SomeoneDonates(k: K, t: nat, g: seq<nat>) returns (w: nat, n: nat)
    requires Sized(k) && t < N(k) && Ledger(k.inh, k.prio, Edges(k)) && Falls(Edges(k), g) && Below(g, N(k))
    requires forall x :: 0 <= x < N(k) ==> Priced(k, x)
    ensures w < N(k) && ReachesIn(Edges(k), w, t, n) && k.base[w] == k.prio[t]
    decreases N(k) - g[t]
  {
    hide Effective, Lowest;
    assert Priced(k, t);
    EffectiveIs(k.base[t], k.inh[t]);
    if k.prio[t] == k.base[t] {
      w, n := t, 0;
    } else {
      assert k.inh[t][k.prio[t]] == |Donors(Edges(k), k.prio, t, k.prio[t])|;
      var d :| d in Donors(Edges(k), k.prio, t, k.prio[t]);
      w, n := SomeoneDonates(k, d, g);
      ReachesOn(Edges(k), w, d, t, n);
      n := n + 1;
    }
  }

  lemma {:induction false} ReachesOn(e: seq<Option<nat>>, w: nat, d: nat, t: nat, n: nat)
    requires InRange(e, |e|) && w < |e| && d < |e| && ReachesIn(e, w, d, n) && e[d] == Some(t)
    ensures ReachesIn(e, w, t, n + 1)
    decreases n
  {
    if n > 0 {
      ReachesOn(e, e[w].value, d, t, n - 1);
    } else {
      assert ReachesIn(e, t, t, 0);
    }
  }

  /** The incremental refreshes compute the global definition: an effective priority is the
      least base priority among the task and everyone who transitively waits for it. */
  lemma GlobalPriority(k: K, t: nat)
    requires Sized(k) && t < N(k) && Acyclic(Edges(k)) && Ledger(k.inh, k.prio, Edges(k))
    requires forall x :: 0 <= x < N(k) ==> Priced(k, x)
    ensures forall w :: 0 <= w < N(k) && Reaches(Edges(k), w, t) ==> k.prio[t] <= k.base[w]
    ensures exists w :: 0 <= w < N(k) && Reaches(Edges(k), w, t) && k.prio[t] == k.base[w]
  {
    hide Effective, Lowest, Ledger;
    forall w | 0 <= w < N(k) && Reaches(Edges(k), w, t) ensures k.prio[t] <= k.base[w] {
      var n: nat :| ReachesIn(Edges(k), w, t, n);
      WaitersBound(k, w, t, n);
    }
    var g := ShortChains(Edges(k));
    var w, n := SomeoneDonates(k, t, g);
    assert Reaches(Edges(k), w, t);
  }
}
