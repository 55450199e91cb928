/** The intrusive lists themselves: one `next` field per task, shared by every ready bucket and
    wait queue, with a head and a tail per list. */
module Links {
  import opened Lists
  import opened Kernel
  import opened Inheritance
  import Chains

  const NIL: nat := 0xFFFF_FFFF

  /** The entry after position `i`, or NIL at the end. */
  function At(xs: seq<nat>, i: nat): nat {
    if i < |xs| then xs[i] else NIL
  }

  /** The link of entry `i` leads to entry `i + 1`. */
  ghost predicate Follows(next: seq<nat>, xs: seq<nat>, i: nat) {
    i < |xs| && xs[i] < |next| && next[xs[i]] == At(xs, i + 1)
  }

  /** Following `next` from `head` visits exactly `xs` and ends at `tail`. */
  ghost predicate Chain(next: seq<nat>, xs: seq<nat>, head: nat, tail: nat) {
    && Below(xs, |next|) && |next| <= NIL
    && head == At(xs, 0)
    && tail == (if xs == [] then NIL else xs[|xs| - 1])
    && forall i :: 0 <= i < |xs| ==> Follows(next, xs, i)
  }

  /** All lists at once, on the shared links. */
  ghost predicate Linked(next: seq<nat>, head: seq<nat>, tail: seq<nat>, q: seq<seq<nat>>) {
    && |head| == |q| && |tail| == |q|
    && forall l :: 0 <= l < |q| ==> Chain(next, q[l], head[l], tail[l])
  }

  /** The entry before position `i`, or NIL at the front. */
  function Before(xs: seq<nat>, i: nat): nat
    requires i <= |xs|
  {
    if i == 0 then NIL else xs[i - 1]
  }

  // ---- One list ----------------------------------------------------------------------------

  lemma ChainAppend(next: seq<nat>, xs: seq<nat>, head: nat, tail: nat, t: nat)
    requires Chain(next, xs, head, tail) && NoDup(xs) && t < |next| && t !in xs
    ensures tail == NIL || tail < |next|
    ensures var next1 := next[t := NIL];
      Chain(if tail == NIL then next1 else next1[tail := t], xs + [t], if tail == NIL then t else head, t)
  {
    var next1 := next[t := NIL];
    var next2 := if tail == NIL then next1 else next1[tail := t];
    var ys := xs + [t];
    forall i | 0 <= i < |ys| ensures Follows(next2, ys, i) {
      if i < |xs| {
        assert Follows(next, xs, i);
      }
    }
  }

  lemma ChainPop(next: seq<nat>, xs: seq<nat>, head: nat, tail: nat)
    requires Chain(next, xs, head, tail) && NoDup(xs) && xs != []
    ensures head < |next|
    ensures Chain(next[head := NIL], xs[1..], next[head], if next[head] == NIL then NIL else tail)
  {
    assert Follows(next, xs, 0);
    var ys, next1 := xs[1..], next[head := NIL];
    forall i | 0 <= i < |ys| ensures Follows(next1, ys, i) {
      assert Follows(next, xs, i + 1);
    }
  }

  /** Unlink position `i`. */
  lemma ChainRemove(next: seq<nat>, xs: seq<nat>, head: nat, tail: nat, i: nat)
    requires Chain(next, xs, head, tail) && NoDup(xs) && i < |xs|
    ensures var (t, prev) := (xs[i], Before(xs, i));
      (prev == NIL || prev < |next|) &&
      var next1 := if prev == NIL then next else next[prev := next[t]];
      Chain(next1[t := NIL], xs[..i] + xs[i+1..], if prev == NIL then next[t] else head, if tail == t then prev else tail)
  {
    var ys := xs[..i] + xs[i+1..];
    var t, prev := xs[i], Before(xs, i);
    var next1 := if prev == NIL then next else next[prev := next[t]];
    var next2 := next1[t := NIL];
    assert Follows(next, xs, i);
    forall j | 0 <= j < |ys| ensures Follows(next2, ys, j) {
      var j' := if j < i then j else j + 1;
      assert Follows(next, xs, j') && xs[j'] != t;
    }
  }

  /** Link `t` in before position `i`. */
  lemma ChainInsert(next: seq<nat>, xs: seq<nat>, head: nat, tail: nat, i: nat, t: nat)
    requires Chain(next, xs, head, tail) && NoDup(xs) && i <= |xs| && t < |next| && t !in xs
    ensures var (cur, prev) := (At(xs, i), Before(xs, i));
      (prev == NIL || prev < |next|) &&
      var next1 := next[t := cur];
      Chain(if prev == NIL then next1 else next1[prev := t], xs[..i] + [t] + xs[i..],
            if prev == NIL then t else head, if cur == NIL then t else tail)
  {
    var cur, prev := At(xs, i), Before(xs, i);
    var next1 := next[t := cur];
    var next2 := if prev == NIL then next1 else next1[prev := t];
    var ys := xs[..i] + [t] + xs[i..];
    forall j | 0 <= j < |ys| ensures Follows(next2, ys, j) {
      if j < i {
        assert ys[j] == xs[j] && Follows(next, xs, j);
      } else if j > i {
        assert ys[j] == xs[j - 1] && Follows(next, xs, j - 1);
      }
    }
  }

  // ---- All lists ---------------------------------------------------------------------------

  /** Relinking list `l`, possibly with an unlisted task `t`, leaves all others linked. */
  lemma LinkedUpdate(next: seq<nat>, next': seq<nat>, head: seq<nat>, tail: seq<nat>, q: seq<seq<nat>>,
                     home: seq<Option<nat>>, l: nat, t: nat, xs: seq<nat>, h: nat, e: nat)
    requires Linked(next, head, tail, q) && Placed(q, home) && |home| == |next| == |next'| && l < |q| && t < |home|
    requires home[t] == None || home[t] == Some(l)
    requires forall x :: 0 <= x < |next| && x != t && home[x] != Some(l) ==> next'[x] == next[x]
    requires Chain(next', xs, h, e)
    ensures Linked(next', head[l := h], tail[l := e], q[l := xs])
  {
    forall i | 0 <= i < |q| && i != l ensures Chain(next', q[i], head[i], tail[i]) {
      forall j | 0 <= j < |q[i]| ensures Follows(next', q[i], j) {
        assert home[q[i][j]] == Some(i) && Follows(next, q[i], j);
      }
    }
  }

  /** A list visits no more tasks than there are. */
  lemma ListFits(q: seq<seq<nat>>, home: seq<Option<nat>>, l: nat)
    requires Placed(q, home) && l < |q|
    ensures |q[l]| <= |home| && NoDup(q[l])
  {
    assert Below(q[l], |home|);
    Chains.Pigeonhole(q[l], |home|);
  }

  /** The four ways a list changes, on the shared links: append, pop, unlink and link in. */
  lemma LinkedAppend(next: seq<nat>, head: seq<nat>, tail: seq<nat>, q: seq<seq<nat>>, home: seq<Option<nat>>, l: nat, t: nat)
    requires Linked(next, head, tail, q) && Placed(q, home) && |home| == |next| && l < |q| && t < |home| && home[t].None?
    ensures |head| == |tail| == |q| && (tail[l] == NIL || tail[l] < |next|)
    ensures var next1 := next[t := NIL];
      var next2 := if tail[l] == NIL then next1 else next1[tail[l] := t];
      Linked(next2, if tail[l] == NIL then head[l := t] else head, tail[l := t], q[l := q[l] + [t]])
    ensures Placed(q[l := q[l] + [t]], home[t := Some(l)])
  {
    var xs := q[l];
    PlacedAbsent(q, home, l, t);
    assert Chain(next, xs, head[l], tail[l]);
    ChainAppend(next, xs, head[l], tail[l], t);
    PlacedAppend(q, home, l, t);
    var next1 := next[t := NIL];
    var next2 := if tail[l] == NIL then next1 else next1[tail[l] := t];
    assert tail[l] != NIL ==> tail[l] == xs[|xs| - 1] && home[xs[|xs| - 1]] == Some(l);
    LinkedUpdate(next, next2, head, tail, q, home, l, t, xs + [t], if tail[l] == NIL then t else head[l], t);
    assert head[l := head[l]] == head;
  }

  lemma LinkedPop(next: seq<nat>, head: seq<nat>, tail: seq<nat>, q: seq<seq<nat>>, home: seq<Option<nat>>, l: nat)
    requires Linked(next, head, tail, q) && Placed(q, home) && |home| == |next| && l < |q|
    ensures |head| == |tail| == |q| && (head[l] == NIL <==> q[l] == [])
    ensures head[l] != NIL ==>
      var t := head[l];
      && q[l][0] == t < |next| && home[t] == Some(l)
      && Linked(next[t := NIL], head[l := next[t]], if next[t] == NIL then tail[l := NIL] else tail, q[l := q[l][1..]])
      && Placed(q[l := q[l][1..]], home[t := None])
  {
    var xs := q[l];
    assert Chain(next, xs, head[l], tail[l]);
    if xs != [] {
      var t := xs[0];
      ChainPop(next, xs, head[l], tail[l]);
      PlacedPop(q, home, l);
      LinkedUpdate(next, next[t := NIL], head, tail, q, home, l, t, xs[1..], next[t], if next[t] == NIL then NIL else tail[l]);
      assert tail[l := tail[l]] == tail;
    }
  }

  lemma LinkedRemove(next: seq<nat>, head: seq<nat>, tail: seq<nat>, q: seq<seq<nat>>, home: seq<Option<nat>>, l: nat, i: nat)
    requires Linked(next, head, tail, q) && Placed(q, home) && |home| == |next| && l < |q| && i < |q[l]|
    ensures var (t, prev) := (q[l][i], Before(q[l], i));
      && t < |next| && (prev == NIL || prev < |next|) && |head| == |tail| == |q| && home[t] == Some(l)
      && var next1 := if prev == NIL then next else next[prev := next[t]];
      && Linked(next1[t := NIL], if prev == NIL then head[l := next[t]] else head, if tail[l] == t then tail[l := prev] else tail,
                q[l := Without(q[l], t)])
      && Placed(q[l := Without(q[l], t)], home[t := None])
  {
    var xs, t, prev := q[l], q[l][i], Before(q[l], i);
    assert Chain(next, xs, head[l], tail[l]);
    ChainRemove(next, xs, head[l], tail[l], i);
    WithoutAt(xs, i);
    assert home[xs[i]] == Some(l);
    PlacedWithout(q, home, l, t);
    assert prev != NIL ==> home[xs[i - 1]] == Some(l);
    var next1 := if prev == NIL then next else next[prev := next[t]];
    LinkedUpdate(next, next1[t := NIL], head, tail, q, home, l, t, xs[..i] + xs[i+1..],
                 if prev == NIL then next[t] else head[l], if tail[l] == t then prev else tail[l]);
    assert head[l := head[l]] == head && tail[l := tail[l]] == tail;
  }

  lemma LinkedInsert(next: seq<nat>, head: seq<nat>, tail: seq<nat>, q: seq<seq<nat>>, home: seq<Option<nat>>,
                     l: nat, t: nat, prio: seq<nat>, i: nat)
    requires Linked(next, head, tail, q) && Placed(q, home) && |home| == |next| == |prio| && l < |q| && t < |home| && home[t].None?
    requires Below(q[l], |prio|) && i == InsertAt(q[l], t, prio)
    ensures var (cur, prev) := (At(q[l], i), Before(q[l], i));
      && (prev == NIL || prev < |next|) && |head| == |tail| == |q|
      && var next1 := next[t := cur];
      && Linked(if prev == NIL then next1 else next1[prev := t], if prev == NIL then head[l := t] else head,
                if cur == NIL then tail[l := t] else tail, q[l := Insert(q[l], t, prio)])
      && Placed(q[l := Insert(q[l], t, prio)], home[t := Some(l)])
  {
    hide Linked, Chain, Placed, Insert;
    InsertSplits(q[l], t, prio);
    PlacedInsert(q, home, l, t, prio);
    LinkedInsertAt(next, head, tail, q, home, l, t, i);
  }

  lemma LinkedInsertAt(next: seq<nat>, head: seq<nat>, tail: seq<nat>, q: seq<seq<nat>>, home: seq<Option<nat>>, l: nat, t: nat, i: nat)
    requires Linked(next, head, tail, q) && Placed(q, home) && |home| == |next| && l < |q| && t < |home| && home[t].None?
    requires i <= |q[l]|
    ensures var (cur, prev) := (At(q[l], i), Before(q[l], i));
      && (prev == NIL || prev < |next|) && |head| == |tail| == |q|
      && var next1 := next[t := cur];
      && Linked(if prev == NIL then next1 else next1[prev := t], if prev == NIL then head[l := t] else head,
                if cur == NIL then tail[l := t] else tail, q[l := q[l][..i] + [t] + q[l][i..]])
  {
    var xs, cur, prev := q[l], At(q[l], i), Before(q[l], i);
    assert Chain(next, xs, head[l], tail[l]);
    PlacedAbsent(q, home, l, t);
    ChainInsert(next, xs, head[l], tail[l], i, t);
    assert prev != NIL ==> home[xs[i - 1]] == Some(l);
    var next1 := next[t := cur];
    LinkedUpdate(next, if prev == NIL then next1 else next1[prev := t], head, tail, q, home, l, t, xs[..i] + [t] + xs[i..],
                 if prev == NIL then t else head[l], if cur == NIL then t else tail[l]);
    assert head[l := head[l]] == head && tail[l := tail[l]] == tail;
  }

  /** One step of a walk. */
  lemma LinkedStep(next: seq<nat>, head: seq<nat>, tail: seq<nat>, q: seq<seq<nat>>, home: seq<Option<nat>>, l: nat, i: nat)
    requires Linked(next, head, tail, q) && Placed(q, home) && |home| == |next| && l < |q| && i <= |q[l]|
    ensures |head| == |tail| == |q| && head[l] == At(q[l], 0) && |q[l]| <= |next| < NIL + 1
    ensures i < |q[l]| ==> q[l][i] < |next| && q[l][i] != NIL && next[q[l][i]] == At(q[l], i + 1)
    ensures NoDup(q[l])
  {
    assert Chain(next, q[l], head[l], tail[l]);
    if i < |q[l]| {
      assert Follows(next, q[l], i);
    }
    ListFits(q, home, l);
  }
}
