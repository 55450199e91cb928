/** Sequences of task slots: the abstract contents of the intrusive lists. */
module Lists {

  datatype Option<+T> = None | Some(value: T)

  ghost predicate NoDup(xs: seq<nat>) {
    forall i, j :: 0 <= i < j < |xs| ==> xs[i] != xs[j]
  }

  /** Every entry is a slot of a table of `n` slots. */
  predicate Below(xs: seq<nat>, n: nat) {
    forall i :: 0 <= i < |xs| ==> xs[i] < n
  }

  /** Lower numbers are more urgent; a sorted queue has its most urgent task first. */
  ghost predicate Sorted(xs: seq<nat>, prio: seq<nat>) {
    && Below(xs, |prio|)
    && (forall i, j :: 0 <= i < j < |xs| ==> prio[xs[i]] <= prio[xs[j]])
  }

  /** A set of slots of a table of `n` has at most `n` members. */
  lemma {:induction false} SetBelow(s: set<nat>, n: nat)
    requires forall x :: x in s ==> x < n
    ensures |s| <= n
  {
    if n > 0 {
      var s' := s - {n - 1};
      SetBelow(s', n - 1);
      assert s == s' || s == s' + {n - 1};
    } else {
      assert s == {};
    }
  }

  /** `xs` with the first occurrence of `t` taken out. */
  function Without(xs: seq<nat>, t: nat): (r: seq<nat>)
    ensures forall n: nat :: Below(xs, n) ==> Below(r, n)
  {
    if xs == [] then []
    else if xs[0] == t then xs[1..]
    else
      var rest := Without(xs[1..], t);
      assert forall n: nat | Below(xs, n) :: Below(xs[1..], n) && Below(rest, n);
      [xs[0]] + rest
  }

  /** `xs` with `t` placed behind every task that is at least as urgent. */
  function Insert(xs: seq<nat>, t: nat, prio: seq<nat>): (r: seq<nat>)
    requires t < |prio|
    requires Below(xs, |prio|)
    ensures Below(r, |prio|)
  {
    if xs == [] || prio[xs[0]] > prio[t] then [t] + xs
    else [xs[0]] + Insert(xs[1..], t, prio)
  }

  /** Taking out the entry at position `i` closes the gap and moves nothing else. */
  lemma {:induction false} WithoutAt(xs: seq<nat>, i: nat)
    requires NoDup(xs) && i < |xs|
    ensures Without(xs, xs[i]) == xs[..i] + xs[i+1..]
  {
    if i > 0 {
      WithoutAt(xs[1..], i - 1);
      assert xs[..i] == [xs[0]] + xs[1..][..i-1];
      assert xs[i+1..] == xs[1..][i..];
    }
  }

  lemma {:induction false} WithoutAbsent(xs: seq<nat>, t: nat)
    requires t !in xs
    ensures Without(xs, t) == xs
  {
    if xs != [] {
      WithoutAbsent(xs[1..], t);
    }
  }

  /** `xs` without position `i`, entry by entry. */
  lemma CutFacts(xs: seq<nat>, i: nat)
    requires NoDup(xs) && i < |xs|
    ensures var ys := xs[..i] + xs[i+1..];
      NoDup(ys) && forall x :: x in ys <==> x in xs && x != xs[i]
  {
    var ys := xs[..i] + xs[i+1..];
    assert forall j :: 0 <= j < |ys| ==> ys[j] == if j < i then xs[j] else xs[j + 1];
    forall x | x in xs && x != xs[i] ensures x in ys {
      var j :| 0 <= j < |xs| && xs[j] == x;
      assert ys[if j < i then j else j - 1] == x;
    }
  }

  lemma WithoutFacts(xs: seq<nat>, t: nat)
    requires NoDup(xs)
    ensures NoDup(Without(xs, t))
    ensures forall x :: x in Without(xs, t) <==> x in xs && x != t
  {
    hide NoDup, Without;
    if t in xs {
      var i :| 0 <= i < |xs| && xs[i] == t;
      WithoutAt(xs, i);
      CutFacts(xs, i);
    } else {
      WithoutAbsent(xs, t);
    }
  }

  lemma CutSorted(xs: seq<nat>, i: nat, prio: seq<nat>)
    requires Sorted(xs, prio) && i < |xs|
    ensures Sorted(xs[..i] + xs[i+1..], prio)
  {
    var ys := xs[..i] + xs[i+1..];
    assert forall j :: 0 <= j < |ys| ==> ys[j] == if j < i then xs[j] else xs[j + 1];
  }

  lemma WithoutSorted(xs: seq<nat>, t: nat, prio: seq<nat>)
    requires NoDup(xs) && Sorted(xs, prio)
    ensures Sorted(Without(xs, t), prio)
  {
    hide Sorted, Without;
    if t in xs {
      var i :| 0 <= i < |xs| && xs[i] == t;
      WithoutAt(xs, i);
      CutSorted(xs, i, prio);
    } else {
      WithoutAbsent(xs, t);
    }
  }

  /** Where `Insert` puts `t`: all tasks ahead are at least as urgent and the task right
      behind is strictly less urgent. */
  function InsertAt(xs: seq<nat>, t: nat, prio: seq<nat>): (i: nat)
    requires t < |prio|
    requires Below(xs, |prio|)
    ensures i <= |xs|
    ensures forall j :: 0 <= j < i ==> prio[xs[j]] <= prio[t]
    ensures i < |xs| ==> prio[t] < prio[xs[i]]
  {
    if xs == [] || prio[xs[0]] > prio[t] then 0
    else 1 + InsertAt(xs[1..], t, prio)
  }

  lemma PeelSplice(xs: seq<nat>, t: nat, i: nat)
    requires xs != [] && i < |xs|
    ensures [xs[0]] + (xs[1..][..i] + [t] + xs[1..][i..]) == xs[..i + 1] + [t] + xs[i + 1..]
  {
  }

  lemma {:induction false} InsertSplits(xs: seq<nat>, t: nat, prio: seq<nat>)
    requires t < |prio|
    requires Below(xs, |prio|)
    ensures var i := InsertAt(xs, t, prio); Insert(xs, t, prio) == xs[..i] + [t] + xs[i..]
  {
    if xs != [] && prio[xs[0]] <= prio[t] {
      InsertSplits(xs[1..], t, prio);
      PeelSplice(xs, t, InsertAt(xs[1..], t, prio));
    }
  }

  /** `xs` with `t` put in at position `i`, entry by entry. */
  lemma SpliceFacts(xs: seq<nat>, t: nat, i: nat)
    requires i <= |xs| && t !in xs && NoDup(xs)
    ensures var ys := xs[..i] + [t] + xs[i..];
      NoDup(ys) && forall x :: x in ys <==> x in xs || x == t
  {
    var ys := xs[..i] + [t] + xs[i..];
    assert forall j :: 0 <= j < |ys| ==> ys[j] == if j < i then xs[j] else if j == i then t else xs[j - 1];
    assert ys[i] == t;
    forall x | x in xs ensures x in ys {
      var j :| 0 <= j < |xs| && xs[j] == x;
      assert ys[if j < i then j else j + 1] == x;
    }
  }

  lemma InsertMembers(xs: seq<nat>, t: nat, prio: seq<nat>)
    requires t < |prio| && t !in xs && NoDup(xs)
    requires Below(xs, |prio|)
    ensures NoDup(Insert(xs, t, prio))
    ensures forall x :: x in Insert(xs, t, prio) <==> x in xs || x == t
  {
    hide NoDup;
    InsertSplits(xs, t, prio);
    SpliceFacts(xs, t, InsertAt(xs, t, prio));
  }

  lemma SpliceSorted(xs: seq<nat>, t: nat, i: nat, prio: seq<nat>)
    requires t < |prio| && Sorted(xs, prio) && i <= |xs|
    requires forall j :: 0 <= j < i ==> prio[xs[j]] <= prio[t]
    requires i < |xs| ==> prio[t] < prio[xs[i]]
    ensures Sorted(xs[..i] + [t] + xs[i..], prio)
  {
    var ys := xs[..i] + [t] + xs[i..];
    assert forall j :: 0 <= j < |ys| ==> ys[j] == if j < i then xs[j] else if j == i then t else xs[j - 1];
    forall j | i <= j < |xs| ensures prio[t] < prio[xs[j]] {
      assert prio[xs[i]] <= prio[xs[j]];
    }
  }

  lemma InsertSorted(xs: seq<nat>, t: nat, prio: seq<nat>)
    requires t < |prio| && Sorted(xs, prio)
    ensures Sorted(Insert(xs, t, prio), prio)
  {
    hide Insert;
    InsertSplits(xs, t, prio);
    SpliceSorted(xs, t, InsertAt(xs, t, prio), prio);
  }
}
