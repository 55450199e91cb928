/** `ready_ownership_audit`: a diagnostic that trusts nothing. On an arbitrary snapshot, with
    damaged links, cycles and wild indices, it terminates, stays in bounds, and reports no
    violation exactly when the snapshot is sound. */
module Audit {
  import opened Lists
  import opened Kernel
  import opened Inheritance
  import opened Links
  import opened Chains

  datatype Target = Target(slot: nat, ident: nat)
  datatype Switch = Switch(previous: nat, target: Target)

  /** Any contents whatsoever; only the table sizes are fixed. */
  datatype Snapshot = Snapshot(
    state: seq<Status>,
    next: seq<nat>,
    prio: seq<nat>,
    ident: seq<nat>,
    head: seq<nat>,
    tail: seq<nat>,
    current: nat,
    pending: Option<Switch>,
    started: bool)

  predicate Shaped(s: Snapshot) {
    && IDLE < |s.state| == |s.next| == |s.prio| == |s.ident| <= SLOT_LIMIT
    && |s.head| == |s.tail| == LEVELS
  }

  // ---- What sound means ------------------------------------------------------------------------

  /** The links spell out disjoint lists of tasks of the right priority. */
  ghost predicate Spelled(s: Snapshot, q: seq<seq<nat>>, home: seq<Option<nat>>)
    requires Shaped(s)
  {
    && |q| == LEVELS && |home| == |s.state|
    && Linked(s.next, s.head, s.tail, q) && Placed(q, home)
    && forall t :: 0 <= t < |home| && home[t].Some? ==> home[t].value == s.prio[t]
  }

  /** `t` is the target of a switch whose target still has the identity it had. */
  predicate IsPending(s: Snapshot, t: nat) {
    s.pending.Some? && s.pending.value.target.slot == t && t < |s.ident| && s.ident[t] == s.pending.value.target.ident
  }

  /** Every task has the owner its state calls for. */
  predicate OwnedBy(s: Snapshot, t: nat, queued: bool)
    requires Shaped(s) && t < |s.state|
  {
    match s.state[t]
    case Ready => if t == IDLE then !queued else queued != IsPending(s, t)
    case Running => t == s.current && !queued && !IsPending(s, t)
    case _ => !queued && !IsPending(s, t)
  }

  predicate TargetKnown(s: Snapshot) {
    s.pending.Some? ==> IsPending(s, s.pending.value.target.slot)
  }

  /** Once started: a pending switch leaves its source not running and nobody else either;
      otherwise exactly one task runs. */
  ghost predicate HartSound(s: Snapshot)
    requires Shaped(s)
  {
    s.started ==>
      && s.current < |s.state|
      && match s.pending
         case Some(sw) => s.current == sw.previous && forall t :: 0 <= t < |s.state| ==> s.state[t] != Running
         case None => s.state[s.current] == Running && forall t :: 0 <= t < |s.state| && s.state[t] == Running ==> t == s.current
  }

  ghost predicate AllOwned(s: Snapshot, home: seq<Option<nat>>)
    requires Shaped(s) && |home| == |s.state|
  {
    forall t :: 0 <= t < |home| ==> OwnedBy(s, t, home[t].Some?)
  }

  ghost predicate Sound(s: Snapshot)
    requires Shaped(s)
  {
    && TargetKnown(s) && HartSound(s)
    && exists q: seq<seq<nat>>, home: seq<Option<nat>> :: Spelled(s, q, home) && AllOwned(s, home)
  }

  // ---- What a bounded walk visits ----------------------------------------------------------------

  /** The tasks visited from `cur` in at most `steps` steps, up to the first wild index. */
  function Walk(next: seq<nat>, cur: nat, steps: nat): (r: seq<nat>)
    ensures Below(r, |next|) && |r| <= steps
    decreases steps
  {
    if steps == 0 || cur >= |next| then [] else [cur] + Walk(next, next[cur], steps - 1)
  }

  /** Where that walk stops. */
  function Stop(next: seq<nat>, cur: nat, steps: nat): nat
    decreases steps
  {
    if steps == 0 || cur >= |next| then cur else Stop(next, next[cur], steps - 1)
  }

  function BucketWalk(s: Snapshot, p: nat): (r: seq<nat>)
    requires Shaped(s) && p < LEVELS
    ensures Below(r, |s.next|)
  {
    Walk(s.next, s.head[p], |s.next|)
  }

  function LastOf(xs: seq<nat>): nat {
    if xs == [] then NIL else xs[|xs| - 1]
  }

  /** What the checks on one bucket establish, apart from disjointness. */
  predicate BucketClean(s: Snapshot, p: nat)
    requires Shaped(s) && p < LEVELS
  {
    var (head, tail, xs) := (s.head[p], s.tail[p], BucketWalk(s, p));
    && (head == NIL) == (tail == NIL) && (tail == NIL || tail < |s.next|)
    && Stop(s.next, head, |s.next|) == NIL && (head != NIL ==> LastOf(xs) == tail)
    && (tail < |s.next| ==> s.next[tail] == NIL)
    && AtPriority(s, xs, p)
  }

  predicate AtPriority(s: Snapshot, xs: seq<nat>, p: nat)
    requires Below(xs, |s.prio|)
  {
    forall i :: 0 <= i < |xs| ==> s.prio[xs[i]] == p
  }

  /** All visits to the first `p` buckets, in order. */
  function Visited(s: Snapshot, p: nat): (r: seq<nat>)
    requires Shaped(s) && p <= LEVELS
    ensures Below(r, |s.next|)
  {
    if p == 0 then [] else Visited(s, p - 1) + BucketWalk(s, p - 1)
  }

  ghost predicate ListsClean(s: Snapshot, p: nat)
    requires Shaped(s) && p <= LEVELS
  {
    NoDup(Visited(s, p)) && forall l :: 0 <= l < p ==> BucketClean(s, l)
  }

  // ---- A clean walk is a list ----------------------------------------------------------------------

  lemma {:induction false} WalkFollows(next: seq<nat>, cur: nat, steps: nat, i: nat)
    requires i < |Walk(next, cur, steps)|
    ensures var xs := Walk(next, cur, steps);
      && xs[0] == cur && xs[i] < |next|
      && next[xs[i]] == if i + 1 < |xs| then xs[i + 1] else Stop(next, cur, steps)
    decreases steps
  {
    if i > 0 {
      WalkFollows(next, next[cur], steps - 1, i - 1);
    } else if steps > 1 && next[cur] < |next| {
      WalkFollows(next, next[cur], steps - 1, 0);
    }
  }

  /** A walk that stops at NIL spells out a list. */
  lemma WalkChain(s: Snapshot, p: nat)
    requires Shaped(s) && p < LEVELS && BucketClean(s, p)
    ensures Chain(s.next, BucketWalk(s, p), s.head[p], s.tail[p])
  {
    var xs := BucketWalk(s, p);
    forall i | 0 <= i < |xs| ensures Follows(s.next, xs, i) {
      WalkFollows(s.next, s.head[p], |s.next|, i);
    }
    if xs != [] {
      WalkFollows(s.next, s.head[p], |s.next|, 0);
    }
  }

  /** A list is what the walk visits. */
  lemma {:induction false} ChainWalk(next: seq<nat>, xs: seq<nat>, i: nat, steps: nat)
    requires Below(xs, |next|) && |next| <= NIL && i <= |xs| && |xs| - i <= steps
    requires forall j :: 0 <= j < |xs| ==> Follows(next, xs, j)
    ensures Walk(next, At(xs, i), steps) == xs[i..] && Stop(next, At(xs, i), steps) == NIL
    decreases steps
  {
    if i < |xs| {
      assert Follows(next, xs, i);
      ChainWalk(next, xs, i + 1, steps - 1);
    }
  }

  lemma ChainClean(s: Snapshot, q: seq<seq<nat>>, home: seq<Option<nat>>, p: nat)
    requires Shaped(s) && Spelled(s, q, home) && p < LEVELS
    ensures BucketWalk(s, p) == q[p] && BucketClean(s, p)
  {
    var xs := q[p];
    assert Chain(s.next, xs, s.head[p], s.tail[p]);
    ListFits(q, home, p);
    ChainWalk(s.next, xs, 0, |s.next|);
    if xs != [] {
      assert Follows(s.next, xs, |xs| - 1);
    }
    forall i | 0 <= i < |xs| ensures s.prio[xs[i]] == p {
      assert home[xs[i]] == Some(p);
    }
  }

  // ---- All buckets --------------------------------------------------------------------------------------

  /** The visits as one list per bucket. */
  function Walks(s: Snapshot): (q: seq<seq<nat>>)
    requires Shaped(s)
    ensures |q| == LEVELS && forall p :: 0 <= p < LEVELS ==> q[p] == BucketWalk(s, p)
  {
    seq(LEVELS, p requires 0 <= p < LEVELS => BucketWalk(s, p))
  }

  /** Which bucket a visited task belongs to, going by its priority. */
  ghost function HomesOf(s: Snapshot): (home: seq<Option<nat>>)
    requires Shaped(s)
    ensures |home| == |s.state|
    ensures forall t :: 0 <= t < |home| ==> home[t] == if t in Visited(s, LEVELS) then Some(s.prio[t]) else None
  {
    seq(|s.state|, t requires 0 <= t < |s.state| => if t in Visited(s, LEVELS) then Some(s.prio[t]) else None)
  }

  lemma {:induction false} VisitedBy(s: Snapshot, p: nat, t: nat) returns (l: nat)
    requires Shaped(s) && p <= LEVELS && t in Visited(s, p)
    ensures l < p && t in BucketWalk(s, l)
  {
    if t in BucketWalk(s, p - 1) {
      l := p - 1;
    } else {
      l := VisitedBy(s, p - 1, t);
    }
  }

  lemma PrefixFacts(vs: seq<nat>, xs: seq<nat>)
    requires NoDup(vs + xs)
    ensures NoDup(vs) && NoDup(xs)
    ensures forall i :: 0 <= i < |xs| ==> xs[i] in vs + xs
    ensures forall x :: x in vs ==> x in vs + xs
  {
    var ys := vs + xs;
    assert forall i :: 0 <= i < |xs| ==> ys[|vs| + i] == xs[i];
    assert forall i :: 0 <= i < |vs| ==> ys[i] == vs[i];
  }

  lemma {:induction false} VisitsAll(s: Snapshot, p: nat, l: nat)
    requires Shaped(s) && l < p <= LEVELS && NoDup(Visited(s, p))
    ensures NoDup(BucketWalk(s, l)) && forall i :: 0 <= i < |BucketWalk(s, l)| ==> BucketWalk(s, l)[i] in Visited(s, p)
    decreases p
  {
    hide NoDup, BucketWalk;
    PrefixFacts(Visited(s, p - 1), BucketWalk(s, p - 1));
    if l < p - 1 {
      VisitsAll(s, p - 1, l);
    }
  }

  lemma CleanLists(s: Snapshot)
    requires Shaped(s) && ListsClean(s, LEVELS)
    ensures Spelled(s, Walks(s), HomesOf(s))
  {
    hide BucketClean, Chain, Visited;
    var q, home := Walks(s), HomesOf(s);
    forall l | 0 <= l < LEVELS ensures Chain(s.next, q[l], s.head[l], s.tail[l]) && NoDup(q[l]) {
      WalkChain(s, l);
      VisitsAll(s, LEVELS, l);
    }
    forall l, i | 0 <= l < LEVELS && 0 <= i < |q[l]| ensures q[l][i] < |home| && home[q[l][i]] == Some(l) {
      VisitsAll(s, LEVELS, l);
      CleanPriority(s, l, i);
    }
    forall t | 0 <= t < |home| && home[t].Some? ensures home[t].value < LEVELS && t in q[home[t].value] {
      var l := VisitedBy(s, LEVELS, t);
      var i :| 0 <= i < |q[l]| && q[l][i] == t;
      CleanPriority(s, l, i);
    }
  }

  lemma CleanPriority(s: Snapshot, l: nat, i: nat)
    requires Shaped(s) && l < LEVELS && BucketClean(s, l) && i < |BucketWalk(s, l)|
    ensures s.prio[BucketWalk(s, l)[i]] == l
  {
  }

  /** With sound lists, the visits to the first `p` buckets are distinct and are the tasks
      those buckets hold. */
  lemma {:induction false} ListsVisited(s: Snapshot, q: seq<seq<nat>>, home: seq<Option<nat>>, p: nat)
    requires Shaped(s) && Spelled(s, q, home) && p <= LEVELS
    ensures NoDup(Visited(s, p))
    ensures forall t :: 0 <= t < |home| ==> (t in Visited(s, p) <==> home[t].Some? && home[t].value < p)
  {
    hide Linked, BucketClean;
    if p > 0 {
      ListsVisited(s, q, home, p - 1);
      ChainClean(s, q, home, p - 1);
      var vs, xs := Visited(s, p - 1), BucketWalk(s, p - 1);
      forall i, j | 0 <= i < j < |vs + xs| ensures (vs + xs)[i] != (vs + xs)[j] {
        if i < |vs| <= j {
          assert vs[i] in vs && home[xs[j - |vs|]] == Some(p - 1);
        }
      }
    }
  }

  lemma SoundLists(s: Snapshot, q: seq<seq<nat>>, home: seq<Option<nat>>)
    requires Shaped(s) && Spelled(s, q, home)
    ensures ListsClean(s, LEVELS)
    ensures forall t :: 0 <= t < |home| ==> (t in Visited(s, LEVELS) <==> home[t].Some?)
  {
    hide Linked, BucketClean;
    ListsVisited(s, q, home, LEVELS);
    forall l | 0 <= l < LEVELS ensures BucketClean(s, l) {
      ChainClean(s, q, home, l);
    }
  }

  /** Every task is owned as its state calls for, going by what the audit visits. */
  ghost predicate VisitsOwned(s: Snapshot)
    requires Shaped(s)
  {
    forall t :: 0 <= t < |s.state| ==> OwnedBy(s, t, t in Visited(s, LEVELS))
  }

  lemma SoundThenClean(s: Snapshot)
    requires Shaped(s) && Sound(s)
    ensures ListsClean(s, LEVELS) && VisitsOwned(s)
  {
    hide ListsClean, Linked, Placed, TargetKnown, HartSound, OwnedBy, Visited;
    var q: seq<seq<nat>>, home: seq<Option<nat>> :| Spelled(s, q, home) && AllOwned(s, home);
    SoundLists(s, q, home);
    forall t | 0 <= t < |s.state| ensures OwnedBy(s, t, t in Visited(s, LEVELS)) {
      assert OwnedBy(s, t, home[t].Some?);
    }
  }

  lemma CleanThenSound(s: Snapshot)
    requires Shaped(s) && TargetKnown(s) && HartSound(s) && ListsClean(s, LEVELS) && VisitsOwned(s)
    ensures Sound(s)
  {
    hide ListsClean, Linked, Placed, TargetKnown, HartSound, OwnedBy, Visited, Spelled;
    CleanLists(s);
    var q, home := Walks(s), HomesOf(s);
    forall t | 0 <= t < |home| ensures OwnedBy(s, t, home[t].Some?) {
      assert OwnedBy(s, t, t in Visited(s, LEVELS));
    }
    assert Spelled(s, q, home) && AllOwned(s, home);
  }

  /** Soundness in terms of what the audit visits. */
  lemma SoundIsClean(s: Snapshot)
    requires Shaped(s)
    ensures Sound(s) <==> TargetKnown(s) && HartSound(s) && ListsClean(s, LEVELS) && VisitsOwned(s)
  {
    hide ListsClean, VisitsOwned;
    if Sound(s) {
      SoundThenClean(s);
    }
    if TargetKnown(s) && HartSound(s) && ListsClean(s, LEVELS) && VisitsOwned(s) {
      CleanThenSound(s);
    }
  }

  // ---- What the counters count ------------------------------------------------------------------------

  const U8_MAX: nat := 255
  const NO_BUCKET: nat := 255

  function Min255(v: nat): nat { if v < U8_MAX then v else U8_MAX }

  /** Counters are bytes that saturate, so that none ever returns to zero. */
  function Bump(v: nat): (r: nat)
    ensures r != 0
  {
    if v < U8_MAX then v + 1 else U8_MAX
  }

  function One(b: bool): nat { if b then 1 else 0 }

  /** How many visits are to a task visited before. */
  function Repeats(xs: seq<nat>): nat {
    if xs == [] then 0 else Repeats(xs[..|xs| - 1]) + One(xs[|xs| - 1] in xs[..|xs| - 1])
  }

  /** How many of the visits find another priority than `p`. */
  function Misplaced(s: Snapshot, xs: seq<nat>, p: nat): nat
    requires Below(xs, |s.prio|)
  {
    if xs == [] then 0 else Misplaced(s, xs[..|xs| - 1], p) + One(s.prio[xs[|xs| - 1]] != p)
  }

  /** What is wrong with the links of one bucket: head and tail disagree on emptiness; the tail is
      wild; the walk meets a wild index; it does not end, or not at the tail; the tail has a
      successor. */
  function Faults(s: Snapshot, p: nat): nat
    requires Shaped(s) && p < LEVELS
  {
    var (head, tail, n, xs) := (s.head[p], s.tail[p], |s.next|, BucketWalk(s, p));
    var stop := Stop(s.next, head, n);
    One((head == NIL) != (tail == NIL)) + One(tail != NIL && tail >= n) + One(|xs| < n && stop != NIL)
    + One((|xs| == n && stop != NIL) || (head != NIL && LastOf(xs) != tail)) + One(tail < n && s.next[tail] != NIL)
  }

  /** Misplaced tasks and faulty links of the first `p` buckets. */
  function AllMisplaced(s: Snapshot, p: nat): nat
    requires Shaped(s) && p <= LEVELS
  {
    if p == 0 then 0 else AllMisplaced(s, p - 1) + Misplaced(s, BucketWalk(s, p - 1), p - 1)
  }

  function AllFaults(s: Snapshot, p: nat): nat
    requires Shaped(s) && p <= LEVELS
  {
    if p == 0 then 0 else AllFaults(s, p - 1) + Faults(s, p - 1)
  }

  /** The first of the first `p` buckets in which `t` is visited. */
  function FirstIn(s: Snapshot, p: nat, t: nat): nat
    requires Shaped(s) && p <= LEVELS
  {
    if p == 0 then NO_BUCKET
    else if t in Visited(s, p - 1) then FirstIn(s, p - 1, t)
    else if t in BucketWalk(s, p - 1) then p - 1 else NO_BUCKET
  }

  lemma {:induction false} RepeatsZero(xs: seq<nat>)
    ensures Repeats(xs) == 0 <==> NoDup(xs)
  {
    if xs != [] {
      var ys, x := xs[..|xs| - 1], xs[|xs| - 1];
      RepeatsZero(ys);
      assert xs == ys + [x];
      if NoDup(ys) && x !in ys {
        assert forall i :: 0 <= i < |ys| ==> ys[i] in ys && xs[i] == ys[i];
      }
      if NoDup(xs) {
        assert forall i :: 0 <= i < |ys| ==> xs[i] == ys[i];
      }
    }
  }

  lemma {:induction false} MisplacedZero(s: Snapshot, xs: seq<nat>, p: nat)
    requires Below(xs, |s.prio|)
    ensures Misplaced(s, xs, p) == 0 <==> AtPriority(s, xs, p)
  {
    if xs != [] {
      MisplacedZero(s, xs[..|xs| - 1], p);
      assert forall i :: 0 <= i < |xs| - 1 ==> xs[..|xs| - 1][i] == xs[i];
    }
  }

  lemma {:induction false} EarlyStop(next: seq<nat>, cur: nat, steps: nat)
    ensures |Walk(next, cur, steps)| < steps ==> Stop(next, cur, steps) >= |next|
    decreases steps
  {
    if steps > 0 && cur < |next| {
      EarlyStop(next, next[cur], steps - 1);
    }
  }

  lemma FaultsZero(s: Snapshot, p: nat)
    requires Shaped(s) && p < LEVELS
    ensures Faults(s, p) == 0 && Misplaced(s, BucketWalk(s, p), p) == 0 <==> BucketClean(s, p)
  {
    EarlyStop(s.next, s.head[p], |s.next|);
    MisplacedZero(s, BucketWalk(s, p), p);
  }

  /** The three counts vanish exactly if the lists are clean. */
  lemma {:induction false} CountsZero(s: Snapshot, p: nat)
    requires Shaped(s) && p <= LEVELS
    ensures Repeats(Visited(s, p)) == 0 && AllMisplaced(s, p) == 0 && AllFaults(s, p) == 0 <==> ListsClean(s, p)
  {
    hide BucketClean, Faults, Misplaced, Repeats;
    RepeatsZero(Visited(s, p));
    if p > 0 {
      CountsZero(s, p - 1);
      FaultsZero(s, p - 1);
      RepeatsZero(Visited(s, p - 1));
      if NoDup(Visited(s, p)) {
        PrefixFacts(Visited(s, p - 1), BucketWalk(s, p - 1));
      }
    }
  }

  // ---- The audit itself -----------------------------------------------------------------------------------

  datatype Report = Report(memberships: seq<nat>, buckets: seq<nat>, violations: nat, duplicates: nat, wrong: nat, invalid: nat)

  /** How often each task was visited, and in which bucket first. */
  ghost predicate Counted(memberships: seq<nat>, visits: seq<nat>) {
    forall t :: 0 <= t < |memberships| ==> memberships[t] == Min255(multiset(visits)[t])
  }

  ghost predicate Tallied(s: Snapshot, p: nat, r: Report)
    requires Shaped(s) && p <= LEVELS
  {
    && |r.memberships| == |r.buckets| == |s.state| && Counted(r.memberships, Visited(s, p))
    && (forall t :: 0 <= t < |r.buckets| ==> r.buckets[t] == FirstIn(s, p, t))
    && r.duplicates == Min255(Repeats(Visited(s, p))) && r.wrong == Min255(AllMisplaced(s, p)) && r.invalid == Min255(AllFaults(s, p))
    && r.violations == Min255(Repeats(Visited(s, p)) + AllMisplaced(s, p) + AllFaults(s, p))
  }

  /** The counters in the middle of a bucket, `path` being the visits to it so far and `faults`
      the faults found in it. */
  ghost predicate Underway(s: Snapshot, p: nat, r: Report, path: seq<nat>, faults: nat)
    requires Shaped(s) && p < LEVELS && Below(path, |s.state|)
  {
    var vs := Visited(s, p);
    && |r.memberships| == |r.buckets| == |s.state| && Counted(r.memberships, vs + path)
    && (forall t :: 0 <= t < |r.buckets| ==>
          r.buckets[t] == if t in vs then FirstIn(s, p, t) else if t in path then p else NO_BUCKET)
    && r.duplicates == Min255(Repeats(vs + path))
    && r.wrong == Min255(AllMisplaced(s, p) + Misplaced(s, path, p)) && r.invalid == Min255(AllFaults(s, p) + faults)
    && r.violations == Min255(Repeats(vs + path) + AllMisplaced(s, p) + Misplaced(s, path, p) + AllFaults(s, p) + faults)
  }

  function Fault(r: Report, b: bool): Report {
    if b then r.(invalid := Bump(r.invalid), violations := Bump(r.violations)) else r
  }

  /** One visit: count it, note the bucket of a first visit, and complain of a second one and of
      another priority. */
  function Visit(s: Snapshot, p: nat, r: Report, t: nat): Report
    requires t < |r.memberships| == |r.buckets| == |s.prio|
  {
    var again := r.memberships[t] != 0;
    var r1 := r.(memberships := r.memberships[t := Bump(r.memberships[t])]);
    var r2 := if again then r1.(duplicates := Bump(r1.duplicates), violations := Bump(r1.violations)) else r1.(buckets := r1.buckets[t := p]);
    if s.prio[t] != p then r2.(wrong := Bump(r2.wrong), violations := Bump(r2.violations)) else r2
  }

  lemma FaultCounts(s: Snapshot, p: nat, r: Report, path: seq<nat>, faults: nat, b: bool)
    requires Shaped(s) && p < LEVELS && Below(path, |s.state|) && Underway(s, p, r, path, faults)
    ensures Underway(s, p, Fault(r, b), path, faults + One(b))
  {
    hide Visited, Repeats, AllMisplaced, AllFaults, Misplaced, Counted, FirstIn;
  }

  lemma OneMore(visits: seq<nat>, t: nat)
    ensures Repeats(visits + [t]) == Repeats(visits) + One(t in visits)
    ensures multiset(visits + [t]) == multiset(visits)[t := multiset(visits)[t] + 1]
  {
    var vs := visits + [t];
    assert vs[..|vs| - 1] == visits;
  }

  lemma MisplacedMore(s: Snapshot, path: seq<nat>, p: nat, t: nat)
    requires Below(path, |s.prio|) && t < |s.prio|
    ensures Below(path + [t], |s.prio|)
    ensures Misplaced(s, path + [t], p) == Misplaced(s, path, p) + One(s.prio[t] != p)
  {
    var vs := path + [t];
    assert vs[..|vs| - 1] == path;
  }

  lemma CountedMore(ms: seq<nat>, visits: seq<nat>, t: nat)
    requires Counted(ms, visits) && t < |ms|
    ensures Counted(ms[t := Bump(ms[t])], visits + [t]) && (ms[t] != 0 <==> t in visits)
  {
    hide Repeats;
    OneMore(visits, t);
    assert t in visits <==> multiset(visits)[t] > 0;
  }

  lemma VisitCounts(s: Snapshot, p: nat, r: Report, path: seq<nat>, faults: nat, t: nat)
    requires Shaped(s) && p < LEVELS && Below(path, |s.state|) && Underway(s, p, r, path, faults) && t < |s.state|
    ensures Below(path + [t], |s.state|) && Underway(s, p, Visit(s, p, r, t), path + [t], faults)
    ensures LastOf(path + [t]) == t && forall rest: seq<nat> :: path + ([t] + rest) == (path + [t]) + rest
  {
    hide Visited, Repeats, AllMisplaced, AllFaults, Misplaced, Counted, FirstIn;
    var vs := Visited(s, p);
    CountedMore(r.memberships, vs + path, t);
    OneMore(vs + path, t);
    MisplacedMore(s, path, p, t);
    assert vs + path + [t] == vs + (path + [t]);
  }

  /** The bounded walk over one bucket, after `outside` faults in its head and tail. */
  method WalkBucket(s: Snapshot, p: nat, before: Report, ghost outside: nat) returns (r: Report, current: nat, last: nat)
    requires Shaped(s) && p < LEVELS && Underway(s, p, before, [], outside)
    ensures var (n, xs, stop) := (|s.next|, BucketWalk(s, p), Stop(s.next, s.head[p], |s.next|));
      && Underway(s, p, r, xs, outside + One(|xs| < n && stop != NIL))
      && last == LastOf(xs) && (current != NIL <==> |xs| == n && stop != NIL)
  {
    hide Visited, Underway, Fault, Visit;
    var n := |s.state|;
    ghost var path: seq<nat> := [];
    r, current, last := before, s.head[p], NIL;
    var i: nat := 0;
    while i < n
      invariant i <= n && |path| == i && Below(path, n)
      invariant BucketWalk(s, p) == path + Walk(s.next, current, n - i) && Stop(s.next, s.head[p], n) == Stop(s.next, current, n - i)
      invariant last == LastOf(path) && Underway(s, p, r, path, outside)
    {
      if current == NIL {
        break;
      }
      if current >= n {
        FaultCounts(s, p, r, path, outside, true);
        r := Fault(r, true);
        current := NIL;
        assert path == BucketWalk(s, p);
        return;
      }
      VisitCounts(s, p, r, path, outside, current);
      VisitSized(s, p, r, path, outside);
      r := Visit(s, p, r, current);
      path := path + [current];
      last := current;
      current := s.next[current];
      i := i + 1;
    }
    assert path == BucketWalk(s, p);
  }

  /** One bucket, after the earlier ones. */
  method AuditBucket(s: Snapshot, p: nat, before: Report) returns (r: Report)
    requires Shaped(s) && p < LEVELS && Tallied(s, p, before)
    ensures Tallied(s, p + 1, r)
  {
    hide Visited, Underway, Tallied, Fault, BucketWalk, Stop;
    var head, tail, n := s.head[p], s.tail[p], |s.state|;
    BucketBegins(s, p, before);
    FaultCounts(s, p, before, [], 0, (head == NIL) != (tail == NIL));
    r := Fault(before, (head == NIL) != (tail == NIL));
    ghost var faults := One((head == NIL) != (tail == NIL));
    FaultCounts(s, p, r, [], faults, tail != NIL && tail >= n);
    r := Fault(r, tail != NIL && tail >= n);
    faults := faults + One(tail != NIL && tail >= n);
    var current, last;
    r, current, last := WalkBucket(s, p, r, faults);
    ghost var xs := BucketWalk(s, p);
    faults := faults + One(|xs| < n && Stop(s.next, head, n) != NIL);
    FaultCounts(s, p, r, xs, faults, current != NIL || (head != NIL && last != tail));
    r := Fault(r, current != NIL || (head != NIL && last != tail));
    faults := faults + One(current != NIL || (head != NIL && last != tail));
    FaultCounts(s, p, r, xs, faults, tail < n && s.next[tail] != NIL);
    r := Fault(r, tail < n && s.next[tail] != NIL);
    faults := faults + One(tail < n && s.next[tail] != NIL);
    BucketEnds(s, p, r, faults);
  }

  lemma VisitSized(s: Snapshot, p: nat, r: Report, path: seq<nat>, faults: nat)
    requires Shaped(s) && p < LEVELS && Below(path, |s.state|) && Underway(s, p, r, path, faults)
    ensures |r.memberships| == |r.buckets| == |s.prio|
  {
  }

  lemma BucketBegins(s: Snapshot, p: nat, r: Report)
    requires Shaped(s) && p < LEVELS && Tallied(s, p, r)
    ensures Underway(s, p, r, [], 0)
  {
    hide Visited, Repeats, AllMisplaced, AllFaults, Counted;
    assert Visited(s, p) + [] == Visited(s, p);
    forall t | 0 <= t < |s.state| && t !in Visited(s, p) ensures FirstIn(s, p, t) == NO_BUCKET {
      FirstUnvisited(s, p, t);
    }
  }

  lemma {:induction false} FirstUnvisited(s: Snapshot, p: nat, t: nat)
    requires Shaped(s) && p <= LEVELS && t !in Visited(s, p)
    ensures FirstIn(s, p, t) == NO_BUCKET
  {
    hide BucketWalk;
  }

  lemma BucketEnds(s: Snapshot, p: nat, r: Report, faults: nat)
    requires Shaped(s) && p < LEVELS && Underway(s, p, r, BucketWalk(s, p), faults) && faults == Faults(s, p)
    ensures Tallied(s, p + 1, r)
  {
    hide Repeats, Faults, Misplaced, Counted, BucketWalk;
    assert Visited(s, p + 1) == Visited(s, p) + BucketWalk(s, p);
  }

  /** How many violations the ownership of one task adds. */
  function OwnershipViolations(s: Snapshot, t: nat, queued: nat): (v: nat)
    requires Shaped(s) && t < |s.state|
    ensures queued <= 1 ==> (v == 0 <==> OwnedBy(s, t, queued == 1))
  {
    var pending := if IsPending(s, t) then 1 else 0;
    match s.state[t]
    case Ready =>
      if t == IDLE then (if queued != 0 then 1 + pending else 0)
      else if Min255(queued + pending) != 1 then 1 else 0
    case Running => if t != s.current || queued != 0 || pending == 1 then 1 else 0
    case _ => if queued != 0 || pending == 1 then 1 else 0
  }

  /** How many of the first `n` tasks run, counted in a byte. */
  function RunningCount(s: Snapshot, n: nat): (r: nat)
    requires Shaped(s) && n <= |s.state|
    ensures r == 0 <==> forall t :: 0 <= t < n ==> s.state[t] != Running
    ensures r == 1 ==> exists t :: 0 <= t < n && s.state[t] == Running
  {
    if n == 0 then 0 else if s.state[n - 1] == Running then Bump(RunningCount(s, n - 1)) else RunningCount(s, n - 1)
  }

  lemma {:induction false} OneRuns(s: Snapshot, n: nat)
    requires Shaped(s) && n <= |s.state| && forall t :: 0 <= t < n && s.state[t] == Running ==> t == s.current
    ensures RunningCount(s, n) <= 1
  {
    if n > 0 {
      OneRuns(s, n - 1);
    }
  }

  /** The audit reports no violation if and only if the snapshot is sound. Its three counters are
      exact up to saturation: repeated visits, visits at another priority and faulty links; so are
      the visits of each task, and the bucket it is first found in. */
  method ReadyOwnershipAudit(s: Snapshot) returns (r: Report)
    requires Shaped(s)
    ensures r.violations == 0 <==> Sound(s)
    ensures |r.memberships| == |r.buckets| == |s.state| && Counted(r.memberships, Visited(s, LEVELS))
    ensures forall t :: 0 <= t < |s.state| ==> r.buckets[t] == FirstIn(s, LEVELS, t)
    ensures r.duplicates == Min255(Repeats(Visited(s, LEVELS))) && r.wrong == Min255(AllMisplaced(s, LEVELS))
    ensures r.invalid == Min255(AllFaults(s, LEVELS))
  {
    hide ListsClean, Visited, OwnedBy, OwnershipViolations, TargetKnown, Repeats, AllMisplaced, AllFaults, Counted;
    r := Report(seq(|s.state|, _ => 0), seq(|s.state|, _ => NO_BUCKET), 0, 0, 0, 0);
    NothingVisited(s, r);
    var p := 0;
    while p < LEVELS
      invariant p <= LEVELS && Tallied(s, p, r)
    {
      r := AuditBucket(s, p, r);
      p := p + 1;
    }
    CountsZero(s, LEVELS);
    var v := r.violations;
    if !TargetKnown(s) {
      v := Bump(v);
    }
    ghost var clean := ListsClean(s, LEVELS) && TargetKnown(s);
    var running, t := 0, 0;
    while t < |s.state|
      invariant t <= |s.state| && running == RunningCount(s, t)
      invariant (v == 0) == (clean && forall x :: 0 <= x < t ==> OwnedBy(s, x, x in Visited(s, LEVELS)))
    {
      if s.state[t] == Running {
        running := Bump(running);
      }
      var more := OwnershipViolations(s, t, r.memberships[t]);
      OwnershipExact(s, t, r.memberships);
      v := Min255(v + more);
      t := t + 1;
    }
    HartExact(s, running, v);
    if s.started {
      if s.pending.Some? {
        if running != 0 || s.current != s.pending.value.previous || s.current >= |s.state| || s.state[s.current] == Running {
          v := Bump(v);
        }
      } else if running != 1 || s.current >= |s.state| || s.state[s.current] != Running {
        v := Bump(v);
      }
    }
    SoundIsClean(s);
    r := r.(violations := v);
  }

  /** What the counters say: no repeats, no misplaced task and no faulty link exactly if the lists
      are disjoint, at their priorities, and well linked. */
  lemma CountersExact(s: Snapshot)
    requires Shaped(s)
    ensures Repeats(Visited(s, LEVELS)) == 0 <==> NoDup(Visited(s, LEVELS))
    ensures AllMisplaced(s, LEVELS) == 0 && AllFaults(s, LEVELS) == 0 <==> forall p :: 0 <= p < LEVELS ==> BucketClean(s, p)
  {
    hide BucketClean, Repeats, Misplaced, Faults, Visited;
    RepeatsZero(Visited(s, LEVELS));
    BucketCounts(s, LEVELS);
  }

  lemma {:induction false} BucketCounts(s: Snapshot, n: nat)
    requires Shaped(s) && n <= LEVELS
    ensures AllMisplaced(s, n) == 0 && AllFaults(s, n) == 0 <==> forall p :: 0 <= p < n ==> BucketClean(s, p)
  {
    hide BucketClean, Misplaced, Faults;
    if n > 0 {
      BucketCounts(s, n - 1);
      FaultsZero(s, n - 1);
    }
  }

  lemma NothingVisited(s: Snapshot, r: Report)
    requires Shaped(s) && |r.memberships| == |r.buckets| == |s.state|
    requires forall t :: 0 <= t < |s.state| ==> r.memberships[t] == 0 && r.buckets[t] == NO_BUCKET
    requires r.violations == r.duplicates == r.wrong == r.invalid == 0
    ensures Tallied(s, 0, r)
  {
  }

  lemma OwnershipExact(s: Snapshot, t: nat, ms: seq<nat>)
    requires Shaped(s) && t < |s.state| == |ms| && Counted(ms, Visited(s, LEVELS))
    ensures ListsClean(s, LEVELS) ==> (OwnershipViolations(s, t, ms[t]) == 0 <==> OwnedBy(s, t, t in Visited(s, LEVELS)))
  {
    hide Visited, OwnedBy, OwnershipViolations;
    if ListsClean(s, LEVELS) {
      OnceEach(Visited(s, LEVELS), t);
    }
  }

  lemma {:induction false} OnceEach(xs: seq<nat>, t: nat)
    requires NoDup(xs)
    ensures multiset(xs)[t] == One(t in xs)
  {
    if xs != [] {
      var ys, x := xs[..|xs| - 1], xs[|xs| - 1];
      assert xs == ys + [x];
      assert forall i :: 0 <= i < |ys| ==> ys[i] == xs[i];
      OnceEach(ys, t);
    }
  }

  /** Once every task is owned as its state calls for, the hart checks are exact. */
  lemma HartExact(s: Snapshot, running: nat, v: nat)
    requires Shaped(s) && running == RunningCount(s, |s.state|)
    requires v == 0 ==> forall x :: 0 <= x < |s.state| ==> OwnedBy(s, x, x in Visited(s, LEVELS))
    ensures v == 0 && s.started ==>
      (HartSound(s) <==>
        match s.pending
        case Some(sw) => !(running != 0 || s.current != sw.previous || s.current >= |s.state| || s.state[s.current] == Running)
        case None => !(running != 1 || s.current >= |s.state| || s.state[s.current] != Running))
  {
    hide Visited;
    if v == 0 {
      forall x | 0 <= x < |s.state| && s.state[x] == Running ensures x == s.current {
        assert OwnedBy(s, x, x in Visited(s, LEVELS));
      }
      OneRuns(s, |s.state|);
    }
  }
}
