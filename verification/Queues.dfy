/** The intrusive ready buckets and wait queues as the kernel updates them in place: the `next`
    links of all tasks and one head and tail per list. Each method is proved to do to the list
    contents what its name says, and to leave every other list alone. */
module Queues {
  import opened Lists
  import opened Kernel
  import opened Inheritance
  import opened Links

  class Queues {
    var next: seq<nat>
    var head: seq<nat>
    var tail: seq<nat>
    /** The contents of every list, and the list each task is in. */
    ghost var q: seq<seq<nat>>
    ghost var home: seq<Option<nat>>

    ghost predicate Valid()
      reads this
    {
      |next| == |home| && Linked(next, head, tail, q) && Placed(q, home)
    }

    /** No list holds anything. */
    constructor (n: nat, lists: nat)
      requires n <= NIL
      ensures Valid() && |home| == n && q == seq(lists, _ => [])
    {
      next, head, tail := seq(n, _ => NIL), seq(lists, _ => NIL), seq(lists, _ => NIL);
      q, home := seq(lists, _ => []), seq(n, _ => None);
    }

    /** `ready_push` at the task's priority. */
    method Append(l: nat, t: nat)
      requires Valid() && l < |q| && t < |home| && home[t].None?
      modifies this
      ensures Valid() && q == old(q)[l := old(q)[l] + [t]] && home == old(home)[t := Some(l)]
    {
      hide Linked, Placed;
      LinkedAppend(next, head, tail, q, home, l, t);
      next := next[t := NIL];
      if tail[l] == NIL {
        head := head[l := t];
      } else {
        next := next[tail[l] := t];
      }
      tail := tail[l := t];
      q, home := q[l := q[l] + [t]], home[t := Some(l)];
    }

    /** Take the first task of list `l`, or NIL. */
    method Pop(l: nat) returns (t: nat)
      requires Valid() && l < |q|
      modifies this
      ensures Valid() && (t == NIL <==> old(q)[l] == [])
      ensures t == NIL ==> q == old(q) && home == old(home)
      ensures t != NIL ==>
        t == old(q)[l][0] < |home| && q == old(q)[l := old(q)[l][1..]] && home == old(home)[t := None] && old(home)[t] == Some(l)
    {
      hide Linked, Placed;
      LinkedPop(next, head, tail, q, home, l);
      t := head[l];
      if t == NIL {
        return;
      }
      var after := next[t];
      head := head[l := after];
      if head[l] == NIL {
        tail := tail[l := NIL];
      }
      next := next[t := NIL];
      q, home := q[l := q[l][1..]], home[t := None];
    }

    /** `ready_pop`: the first task of the first non-empty bucket. */
    method PopReady() returns (t: nat)
      requires Valid() && |q| >= LEVELS
      modifies this
      ensures Valid()
      ensures var l := FirstBucket(old(q), 0);
        if l == LEVELS then t == NIL && q == old(q) && home == old(home)
        else t == old(q)[l][0] < |home| && q == old(q)[l := old(q)[l][1..]] && home == old(home)[t := None] && old(home)[t] == Some(l)
    {
      hide Linked, Placed;
      var p := 0;
      while p < LEVELS
        invariant p <= LEVELS && Valid() && q == old(q) && home == old(home)
        invariant FirstBucket(q, p) == FirstBucket(q, 0)
      {
        t := Pop(p);
        if t != NIL {
          return;
        }
        p := p + 1;
      }
      t := NIL;
    }

    /** Cut position `i` out of list `l`, given the entry before it. */
    method CutOut(l: nat, previous: nat, current: nat, ghost i: nat)
      requires Valid() && l < |q| && i < |q[l]| && current == q[l][i] < |home| && previous == Before(q[l], i)
      modifies this
      ensures Valid() && q == old(q)[l := Without(old(q)[l], current)]
      ensures home == old(home)[current := None] && old(home)[current] == Some(l)
    {
      hide Linked, Placed, Without;
      LinkedRemove(next, head, tail, q, home, l, i);
      var after := next[current];
      if previous == NIL {
        head := head[l := after];
      } else {
        next := next[previous := after];
      }
      if tail[l] == current {
        tail := tail[l := previous];
      }
      next := next[current := NIL];
      q, home := q[l := Without(q[l], current)], home[current := None];
    }

    /** What removing a task that may or may not be in list `l` leaves. */
    ghost predicate Removed(q0: seq<seq<nat>>, home0: seq<Option<nat>>, l: nat, t: nat)
      reads this
      requires l < |q0| && t < |home0|
    {
      q == q0[l := Without(q0[l], t)] && home == if home0[t] == Some(l) then home0[t := None] else home0
    }

    /** `ready_remove`: walk to the end of the bucket. */
    method Remove(l: nat, t: nat)
      requires Valid() && l < |q| && t < |home|
      modifies this
      ensures Valid() && Removed(old(q), old(home), l, t)
    {
      hide Linked, Placed, Without;
      Walked(l, t, 0);
      var previous, current := NIL, head[l];
      ghost var i := 0;
      while current != NIL
        invariant unchanged(this)
        invariant i <= |q[l]| && current == At(q[l], i) && previous == Before(q[l], i)
        invariant forall j :: 0 <= j < i ==> q[l][j] != t
        decreases |q[l]| - i
      {
        Walked(l, t, i);
        if current == t {
          CutOut(l, previous, current, i);
          return;
        }
        previous := current;
        current := next[current];
        i := i + 1;
      }
      NotThere(l, t);
    }

    /** `remove_waiter`: the walk is cut off after as many steps as there are tasks, which never
        happens before the end of the list. */
    method RemoveWaiter(l: nat, t: nat)
      requires Valid() && l < |q| && t < |home|
      modifies this
      ensures Valid() && Removed(old(q), old(home), l, t)
    {
      hide Linked, Placed, Without;
      Walked(l, t, 0);
      var previous, current, steps := NIL, head[l], 0;
      while steps < |next|
        invariant unchanged(this)
        invariant steps <= |q[l]| <= |next| && current == At(q[l], steps) && previous == Before(q[l], steps)
        invariant forall j :: 0 <= j < steps ==> q[l][j] != t
      {
        if current == NIL {
          NotThere(l, t);
          return;
        }
        Walked(l, t, steps);
        if current == t {
          CutOut(l, previous, current, steps);
          return;
        }
        previous := current;
        current := next[current];
        steps := steps + 1;
      }
      // the debug assertion of the source: the walk has reached the end
      assert current == NIL;
      NotThere(l, t);
    }

    /** Link `t` into list `l` before position `i`, given the entries around it. */
    method LinkIn(l: nat, previous: nat, current: nat, t: nat, ghost prio: seq<nat>, ghost i: nat)
      requires Valid() && l < |q| && t < |home| == |prio| && home[t].None? && Below(q[l], |prio|)
      requires i == InsertAt(q[l], t, prio) && current == At(q[l], i) && previous == Before(q[l], i)
      modifies this
      ensures Valid() && q == old(q)[l := Insert(old(q)[l], t, prio)] && home == old(home)[t := Some(l)]
    {
      hide Linked, Placed, Insert, InsertAt;
      LinkedInsert(next, head, tail, q, home, l, t, prio, i);
      next := next[t := current];
      if previous == NIL {
        head := head[l := t];
      } else {
        next := next[previous := t];
      }
      if current == NIL {
        tail := tail[l := t];
      }
      q, home := q[l := Insert(q[l], t, prio)], home[t := Some(l)];
    }

    /** `enqueue_waiter`: behind every task that is at least as urgent. */
    method Enqueue(l: nat, t: nat, prio: seq<nat>)
      requires Valid() && l < |q| && t < |home| == |prio| && home[t].None? && Below(q[l], |prio|)
      modifies this
      ensures Valid() && q == old(q)[l := Insert(old(q)[l], t, prio)] && home == old(home)[t := Some(l)]
    {
      hide Linked, Placed, Insert;
      Walked(l, t, 0);
      var previous, current := NIL, head[l];
      ghost var i := 0;
      while current != NIL && prio[current] <= prio[t]
        invariant unchanged(this)
        invariant i <= |q[l]| && current == At(q[l], i) && previous == Before(q[l], i)
        invariant forall j :: 0 <= j < i ==> prio[q[l][j]] <= prio[t]
        decreases |q[l]| - i
      {
        Walked(l, t, i);
        previous := current;
        current := next[current];
        i := i + 1;
      }
      StopsHere(l, t, prio, i);
      LinkIn(l, previous, current, t, prio, i);
    }

    /** `ready_contains`: bounded walks over all buckets find exactly the queued tasks. */
    method Contains(t: nat) returns (b: bool)
      requires Valid() && |q| >= LEVELS && t < |home|
      ensures b == exists l :: 0 <= l < LEVELS && t in q[l]
    {
      hide Linked, Placed;
      var p := 0;
      while p < LEVELS
        invariant p <= LEVELS
        invariant forall l :: 0 <= l < p ==> t !in q[l]
      {
        Walked(p, t, 0);
        var current, steps := head[p], 0;
        while steps < |next|
          invariant steps <= |q[p]| <= |next| && current == At(q[p], steps)
          invariant forall i :: 0 <= i < steps ==> q[p][i] != t
        {
          if current == NIL {
            break;
          }
          Walked(p, t, steps);
          if current == t {
            assert t == q[p][steps];
            return true;
          }
          current := next[current];
          steps := steps + 1;
        }
        assert steps == |q[p]|;
        p := p + 1;
      }
      b := false;
    }

    // ---- Facts the walks use -----------------------------------------------------------------

    lemma Walked(l: nat, t: nat, i: nat)
      requires Valid() && l < |q| && i <= |q[l]|
      ensures |head| == |tail| == |q| && head[l] == At(q[l], 0) && |q[l]| <= |next| <= NIL
      ensures forall j :: 0 <= j < |q[l]| ==> q[l][j] < |next|
      ensures i < |q[l]| ==> next[q[l][i]] == At(q[l], i + 1)
    {
      LinkedStep(next, head, tail, q, home, l, i);
    }

    lemma NotThere(l: nat, t: nat)
      requires Valid() && l < |q| && t < |home| && forall j :: 0 <= j < |q[l]| ==> q[l][j] != t
      ensures Removed(q, home, l, t)
    {
      WithoutAbsent(q[l], t);
      assert home[t] != Some(l);
    }

    lemma {:induction false} StopsHere(l: nat, t: nat, prio: seq<nat>, i: nat)
      requires l < |q| && t < |prio| && Below(q[l], |prio|) && i <= |q[l]|
      requires forall j :: 0 <= j < i ==> prio[q[l][j]] <= prio[t]
      requires i < |q[l]| ==> prio[t] < prio[q[l][i]]
      ensures i == InsertAt(q[l], t, prio)
    {
    }
  }
}
