/** The scheduler as the object the kernel mutates: one table per task-control-block field and
    the intrusive queues. Every method is proved to do what the function of the same name does
    to the abstract state; the panics and assertions of the source are assertions here. */
module Scheduler {
  import opened Lists
  import Budget
  import opened Kernel
  import opened Inheritance
  import opened Links
  import opened Queues
  import opened Chains
  import opened Runs
  import opened Invariant
  import opened Steps
  import opened MutexSteps
  import opened Preserved
  import opened PreservedMutex
  import opened PreservedHart
  import opened SchedFacts
  import opened Wakeups

  class Sched {
    var state: seq<Status>
    var wakeAt: seq<nat>
    var waitSem: seq<Option<nat>>
    var waitMtx: seq<Option<nat>>
    var granted: seq<bool>
    var grantSem: seq<Option<nat>>
    var grantMtx: seq<Option<nat>>
    var base: seq<nat>
    var prio: seq<nat>
    var inh: seq<seq<nat>>
    var lockDepth: seq<nat>
    var lockStart: seq<Option<nat>>
    var ident: seq<nat>
    var slotGen: seq<nat>
    var resume: seq<nat>
    var policy: seq<Budget.Policy>
    var budget: seq<Budget.State>
    ghost var call: seq<Call>
    var current: nat
    var pending: Option<Ticket>
    var nextSeq: nat
    var lastSeq: nat
    var slicePending: bool
    var count: seq<nat>
    var owner: seq<Option<nat>>
    var depth: seq<nat>
    const lists: Queues

    /** The abstract state: the contents of every list instead of its links. */
    ghost function View(): K
      reads this, lists
    {
      K(state, wakeAt, waitSem, waitMtx, granted, grantSem, grantMtx, base, prio, inh, lockDepth, lockStart,
        ident, slotGen, resume, policy, budget, call, current, lists.q, pending, nextSeq, lastSeq, slicePending,
        count, owner, depth)
    }

    ghost predicate Valid()
      reads this, lists
    {
      Sized(View()) && lists.Valid() && |lists.home| == |state|
    }

    /** Right after `init`: slot 0 runs, idle is ready, nothing is queued. */
    constructor (n: nat, counts: seq<nat>, mutexes: nat)
      requires 2 <= n <= SLOT_LIMIT
      ensures Valid() && View() == Boot(n, counts, mutexes)
    {
      var none: seq<Option<nat>> := Fill(n, None);
      var ids := Fill(n, 0)[0 := 1][IDLE := 1];
      state, wakeAt, waitSem, waitMtx, granted := Fill(n, Free)[0 := Running][IDLE := Ready], Fill(n, 0), none, none, Fill(n, false);
      grantSem, grantMtx, base, prio, inh := none, none, Fill(n, LEVELS - 1), Fill(n, LEVELS - 1), Fill(n, Fill(LEVELS, 0));
      lockDepth, lockStart, ident, slotGen, resume := Fill(n, 0), none, ids, ids, Fill(n, 0);
      policy, budget, call := Fill(n, Budget.Cooperative), Fill(n, Budget.Unbudgeted()), Fill(n, User);
      current, pending, nextSeq, lastSeq, slicePending := 0, None, 0, 0, false;
      count, owner, depth := counts, Fill(mutexes, None), Fill(mutexes, 0);
      lists := new Queues(n, LEVELS + |counts| + mutexes);
      new;
      assert lists.q == Fill(LEVELS + |counts| + mutexes, []);
      assert View() == Boot(n, counts, mutexes);
    }

    /** The tables have one row per task, semaphore and mutex. */
    lemma Lengths()
      requires Sized(View())
      ensures |wakeAt| == |waitSem| == |waitMtx| == |granted| == |grantSem| == |grantMtx| == |call| == |state|
      ensures |base| == |prio| == |inh| == |lockDepth| == |lockStart| == |ident| == |slotGen| == |resume| == |policy| == |budget| == |state|
      ensures |depth| == |owner| && |lists.q| == LEVELS + |count| + |owner| && current < |state| && IDLE < |state| <= SLOT_LIMIT
    {
    }

    // ---- Ready buckets -----------------------------------------------------------------------

    method ReadyPush(t: nat)
      requires Valid() && t < |state| && lists.home[t].None?
      modifies lists
      ensures Valid() && View() == Kernel.ReadyPush(old(View()), t)
      ensures lists.home == old(lists.home)[t := Some(prio[t])]
    {
      lists.Append(prio[t], t);
    }

    method MakeReady(t: nat)
      requires Valid() && t < |state| && lists.home[t].None?
      modifies this`state, lists
      ensures Valid() && View() == Kernel.MakeReady(old(View()), t)
      ensures lists.home == if t == IDLE then old(lists.home) else old(lists.home)[t := Some(prio[t])]
    {
      state := state[t := Ready];
      if t != IDLE {
        ReadyPush(t);
      }
    }

    /** `ready_pop`, with NIL for an empty machine. */
    method ReadyPop() returns (t: nat)
      requires Valid()
      modifies lists
      ensures Valid() && View() == PopReady(old(View())).0
      ensures PopReady(old(View())).1 == if t == NIL then None else Some(t)
      ensures t != NIL ==> t < |state| && forall x :: 0 <= x < |state| && x != t ==> lists.home[x] == old(lists.home)[x]
    {
      hide Placed, FirstBucket;
      t := lists.PopReady();
    }

    method ReadyPopOrIdle() returns (t: nat)
      requires Valid()
      modifies lists
      ensures Valid() && (View(), t) == PopReadyOrIdle(old(View()))
    {
      hide Placed, FirstBucket, PopReady;
      t := ReadyPop();
      if t == NIL {
        t := IDLE;
      }
    }

    // ---- Priorities ----------------------------------------------------------------------------

    /** `t` is listed where the stable rules say. */
    ghost predicate Listed(t: nat)
      reads this, lists
      requires Valid()
    {
      t < |state| && lists.home[t] == Home(View(), t) && Waiting(state, waitSem, waitMtx)
    }

    method SetEffective(t: nat, p: nat)
      requires Valid() && t < |state| && Listed(t) && p < LEVELS
      modifies this`prio, lists
      ensures Valid() && View() == Kernel.SetEffective(old(View()), t, p)
      ensures prio == old(prio)[t := p]
      ensures state[t] != Ready ==> lists.home == old(lists.home)
    {
      hide Placed, Linked, Without, Insert, Waiting, Home, Kernel.SetEffective, GoodBudgets;
      if prio[t] == p {
        assert Kernel.SetEffective(View(), t, p) == View() by { SetEffectiveSame(View(), t); }
        assert prio[t := p] == prio;
        return;
      }
      ghost var k := View();
      ghost var r := Kernel.SetEffective(k, t, p);
      SetEffectiveIs(k, t, p, lists.home);
      var queued := false;
      if state[t] == Ready {
        queued := lists.Contains(t);
      }
      if queued {
        lists.Remove(prio[t], t);
      }
      if waitSem[t].Some? {
        lists.RemoveWaiter(LEVELS + waitSem[t].value, t);
      }
      prio := prio[t := p];
      if queued {
        lists.Append(p, t);
      }
      if waitSem[t].Some? {
        lists.Enqueue(LEVELS + waitSem[t].value, t, prio);
      }
      assert View() == r;
    }

    /** The most urgent level somebody donates at, or LEVELS. */
    method LowestDonation(t: nat) returns (level: nat)
      requires Valid() && t < |state|
      ensures level == Lowest(inh[t], 0)
    {
      level := 0;
      while level < LEVELS && inh[t][level] == 0
        invariant level <= LEVELS && Lowest(inh[t], level) == Lowest(inh[t], 0)
      {
        level := level + 1;
      }
    }

    /** Change the effective priority of `t`, and its place among the waiters for a mutex. */
    method Reposition(t: nat, want: nat, ghost f: seq<nat>, ghost don: seq<Option<nat>>)
      requires Valid() && Refreshable(View(), t, f, don, lists.home) && want < LEVELS
      modifies this`prio, lists
      ensures Valid() && View() == Reseat(old(View()), t, want)
    {
      hide Placed, Without, Insert, Refreshable, Home, Waiting, Kernel.SetEffective;
      RefreshStarts(View(), t, f, don, lists.home);
      ghost var r := Reseat(View(), t, want);
      SetEffective(t, want);
      if waitMtx[t].Some? {
        lists.RemoveWaiter(LEVELS + |count| + waitMtx[t].value, t);
        lists.Enqueue(LEVELS + |count| + waitMtx[t].value, t, prio);
      }
      assert View() == r;
    }

    /** `refresh_inherited_priority`: along the chain of mutex owners. The depth assertion and
        the two count checks of the source never fail. */
    method Refresh(t: nat, d: nat, ghost f: seq<nat>, ghost don: seq<Option<nat>>)
      requires Valid() && Refreshable(View(), t, f, don, lists.home) && f[t] + d < |state|
      modifies this`prio, this`inh, lists
      ensures Valid() && View() == Kernel.Refresh(old(View()), t, |state| - d)
      decreases |state| - d, 1
    {
      hide Placed, Linked, Refreshable, Home, Waiting, Kernel.Refresh, Reseat;
      ghost var k, home := View(), lists.home;
      RefreshStarts(k, t, f, don, home);
      assert d < |state|;
      RefreshUnfolds(k, t, |state| - d);
      var was := prio[t];
      var level := LowestDonation(t);
      var want := if level < base[t] then level else base[t];
      if was != want {
        Reposition(t, want, f, don);
        PassOn(t, was, want, d, k, f, don, home);
      }
    }

    /** The task is repositioned; its owner, if it waits for a mutex, is told. */
    method PassOn(t: nat, was: nat, want: nat, d: nat, ghost k: K, ghost f: seq<nat>, ghost don: seq<Option<nat>>, ghost home: seq<Option<nat>>)
      requires Valid() && Refreshable(k, t, f, don, home) && N(k) == |state| && f[t] + d < |state|
      requires was == k.prio[t] != want == Effective(k.base[t], k.inh[t]) && View() == Reseat(k, t, want)
      modifies this`prio, this`inh, lists
      ensures Valid() && View() == Kernel.Refresh(k, t, |state| - d)
      decreases |state| - d, 0
    {
      hide Placed, Linked, Refreshable, Kernel.Refresh, Reseat, Moves, Rebooked, Effective, Home, Waiting, Kernel.SetEffective, Without;
      RefreshStarts(k, t, f, don, home);
      RefreshUnfolds(k, t, |state| - d);
      if waitMtx[t].Some? && owner[waitMtx[t].value].Some? {
        HopReady(k, View(), t, want, f, don, home, lists.home);
        ReplaceInheritance(owner[waitMtx[t].value].value, was, want, d + 1, Rebooked(k, t), f, don);
      }
    }

    method ReplaceInheritance(o: nat, was: nat, want: nat, d: nat, ghost b: K, ghost f: seq<nat>, ghost don: seq<Option<nat>>)
      requires Valid() && Moves(View(), b, o, was, want)
      requires Refreshable(b, o, f, don, lists.home) && f[o] + d < |state|
      modifies this`prio, this`inh, lists
      ensures Valid() && View() == Kernel.Refresh(b, o, |state| - d)
      decreases |state| - d, 2
    {
      hide Refreshable, Kernel.Refresh;
      assert inh[o][was] >= 1;
      inh := inh[o := inh[o][was := inh[o][was] - 1]];
      assert inh[o][want] < 255;
      inh := inh[o := inh[o][want := inh[o][want] + 1]];
      assert View() == b;
      Refresh(o, d, f, don);
    }

    method AddInheritance(o: nat, p: nat, ghost f: seq<nat>, ghost don: seq<Option<nat>>)
      requires Valid() && o < |state| && p < LEVELS && Below(f, |state|)
      requires Refreshable(Bump(View(), o, p), o, f, don, lists.home)
      modifies this`prio, this`inh, lists
      ensures Valid() && View() == Kernel.AddInheritance(old(View()), o, p)
      ensures Refreshed(Bump(old(View()), o, p), View(), o, f, don, old(lists.home)) && lists.home == Rehome(old(lists.home), prio)
    {
      hide Refreshable, Refreshed, Placed, Linked, Rehome, Kernel.Refresh;
      ghost var b, home := Bump(View(), o, p), lists.home;
      RefreshStarts(b, o, f, don, home);
      CountFits(b, o, p, f, don, home);
      assert inh[o][p] < 255;
      inh := inh[o := inh[o][p := inh[o][p] + 1]];
      assert View() == b;
      Refresh(o, 0, f, don);
      RefreshEnds(b, o, |state|, f, don, home, lists.home);
    }

    method RemoveInheritance(o: nat, p: nat, ghost f: seq<nat>, ghost don: seq<Option<nat>>)
      requires Valid() && o < |state| && p < LEVELS && Below(f, |state|) && inh[o][p] >= 1
      requires Refreshable(Drop(View(), o, p), o, f, don, lists.home)
      modifies this`prio, this`inh, lists
      ensures Valid() && View() == Kernel.RemoveInheritance(old(View()), o, p)
      ensures Refreshed(Drop(old(View()), o, p), View(), o, f, don, old(lists.home)) && lists.home == Rehome(old(lists.home), prio)
    {
      hide Refreshable, Refreshed, Placed, Linked, Rehome, Kernel.Refresh;
      ghost var b, home := Drop(View(), o, p), lists.home;
      RefreshStarts(b, o, f, don, home);
      inh := inh[o := inh[o][p := inh[o][p] - 1]];
      assert View() == b;
      Refresh(o, 0, f, don);
      RefreshEnds(b, o, |state|, f, don, home, lists.home);
    }

    /** `mutex_chain_contains`: as many hops as there are tasks, then assume the worst. */
    method MutexChainContains(t: nat, sought: nat) returns (b: bool)
      requires Valid() && t < |state|
      ensures b == ChainContains(View(), t, sought, |state|)
    {
      var at: nat, steps: nat := t, 0;
      while steps < |state|
        invariant steps <= |state| && at < |state|
        invariant ChainContains(View(), at, sought, |state| - steps) == ChainContains(View(), t, sought, |state|)
      {
        if at == sought {
          return true;
        }
        if waitMtx[at].None? {
          return false;
        }
        if owner[waitMtx[at].value].None? {
          return false;
        }
        at := owner[waitMtx[at].value].value;
        steps := steps + 1;
      }
      b := true;
    }

    // ---- Switch tickets ------------------------------------------------------------------------

    /** `prepare_switch_intent` with its two assertions. */
    method PrepareIntent(previous: nat, target: nat) returns (i: Intent)
      requires Valid() && previous < |state| && target < |state| && pending.None?
      requires target == previous || target == IDLE || (state[target] == Ready && !InReady(View(), target))
      modifies this`nextSeq
      ensures View() == old(View()).(nextSeq := old(nextSeq) + 1)
      ensures i == Intent(nextSeq, previous, ident[previous], target, ident[target], resume[previous])
    {
      assert pending.None?;
      var contained := lists.Contains(target);
      assert target == previous || target == IDLE || (state[target] == Ready && !contained);
      nextSeq := nextSeq + 1;
      i := Intent(nextSeq, previous, ident[previous], target, ident[target], resume[previous]);
    }

    /** Whether an intent still describes its source and target. */
    predicate Fresh(i: Intent)
      reads this
    {
      && i.previous < |ident| && ident[i.previous] == i.previousIdent && i.target < |ident| && ident[i.target] == i.targetIdent
      && i.previous < |resume| && i.previous < |state|
      && current == i.previous && resume[i.previous] == i.previousResume && state[i.previous] != Running
    }

    /** `restore_detached_switch_target`. */
    method Restore(target: nat)
      requires Valid() && target < |state| && (state[target] == Ready && !InReady(View(), target) ==> lists.home[target].None?)
      modifies lists
      ensures Valid() && View() ==
        if target != IDLE && state[target] == Ready && !InReady(old(View()), target) then Kernel.ReadyPush(old(View()), target) else old(View())
    {
      if target != IDLE && state[target] == Ready {
        var contained := lists.Contains(target);
        if !contained {
          ReadyPush(target);
        }
      }
    }

    /** `commit_switch_intent`, for an intent prepared at any earlier time: it commits exactly
        when source and target are still what they were, and otherwise gives the target back. */
    method CommitIntent(i: Intent) returns (ok: bool)
      requires Valid() && i.previous < |state| && i.target < |state| && (Fresh(i) ==> pending.None?)
      requires !Fresh(i) && state[i.target] == Ready && !InReady(View(), i.target) ==> lists.home[i.target].None?
      modifies this`pending, lists
      ensures Valid() && ok == old(Fresh(i))
      ensures ok ==> View() == old(View()).(pending := Some(Ticket(i.sequence, i.previous, i.previousIdent, i.target, i.targetIdent)))
      ensures !ok && ident[i.target] == i.targetIdent && i.target != IDLE && state[i.target] == Ready && !InReady(old(View()), i.target)
        ==> View() == Kernel.ReadyPush(old(View()), i.target)
      ensures !ok && !(ident[i.target] == i.targetIdent && i.target != IDLE && state[i.target] == Ready && !InReady(old(View()), i.target))
        ==> View() == old(View())
    {
      hide InReady;
      if ident[i.previous] != i.previousIdent || ident[i.target] != i.targetIdent {
        if ident[i.target] == i.targetIdent {
          Restore(i.target);
        }
        return false;
      }
      if current != i.previous || resume[i.previous] != i.previousResume || state[i.previous] == Running {
        Restore(i.target);
        return false;
      }
      assert pending.None?;
      pending := Some(Ticket(i.sequence, i.previous, i.previousIdent, i.target, i.targetIdent));
      ok := true;
    }

    /** Prepare and commit inside one critical section: `prepare_committed_switch_intent`, whose
        assertion that the fresh intent commits never fails. */
    method CommitSwitch(target: nat)
      requires Valid() && pending.None? && target < |state| && state[current] != Running
      requires target == current || target == IDLE || (state[target] == Ready && !InReady(View(), target))
      modifies this`pending, this`nextSeq, lists
      ensures Valid() && View() == Commit(old(View()), target)
    {
      hide InReady, Placed, Linked;
      var intent := PrepareIntent(current, target);
      var ok := CommitIntent(intent);
      assert ok;
    }

    /** `prepare_switch_away_decision`, committed in the same critical section. Only a caller
        whose task was resumed in the meantime is turned away; a fresh one always succeeds. */
    method PrepareSwitchAway(previous: nat, expectedResume: nat) returns (committed: bool)
      requires Valid() && Core(View()) && pending.None? && previous < |state|
      modifies this`pending, this`nextSeq, lists
      ensures Valid()
      ensures committed == (current == previous && state[previous] != Running && resume[previous] == expectedResume)
      ensures View() == if committed then SwitchAway(old(View())) else old(View())
    {
      hide Core, FirstBucket, PopReadyOrIdle, InReady, Placed, Linked;
      if current != previous || state[previous] == Running || resume[previous] != expectedResume {
        return false;
      }
      SwitchAwayIs(View());
      var target := ReadyPopOrIdle();
      CommitSwitch(target);
      committed := true;
    }

    method PopList(l: nat) returns (t: nat)
      requires Valid() && l < |lists.q|
      modifies lists
      ensures Valid() && (t == NIL <==> old(lists.q)[l] == [])
      ensures t == NIL ==> View() == old(View())
      ensures t != NIL ==>
        t == old(lists.q)[l][0] < |state| && View() == old(View()).(q := old(lists.q)[l := old(lists.q)[l][1..]])
        && lists.home == old(lists.home)[t := None]
    {
      hide Placed, Linked;
      t := lists.Pop(l);
    }

    method RemoveFrom(l: nat, t: nat)
      requires Valid() && l < |lists.q| && t < |state| && lists.home[t] == Some(l)
      modifies lists
      ensures Valid() && View() == old(View()).(q := old(lists.q)[l := Without(old(lists.q)[l], t)])
      ensures lists.home == old(lists.home)[t := None]
    {
      hide Placed, Linked, Without;
      lists.RemoveWaiter(l, t);
    }

    // ---- Stable states ---------------------------------------------------------------------------

    /** Between critical sections. */
    ghost predicate Stable()
      reads this, lists
    {
      Valid() && Inv(View()) && lists.home == Homes(View())
    }

    lemma Settles()
      requires Valid() && Inv(View())
      ensures Stable()
    {
      hide Linked, Side, WaitSorted, Ledger, Effective, Acyclic;
      PlacedUnique(lists.q, lists.home, Homes(View()));
    }

    // ---- Semaphores --------------------------------------------------------------------------------

    // Field updates, as one task's control block sees them.

    method SetState(t: nat, s: Status)
      requires t < |state|
      modifies this`state
      ensures View() == old(View()).(state := old(View()).state[t := s])
    {
      state := state[t := s];
    }

    method SetWakeAt(t: nat, at: nat)
      requires t < |wakeAt|
      modifies this`wakeAt
      ensures View() == old(View()).(wakeAt := old(View()).wakeAt[t := at])
    {
      wakeAt := wakeAt[t := at];
    }

    method SetGranted(t: nat, b: bool)
      requires t < |granted|
      modifies this`granted
      ensures View() == old(View()).(granted := old(View()).granted[t := b])
    {
      granted := granted[t := b];
    }

    method SetWaitSem(t: nat, s: Option<nat>)
      requires t < |waitSem|
      modifies this`waitSem
      ensures View() == old(View()).(waitSem := old(View()).waitSem[t := s])
    {
      waitSem := waitSem[t := s];
    }

    method SetGrantSem(t: nat, s: Option<nat>)
      requires t < |grantSem|
      modifies this`grantSem
      ensures View() == old(View()).(grantSem := old(View()).grantSem[t := s])
    {
      grantSem := grantSem[t := s];
    }

    method SetWaitMtx(t: nat, m: Option<nat>)
      requires t < |waitMtx|
      modifies this`waitMtx
      ensures View() == old(View()).(waitMtx := old(View()).waitMtx[t := m])
    {
      waitMtx := waitMtx[t := m];
    }

    method SetGrantMtx(t: nat, m: Option<nat>)
      requires t < |grantMtx|
      modifies this`grantMtx
      ensures View() == old(View()).(grantMtx := old(View()).grantMtx[t := m])
    {
      grantMtx := grantMtx[t := m];
    }

    method SetOwner(m: nat, o: Option<nat>)
      requires m < |owner|
      modifies this`owner
      ensures View() == old(View()).(owner := old(View()).owner[m := o])
    {
      owner := owner[m := o];
    }

    method SetDepth(m: nat, d: nat)
      requires m < |depth|
      modifies this`depth
      ensures View() == old(View()).(depth := old(View()).depth[m := d])
    {
      depth := depth[m := d];
    }

    method SetLockDepth(t: nat, d: nat)
      requires t < |lockDepth|
      modifies this`lockDepth
      ensures View() == old(View()).(lockDepth := old(View()).lockDepth[t := d])
    {
      lockDepth := lockDepth[t := d];
    }

    method SetLockStart(t: nat, at: Option<nat>)
      requires t < |lockStart|
      modifies this`lockStart
      ensures View() == old(View()).(lockStart := old(View()).lockStart[t := at])
    {
      lockStart := lockStart[t := at];
    }

    method SetBudget(t: nat, b: Budget.State)
      requires t < |budget|
      modifies this`budget
      ensures View() == old(View()).(budget := old(View()).budget[t := b])
    {
      budget := budget[t := b];
    }

    method SetBase(t: nat, p: nat)
      requires t < |base|
      modifies this`base
      ensures View() == old(View()).(base := old(View()).base[t := p])
    {
      base := base[t := p];
    }

    method SetPrio(t: nat, p: nat)
      requires t < |prio|
      modifies this`prio
      ensures View() == old(View()).(prio := old(View()).prio[t := p])
    {
      prio := prio[t := p];
    }

    method SetInherited(t: nat, counts: seq<nat>)
      requires t < |inh|
      modifies this`inh
      ensures View() == old(View()).(inh := old(View()).inh[t := counts])
    {
      inh := inh[t := counts];
    }

    method SetIdent(t: nat, g: nat)
      requires t < |ident|
      modifies this`ident
      ensures View() == old(View()).(ident := old(View()).ident[t := g])
    {
      ident := ident[t := g];
    }

    method SetSlotGen(t: nat, g: nat)
      requires t < |slotGen|
      modifies this`slotGen
      ensures View() == old(View()).(slotGen := old(View()).slotGen[t := g])
    {
      slotGen := slotGen[t := g];
    }

    method SetPolicyOf(t: nat, p: Budget.Policy)
      requires t < |policy|
      modifies this`policy
      ensures View() == old(View()).(policy := old(View()).policy[t := p])
    {
      policy := policy[t := p];
    }

    ghost method SetCall(t: nat, c: Call)
      requires t < |call|
      modifies this`call
      ensures View() == old(View()).(call := old(View()).call[t := c])
    {
      call := call[t := c];
    }

    /** Record that `t` no longer waits for a semaphore, with or without its grant. */
    method EndSemWait(t: nat, grant: bool)
      requires Sized(View()) && t < |state|
      modifies this`wakeAt, this`grantSem, this`waitSem, this`granted
      ensures View() == SemEnded(old(View()), t, grant)
    {
      hide Sized;
      Lengths();
      SetWakeAt(t, 0);
      SetGrantSem(t, if grant then waitSem[t] else None);
      SetWaitSem(t, None);
      SetGranted(t, grant);
    }

    /** A popped waiter has its permit and is ready. */
    method HandPermit(waiter: nat)
      requires Valid() && waiter < |state| && lists.home[waiter].None?
      modifies this`wakeAt, this`grantSem, this`waitSem, this`granted, this`state, lists
      ensures Valid() && View() == Kernel.MakeReady(SemEnded(old(View()), waiter, true), waiter)
    {
      hide Placed, Linked;
      EndSemWait(waiter, true);
      MakeReady(waiter);
    }

    /** `release_semaphore_locked`. */
    method ReleaseSemaphore(s: nat)
      requires Stable() && s < |count|
      modifies this`count, this`wakeAt, this`grantSem, this`waitSem, this`granted, this`state, lists
      ensures Stable() && View() == ReleaseSem(old(View()), s)
    {
      hide Core, Side, Placed, Linked, Homes, SemEnded, Kernel.MakeReady, ReleaseSem;
      ReleaseSemIs(View(), s);
      ReleaseSemKeeps(View(), s);
      var waiter := PopList(LEVELS + s);
      if waiter == NIL {
        count := count[s := count[s] + 1];
      } else {
        HandPermit(waiter);
      }
      Settles();
    }

    /** Take a waiter out of its semaphore queue without a grant: timeout and cancellation. */
    method LeaveSemaphore(t: nat)
      requires Stable() && t < |state| && waitSem[t].Some?
      modifies this`wakeAt, this`grantSem, this`waitSem, this`granted, this`state, lists
      ensures Stable() && View() == LeaveSem(old(View()), t)
    {
      hide Core, Side, Placed, Linked, Without;
      ghost var k := View();
      LeaveSemKeeps(k, t);
      WaitingHome(k, t);
      RemoveFrom(LEVELS + waitSem[t].value, t);
      EndSemWait(t, false);
      MakeReady(t);
      assert View() == LeaveSem(k, t);
      Settles();
    }

    /** Record that the current task waits for semaphore `s`. */
    method StartSemWait(s: nat, patience: Patience)
      requires Sized(View()) && s < |count|
      modifies this`state, this`wakeAt, this`waitSem, this`granted, this`call
      ensures View() == SemQueued(old(View()), s, patience).(q := old(View()).q)
    {
      hide Sized, Insert;
      Lengths();
      SetState(current, Blocked);
      SetWakeAt(current, if patience.Until? then patience.deadline else 0);
      SetWaitSem(current, Some(s));
      SetGranted(current, false);
      SetCall(current, InSemaphore);
    }

    /** Block on semaphore `s`: queue up and hand the hart over. */
    method BlockOnSemaphore(s: nat, patience: Patience)
      requires Stable() && s < |count| && InUserCode(View())
      modifies this, lists
      ensures Valid() && View() == SwitchAway(SemQueued(old(View()), s, patience))
    {
      hide Core, Side, Placed, Linked, Insert, SwitchAway, InUserCode, Homes;
      ghost var k := View();
      SemDownMid(k, s, patience);
      var c, generation := current, resume[current];
      StartSemWait(s, patience);
      lists.Enqueue(LEVELS + s, c, prio);
      assert View() == SemQueued(k, s, patience);
      var committed := PrepareSwitchAway(c, generation);
      assert committed;
    }

    /** `down` and `down_timeout` up to the switch: a permit, a refusal, or a place in the queue
        and a committed ticket. */
    method SemaphoreDown(s: nat, patience: Patience, deliverable: bool) returns (reply: Reply)
      requires Stable() && s < |count| && (deliverable ==> InUserCode(View()) && current != IDLE)
      modifies this, lists
      ensures Stable() && (View(), reply) == SemDown(old(View()), s, patience, deliverable)
    {
      hide Core, Side, Placed, Linked, Insert, SwitchAway, InUserCode, Homes;
      ghost var k := View();
      SemDownKeeps(k, s, patience, deliverable);
      if count[s] > 0 {
        count := count[s := count[s] - 1];
        reply := Acquired;
      } else if patience.NoWait? {
        reply := TimedOut;
      } else if !deliverable || lockDepth[current] != 0 {
        reply := Refused;
      } else {
        BlockOnSemaphore(s, patience);
        reply := Suspended;
      }
      assert (View(), reply) == SemDown(k, s, patience, deliverable);
      Settles();
    }

    /** The critical section a resumed wait ends with. */
    method ConsumeSemaphore() returns (reply: Reply)
      requires Stable() && state[current] == Running && call[current] == InSemaphore
      modifies this`granted, this`grantSem, this`grantMtx, this`call
      ensures Stable() && (View(), reply) == ConsumeSem(old(View()))
    {
      hide Core, Side, Placed, Linked, Homes;
      ConsumeSemKeeps(View());
      reply := Consume(true);
      Settles();
    }

    /** Clear the grant the current task's wait ended with, if any. */
    method Consume(semaphore: bool) returns (reply: Reply)
      requires Sized(View())
      modifies this`granted, this`grantSem, this`grantMtx, this`call
      ensures (View(), reply) == if semaphore then ConsumeSem(old(View())) else ConsumeMtx(old(View()))
    {
      hide Sized;
      Lengths();
      reply := if granted[current] then Acquired else TimedOut;
      SetGranted(current, false);
      if semaphore {
        SetGrantSem(current, None);
      } else {
        SetGrantMtx(current, None);
      }
      SetCall(current, User);
    }

    // ---- Mutexes ---------------------------------------------------------------------------------

    /** Take back what the first task of `ws` donated to the releasing task. */
    method TakeBack(o: nat, p: nat, ghost ws: seq<nat>, ghost don: seq<Option<nat>>, ghost l: nat)
      requires Valid() && Releasing(View(), o, ws, don, lists.home) && ws != [] && p == prio[ws[0]]
      requires LEVELS <= l < |lists.q| && forall i :: 0 <= i < |lists.q[l]| ==> Hop(View(), lists.q[l][i]) == Some(o)
      modifies this`prio, this`inh, lists
      ensures Valid() && View() == Kernel.RemoveInheritance(old(View()), o, p)
      ensures Releasing(View(), o, ws[1..], don[ws[0] := None], lists.home) && lists.q[l] == old(lists.q[l])
      ensures lists.home == Rehome(old(lists.home), prio)
      ensures forall i :: 0 <= i < |lists.q[l]| ==> Hop(View(), lists.q[l][i]) == Some(o)
    {
      hide Placed, Linked, Mid, Refreshable, Refreshed, Kernel.Refresh, Rehome, Acyclic, Priced, Home, Hop;
      ghost var k, home := View(), lists.home;
      ghost var g := TakeBackStarts(k, o, ws, don, home, l);
      RemoveInheritance(o, p, g, don[ws[0] := None]);
      ReleaseOne(k, o, ws, don, home);
      forall i | 0 <= i < |lists.q[l]| ensures Hop(View(), lists.q[l][i]) == Some(o) {
        RepricedHop(k, View(), lists.q[l][i]);
      }
    }

    /** The donations of `ws[..i]` have been taken back since state `k`; the queue itself is
        as it was. */
    ghost predicate TakingBack(k: K, o: nat, ws: seq<nat>, i: nat, don: seq<Option<nat>>, l: nat)
      reads this, lists
    {
      && Valid() && Sized(k) && Repriced(k, View()) && N(k) == |state| && o < N(k) && Below(ws, N(k)) && i <= |ws|
      && LEVELS <= l < |lists.q| && lists.q[l] == ws
      && Releasing(View(), o, ws[i..], don, lists.home)
      && (forall j :: 0 <= j < |ws| ==> Hop(View(), ws[j]) == Some(o))
      && RemoveAll(View(), o, ws[i..]) == RemoveAll(k, o, ws)
    }

    method TakeBackNext(o: nat, waiter: nat, ghost k: K, ghost ws: seq<nat>, ghost i: nat, ghost don: seq<Option<nat>>, ghost l: nat)
      returns (after: nat)
      requires TakingBack(k, o, ws, i, don, l) && i < |ws| && waiter == ws[i] < |don|
      modifies this`prio, this`inh, lists
      ensures TakingBack(k, o, ws, i + 1, don[waiter := None], l) && after == At(ws, i + 1)
    {
      hide Placed, Linked, Releasing, RemoveAll, Kernel.RemoveInheritance, Hop, AllBelow, Wide, InRange;
      RemoveAllUnfolds(View(), o, ws[i..]);
      TakeBack(o, prio[waiter], ws[i..], don, l);
      assert ws[i..][1..] == ws[i+1..];
      lists.Walked(l, 0, i);
      after := lists.next[waiter];
    }

    /** Take back what every task left in the queue donated, walking the queue while other
        queues are re-sorted. */
    method TakeBackAll(l: nat, o: nat, ghost ws: seq<nat>, ghost don: seq<Option<nat>>)
      requires Valid() && LEVELS <= l < |lists.q| && lists.q[l] == ws && Releasing(View(), o, ws, don, lists.home)
      modifies this`prio, this`inh, lists
      ensures Valid() && View() == RemoveAll(old(View()), o, ws) && lists.q[l] == ws
      ensures Releasing(View(), o, [], Undonated(don, ws), lists.home) && lists.home == Rehome(old(lists.home), prio)
    {
      hide Placed, Linked, Releasing, RemoveAll;
      ghost var k, home := View(), lists.home;
      ReleasingFacts(k, o, ws, don, home);
      assert ws[0..] == ws;
      lists.Walked(l, 0, 0);
      var waiter := lists.head[l];
      ghost var i, don' := 0, don;
      while waiter != NIL
        invariant i <= |ws| && waiter == At(ws, i) && |don'| == N(k) && TakingBack(k, o, ws, i, don', l)
        decreases |ws| - i
      {
        hide TakingBack;
        ghost var w := waiter;
        waiter := TakeBackNext(o, waiter, k, ws, i, don', l);
        i, don' := i + 1, don'[w := None];
      }
      NotNil(ws, i, |state|);
      RemoveAllUnfolds(View(), o, []);
      ReleasedHome(k, View(), o, ws, don, home, lists.home);
    }

    /** The tasks `ws[i..]` of queue `l` have yet to donate to the new owner. */
    ghost predicate GivingBack(k: K, o: nat, ws: seq<nat>, i: nat, don: seq<Option<nat>>, l: nat)
      reads this, lists
    {
      && Valid() && Sized(k) && N(k) == |state| && o < N(k) && Below(ws, N(k)) && i <= |ws|
      && View() == k.(inh := inh) && l < |lists.q| && lists.q[l] == ws
      && Giving(View(), o, ws[i..], don, lists.home)
      && AddAll(View(), o, ws[i..]) == AddAll(k, o, ws)
    }

    method GiveNext(o: nat, waiter: nat, ghost k: K, ghost ws: seq<nat>, ghost i: nat, ghost don: seq<Option<nat>>, ghost l: nat)
      returns (after: nat)
      requires GivingBack(k, o, ws, i, don, l) && i < |ws| && waiter == ws[i] < |don|
      modifies this`prio, this`inh, lists
      ensures GivingBack(k, o, ws, i + 1, don[waiter := Some(o)], l) && after == At(ws, i + 1)
    {
      hide Placed, Linked, Giving, AddAll, Kernel.AddInheritance, Refreshable, Refreshed, Rehome, AllBelow, Wide, InRange;
      ghost var g := GiveOne(View(), o, ws[i..], don, lists.home);
      AddAllUnfolds(View(), o, ws[i..]);
      AddInheritance(o, prio[waiter], g, don[waiter := Some(o)]);
      assert ws[i..][1..] == ws[i+1..];
      GivingHome(View(), o, ws[i+1..], don[waiter := Some(o)], old(lists.home), lists.home);
      lists.Walked(l, 0, i);
      after := lists.next[waiter];
    }

    /** The waiters left in queue `l` donate to the new owner. */
    method GiveAll(l: nat, o: nat, ghost ws: seq<nat>, ghost don: seq<Option<nat>>)
      requires Valid() && l < |lists.q| && lists.q[l] == ws && Giving(View(), o, ws, don, lists.home)
      modifies this`prio, this`inh, lists
      ensures Valid() && View() == AddAll(old(View()), o, ws)
    {
      hide Placed, Linked, Giving, AddAll;
      ghost var k := View();
      GivingHome(k, o, ws, don, lists.home, lists.home);
      assert ws[0..] == ws;
      lists.Walked(l, 0, 0);
      var waiter := lists.head[l];
      ghost var i, don' := 0, don;
      while waiter != NIL
        invariant i <= |ws| && waiter == At(ws, i) && |don'| == N(k) && GivingBack(k, o, ws, i, don', l)
        decreases |ws| - i
      {
        hide GivingBack;
        ghost var w := waiter;
        waiter := GiveNext(o, waiter, k, ws, i, don', l);
        i, don' := i + 1, don'[w := Some(o)];
      }
      NotNil(ws, i, |state|);
      AddAllUnfolds(View(), o, []);
    }

    /** Direct handoff: `next` owns the mutex once before it runs again. */
    method HandTo(m: nat, next: nat)
      requires Sized(View()) && m < |owner| && next < |state|
      modifies this`owner, this`depth, this`grantMtx, this`waitMtx, this`wakeAt, this`granted
      ensures View() == HandedTo(old(View()), m, next)
    {
      hide Sized;
      Lengths();
      SetOwner(m, Some(next));
      SetDepth(m, 1);
      SetGrantMtx(next, waitMtx[next]);
      SetWaitMtx(next, None);
      SetWakeAt(next, 0);
      SetGranted(next, true);
    }

    /** `release_mutex_locked`: drop the donations to the old owner, hand over to the first
        waiter, and let the others donate to it. */
    method ReleaseMutex(m: nat, o: nat)
      requires Valid() && Core(View()) && lists.home == Homes(View()) && m < |owner| && owner[m] == Some(o)
      requires forall x :: 0 <= x < |state| && waitMtx[x].Some? ==> x != IDLE && !IsTarget(View(), x)
      modifies this`owner, this`depth, this`grantMtx, this`waitMtx, this`wakeAt, this`granted, this`state, this`prio, this`inh, lists
      ensures Valid() && View() == Kernel.ReleaseMutex(old(View()), m, o)
    {
      hide Placed, Linked, Core, Releasing, Giving, RemoveAll, AddAll, Grant, Rehome, Homes, Kernel.RemoveInheritance, AllBelow, Wide, Home, Hop;
      ghost var k := View();
      var l := LEVELS + |count| + m;
      var next := PopList(l);
      if next == NIL {
        owner := owner[m := None];
      } else {
        HandOff(m, o, next, k);
      }
    }

    /** The queue's head has been popped from state `k`. */
    ghost predicate Popped(k: K, m: nat, o: nat)
      reads this, lists
    {
      && Sized(k) && Core(k) && m < |k.owner| && k.owner[m] == Some(o) && N(k) == |state| && Valid()
      && var l := MtxList(k, m);
         k.q[l] != [] && View() == k.(q := k.q[l := k.q[l][1..]]) && lists.home == Homes(k)[k.q[l][0] := None]
    }

    lemma PoppedFacts(k: K, m: nat, o: nat)
      requires Popped(k, m, o)
      ensures var (l, ws) := (MtxList(k, m), k.q[MtxList(k, m)]);
        && Valid() && N(k) == |state| && l == LEVELS + |count| + m < |lists.q| && ws != [] && ws[0] < |state| && o < |state|
        && lists.q[l] == ws[1..] && m < |owner| && Below(ws, |state|)
        && Releasing(View(), o, ws, Edges(k), lists.home)
        && (forall i :: 0 <= i < |lists.q[l]| ==> Hop(View(), lists.q[l][i]) == Some(o))
        && View() == k.(q := View().q) && View().q == k.q[l := ws[1..]]
        && RemoveAll(View(), o, ws) == RemoveAll(Kernel.RemoveInheritance(View(), o, prio[ws[0]]), o, ws[1..])
        && Kernel.ReleaseMutex(k, m, o) == AddAll(Grant(RemoveAll(View(), o, ws), m, ws[0]), ws[0], ws[1..])
    {
      hide Linked, Placed, Core, Releasing, RemoveAll, Kernel.RemoveInheritance, Home, Hop, AddAll, Grant, Kernel.ReleaseMutex;
      var ws := k.q[MtxList(k, m)];
      ReleaseStarts(k, m, o);
      ReleasingFacts(View(), o, ws, Edges(k), lists.home);
      ReleaseSteps(k, m, o);
      assert forall i :: 0 <= i < |ws[1..]| ==> ws[1..][i] == ws[i + 1];
    }

    /** Every donation to the old owner is taken back, the popped waiter's first. */
    method TakeBackQueue(m: nat, o: nat, next: nat, ghost k: K)
      requires Sized(k) && m < |k.owner| && Popped(k, m, o) && next == k.q[MtxList(k, m)][0]
      modifies this`prio, this`inh, lists
      ensures var (l, ws) := (MtxList(k, m), k.q[MtxList(k, m)]);
        Valid() && View() == RemoveAll(old(View()), o, ws) && lists.q[l] == ws[1..]
    {
      hide Placed, Linked, Core, Releasing, RemoveAll, Kernel.RemoveInheritance, AllBelow, Wide, Home, Hop, Popped, Homes;
      ghost var ws, don := k.q[MtxList(k, m)], Edges(k);
      PoppedFacts(k, m, o);
      TakeBack(o, prio[next], ws, don, MtxList(k, m));
      TakeBackAll(LEVELS + |count| + m, o, ws[1..], don[next := None]);
    }

    /** The mutex becomes `next`'s and `next` becomes ready. */
    method HandReady(m: nat, next: nat)
      requires Valid() && m < |owner| && next < |state| && next != IDLE && lists.home[next].None?
      modifies this`owner, this`depth, this`grantMtx, this`waitMtx, this`wakeAt, this`granted, this`state, lists
      ensures Valid() && View() == Grant(old(View()), m, next)
      ensures |lists.q| == |old(lists.q)| && forall l :: LEVELS <= l < |lists.q| ==> lists.q[l] == old(lists.q)[l]
    {
      hide Placed, Linked;
      HandTo(m, next);
      MakeReady(next);
    }

    /** The first waiter owns the mutex and runs next; the others donate to it. */
    method InstallOwner(m: nat, next: nat, ghost rest: seq<nat>, ghost don: seq<Option<nat>>)
      requires Valid() && m < |owner| && next < |state| && next != IDLE && lists.home[next].None? && Below(rest, |state|)
      requires lists.q[LEVELS + |count| + m] == rest
      requires var k3 := Grant(View(), m, next); Placed(k3.q, Homes(k3)) && Giving(k3, next, rest, don, Homes(k3))
      modifies this`owner, this`depth, this`grantMtx, this`waitMtx, this`wakeAt, this`granted, this`state, this`prio, this`inh, lists
      ensures Valid() && View() == AddAll(Grant(old(View()), m, next), next, rest)
    {
      hide Placed, Linked, Giving, AddAll, Grant, AllBelow, Wide, Home;
      HandReady(m, next);
      PlacedUnique(lists.q, lists.home, Homes(View()));
      GiveAll(LEVELS + |count| + m, next, rest, don);
    }

    method HandOff(m: nat, o: nat, next: nat, ghost k: K)
      requires Sized(k) && Core(k) && m < |k.owner| && k.owner[m] == Some(o) && k.q[MtxList(k, m)] != []
      requires Popped(k, m, o) && next == k.q[MtxList(k, m)][0]
      requires forall x :: 0 <= x < N(k) && k.waitMtx[x].Some? ==> x != IDLE && !IsTarget(k, x)
      modifies this`owner, this`depth, this`grantMtx, this`waitMtx, this`wakeAt, this`granted, this`state, this`prio, this`inh, lists
      ensures Valid() && View() == Kernel.ReleaseMutex(k, m, o)
    {
      hide Placed, Linked, Releasing, Giving, RemoveAll, AddAll, Grant, Kernel.RemoveInheritance, AllBelow, Wide, Home, Hop, Popped, Core, Kernel.ReleaseMutex;
      ghost var ws := k.q[MtxList(k, m)];
      PoppedFacts(k, m, o);
      ghost var home := Homes(k)[next := None];
      HandOffFacts(k, RemoveAll(View(), o, ws), m, o);
      TakeBackQueue(m, o, next, k);
      PlacedUnique(lists.q, lists.home, Rehome(home, prio));
      InstallOwner(m, next, ws[1..], Undonated(Edges(k), ws));
    }

    /** Record that the current task waits for mutex `m`. */
    method StartMtxWait(m: nat, patience: Patience)
      requires Sized(View()) && m < |owner|
      modifies this`state, this`wakeAt, this`waitMtx, this`granted, this`call
      ensures View() == MtxWaiting(old(View()), m, patience)
    {
      hide Sized;
      Lengths();
      SetState(current, Blocked);
      SetWakeAt(current, if patience.Until? then patience.deadline else 0);
      SetWaitMtx(current, Some(m));
      SetGranted(current, false);
      SetCall(current, InMutex);
    }

    /** Queue the current task on `m` and donate its priority along the owner chain. */
    method EnlistCurrent(m: nat, patience: Patience)
      requires Stable() && m < |owner| && owner[m].Some? && state[current] == Running
      requires !ChainContains(View(), owner[m].value, current, |state|)
      modifies this`state, this`wakeAt, this`waitMtx, this`granted, this`call, this`prio, this`inh, lists
      ensures Valid() && View() == Enlist(old(View()), m, patience)
    {
      hide Side, Placed, Linked, Insert, Refreshable, Refreshed, Rehome, Kernel.AddInheritance, ChainContains, Mid, Home;
      ghost var k := View();
      ghost var g := EnlistStarts(k, m, patience);
      EnlistIs(k, m, patience);
      var c := current;
      StartMtxWait(m, patience);
      lists.Enqueue(LEVELS + |count| + m, c, prio);
      assert Bump(View(), owner[m].value, prio[c]) == Queued(k, m, patience);
      AddInheritance(owner[m].value, prio[c], g, Edges(Queued(k, m, patience)));
    }

    /** Block on mutex `m`, which somebody else owns. */
    method BlockOnMutex(m: nat, patience: Patience)
      requires Stable() && m < |owner| && owner[m].Some? && InUserCode(View())
      requires !ChainContains(View(), owner[m].value, current, |state|)
      modifies this, lists
      ensures Valid() && View() == SwitchAway(Enlist(old(View()), m, patience))
    {
      hide Rest, Placed, Linked, SwitchAway, Core, Enlist, ChainContains;
      EnlistCore(View(), m, patience);
      EnlistStill(View(), m, patience);
      var c, generation := current, resume[current];
      EnlistCurrent(m, patience);
      var committed := PrepareSwitchAway(c, generation);
      assert committed;
    }

    /** `lock` up to the switch. */
    method MutexLock(m: nat, patience: Patience, deliverable: bool) returns (reply: Reply)
      requires Stable() && m < |owner| && InUserCode(View()) && current != IDLE
      modifies this, lists
      ensures Stable() && (View(), reply) == Kernel.MutexLock(old(View()), m, patience, deliverable)
    {
      hide Core, Side, Placed, Linked, SwitchAway, Enlist, ChainContains, Homes;
      ghost var k := View();
      MutexLockKeeps(k, m, patience, deliverable);
      if owner[m] == Some(current) {
        if depth[m] == U32_MAX {
          reply := Refused;
        } else {
          SetDepth(m, depth[m] + 1);
          reply := Acquired;
        }
      } else if owner[m].None? {
        SetOwner(m, Some(current));
        SetDepth(m, 1);
        reply := Acquired;
      } else if patience.NoWait? {
        reply := TimedOut;
      } else if !deliverable || lockDepth[current] != 0 {
        reply := Refused;
      } else {
        var cyclic := MutexChainContains(owner[m].value, current);
        if cyclic {
          reply := Refused;
        } else {
          BlockOnMutex(m, patience);
          reply := Suspended;
        }
      }
      assert (View(), reply) == Kernel.MutexLock(k, m, patience, deliverable);
      Settles();
    }

    method ConsumeMutex() returns (reply: Reply)
      requires Stable() && state[current] == Running && call[current] == InMutex
      modifies this`granted, this`grantSem, this`grantMtx, this`call
      ensures Stable() && (View(), reply) == ConsumeMtx(old(View()))
    {
      hide Core, Side, Placed, Linked, Homes;
      ConsumeMtxKeeps(View());
      reply := Consume(false);
      Settles();
    }

    /** The last of `o`'s locks on `m` ends: depth zero, then the release. */
    method FinalRelease(m: nat, o: nat)
      requires Stable() && m < |owner| && owner[m] == Some(o) && o < |state| && grantMtx[o] != Some(m)
      modifies this`owner, this`depth, this`grantMtx, this`waitMtx, this`wakeAt, this`granted, this`state, this`prio, this`inh, lists
      ensures Stable() && View() == Kernel.ReleaseMutex(old(View()).(depth := old(View()).depth[m := 0]), m, o)
    {
      hide Core, Side, Placed, Linked, Kernel.ReleaseMutex;
      ghost var k := View();
      ReleaseMutexKeeps(k, m, o);
      WaitersAside(k);
      SetDepth(m, 0);
      SameCoreKeeps(k, View());
      SameHomes(k, View());
      ReleaseMutex(m, o);
      Settles();
    }

    /** `unlock`. */
    method MutexUnlock(m: nat) returns (reply: Reply)
      requires Stable() && m < |owner| && InUserCode(View())
      modifies this`owner, this`depth, this`grantMtx, this`waitMtx, this`wakeAt, this`granted, this`state, this`prio, this`inh, lists
      ensures Stable() && (View(), reply) == Kernel.MutexUnlock(old(View()), m)
    {
      hide Core, Side, Placed, Linked, Kernel.ReleaseMutex, Homes;
      ghost var k := View();
      MutexUnlockKeeps(k, m);
      if owner[m] != Some(current) || depth[m] == 0 {
        return Refused;
      }
      UserHoldsNoGrant(k);
      if depth[m] == 1 {
        FinalRelease(m, current);
      } else {
        SetDepth(m, depth[m] - 1);
      }
      reply := Acquired;
      assert (View(), reply) == Kernel.MutexUnlock(k, m);
      Settles();
    }

    /** Record that `t` no longer waits for a mutex. */
    method EndMtxWait(t: nat)
      requires Sized(View()) && t < |state|
      modifies this`wakeAt, this`grantMtx, this`waitMtx, this`granted
      ensures View() == MtxEnded(old(View()), t)
    {
      hide Sized;
      Lengths();
      SetWaitMtx(t, None);
      SetGranted(t, false);
      SetGrantMtx(t, None);
      SetWakeAt(t, 0);
    }

    /** Take a waiter out of its mutex queue, and its donation back: timeout and cancellation. */
    method LeaveMutex(t: nat)
      requires Stable() && t < |state| && waitMtx[t].Some?
      modifies this`wakeAt, this`grantMtx, this`waitMtx, this`granted, this`state, this`prio, this`inh, lists
      ensures Stable() && View() == LeaveMtx(old(View()), t)
    {
      hide Core, Side, Placed, Linked, Without, Refreshable, Refreshed, Kernel.RemoveInheritance;
      ghost var k := View();
      LeaveMtxKeeps(k, t);
      WaitingHome(k, t);
      ghost var g := LeaveStarts(k, t);
      var m := waitMtx[t].value;
      RemoveFrom(LEVELS + |count| + m, t);
      if owner[m].Some? {
        RemoveInheritance(owner[m].value, prio[t], g, Edges(k)[t := None]);
      }
      EndMtxWait(t);
      MakeReady(t);
      assert View() == LeaveMtx(k, t);
      Settles();
    }

    /** `cancel_wait_locked`: whatever the task is waiting for, or was given and has not taken. */
    method CancelWait(t: nat) returns (cancelled: bool)
      requires Stable() && t < |state|
      modifies this, lists
      ensures Stable() && (View(), cancelled) == Cancel(old(View()), t)
    {
      hide Core, Side, Placed, Linked, LeaveSem, LeaveMtx, ReleaseSem, Kernel.ReleaseMutex, Homes;
      ghost var k := View();
      CancelKeeps(k, t);
      cancelled := true;
      if waitSem[t].Some? {
        LeaveSemaphore(t);
      } else if grantSem[t].Some? {
        var s := grantSem[t].value;
        UngrantedKeeps(k, t);
        SetGrantSem(t, None);
        SetGranted(t, false);
        Settles();
        ReleaseSemaphore(s);
      } else if waitMtx[t].Some? {
        LeaveMutex(t);
      } else if grantMtx[t].Some? {
        var m := grantMtx[t].value;
        UngrantedKeeps(k, t);
        HandedOffOwner(k, t);
        SetGrantMtx(t, None);
        SetGranted(t, false);
        Settles();
        // the debug assertions of the source
        assert owner[m] == Some(t) && depth[m] == 1;
        FinalRelease(m, t);
      } else {
        cancelled := false;
      }
      assert (View(), cancelled) == Cancel(k, t);
      Settles();
    }

    // ---- Timer -------------------------------------------------------------------------------------

    /** One iteration of the first scan of `wake_sleepers`. */
    method WakeOne(i: nat, now: nat)
      requires Stable() && i < |state|
      modifies this, lists
      ensures Stable() && View() == Kernel.WakeOne(old(View()), i, now)
    {
      hide Core, Side, Placed, Linked, LeaveSem, LeaveMtx;
      ghost var k := View();
      WakeOneKeeps(k, i, now);
      if state[i] == Sleeping && now >= wakeAt[i] {
        SleeperHome(k, i);
        MakeReady(i);
      } else if state[i] == Blocked && waitSem[i].Some? && wakeAt[i] != 0 && now >= wakeAt[i] {
        LeaveSemaphore(i);
      } else if state[i] == Blocked && waitMtx[i].Some? && wakeAt[i] != 0 && now >= wakeAt[i] {
        LeaveMutex(i);
      }
      assert View() == Kernel.WakeOne(k, i, now);
      Settles();
    }

    /** One iteration of `replenish_budgets`. */
    method ReplenishOne(i: nat, now: nat)
      requires Stable() && i < |state| && now <= Budget.U64_MAX
      modifies this, lists
      ensures Stable() && View() == Kernel.ReplenishOne(old(View()), i, now)
    {
      hide Core, Side, Placed, Linked;
      ghost var k := View();
      ReplenishOneKeeps(k, i, now);
      if state[i] == Throttled && Budget.ReplenishDue(budget[i], now) {
        SleeperHome(k, i);
        RefillSized(k, i, now);
        SetBudget(i, Budget.ReplenishIfDue(budget[i], now));
        MakeReady(i);
      }
      assert View() == Kernel.ReplenishOne(k, i, now);
      Settles();
    }

    /** `replenish_budgets`. */
    method ReplenishBudgets(now: nat)
      requires Stable() && now <= Budget.U64_MAX
      modifies this, lists
      ensures Stable() && |state| == old(|state|) && View() == ReplenishFirst(old(View()), |state|, now)
    {
      hide Inv, Placed, Linked, Kernel.ReplenishOne, Homes;
      ghost var k := View();
      var i := 0;
      while i < |state|
        invariant Stable() && |state| == N(k) && i <= N(k) && View() == ReplenishFirst(k, i, now)
      {
        ReplenishOne(i, now);
        i := i + 1;
      }
    }

    method WakeSleepers(now: nat)
      requires Stable() && now <= Budget.U64_MAX
      modifies this, lists
      ensures Stable() && View() == Kernel.WakeSleepers(old(View()), now)
    {
      hide Inv, Placed, Linked, Kernel.WakeOne, ReplenishFirst, Homes;
      ghost var k := View();
      var i := 0;
      while i < |state|
        invariant Stable() && |state| == N(k) && i <= N(k) && View() == WakeFirst(k, i, now)
      {
        WakeOne(i, now);
        i := i + 1;
      }
      ReplenishBudgets(now);
    }

    /** Charge the running task; exhaustion throttles it, or is deferred by its lock. */
    method ChargeCurrent(now: nat)
      requires Stable() && now <= Budget.U64_MAX
      modifies this`budget, this`state
      ensures Stable() && View() == Kernel.ChargeCurrent(old(View()), now)
    {
      hide Core, Side, Placed, Linked, Homes;
      ghost var k := View();
      ChargeCurrentKeeps(k, now);
      if state[current] == Running {
        var (b, expiry) := Budget.OnTimer(budget[current], now, lockDepth[current] != 0);
        SetBudget(current, b);
        if expiry.ThrottleNow? {
          SetState(current, Throttled);
        }
      }
      assert View() == Kernel.ChargeCurrent(k, now);
      Settles();
    }

    /** `on_timer`, and the slice flag the interrupt sets when the slice is over. */
    method OnTimer(now: nat, slice: bool, limit: nat) returns (report: Option<nat>)
      requires Stable() && now <= Budget.U64_MAX
      modifies this, lists
      ensures Stable() && View() == Kernel.OnTimer(old(View()), now, slice)
      ensures report == LockReport(old(View()), now, limit)
    {
      hide Core, Side, Placed, Linked, Homes, Kernel.WakeSleepers, Kernel.ChargeCurrent;
      ghost var k := View();
      OnTimerKeeps(k, now, slice);
      ScanLeavesHart(k, now);
      WakeSleepers(now);
      report := None;
      if state[current] == Running {
        ChargeCurrent(now);
        var start := lockStart[current];
        if start.Some? && Budget.SatSub(now, start.value) >= limit {
          report := Some(Budget.SatSub(now, start.value));
        }
      } else {
        NothingToCharge(View(), now);
      }
      if slice {
        slicePending := true;
      }
      assert View() == Kernel.OnTimer(k, now, slice);
      Settles();
    }

    // ---- Dispatch ------------------------------------------------------------------------------------

    /** `consume_pending_switch` with its two assertions. */
    method ConsumePending() returns (previous: nat, target: nat)
      requires Stable() && pending.Some?
      modifies this`pending, this`lastSeq
      ensures View() == old(View()).(pending := None, lastSeq := old(pending).value.sequence)
      ensures previous == old(pending).value.previous == current && target == old(pending).value.target < |state|
    {
      hide Core, Rest, Placed, Linked, Homes;
      var ticket := pending.value;
      pending := None;
      assert ident[ticket.previous] == ticket.previousIdent && ident[ticket.target] == ticket.targetIdent;
      assert ticket.sequence > lastSeq;
      lastSeq := ticket.sequence;
      previous, target := ticket.previous, ticket.target;
    }

    /** `account_switch`: charge the task that leaves, start the clock of the one that comes. */
    method AccountSwitch(previous: nat, target: nat, now: nat)
      requires Sized(View()) && previous < |state| && target < |state| && now <= Budget.U64_MAX
      modifies this`budget
      ensures View() == Accounted(old(View()), previous, target, now)
    {
      hide Budget.OnSwitchOut, Budget.OnDispatch;
      AccountedIs(View(), previous, target, now);
      SetBudget(previous, Budget.OnSwitchOut(budget[previous], now));
      SetBudget(target, Budget.OnDispatch(budget[target], now));
    }

    method SetResume(t: nat, g: nat)
      requires t < |resume|
      modifies this`resume
      ensures View() == old(View()).(resume := old(View()).resume[t := g])
    {
      resume := resume[t := g];
    }

    method SetCurrent(t: nat)
      modifies this`current, this`slicePending
      ensures View() == old(View()).(current := t, slicePending := false)
    {
      current := t;
      slicePending := false;
    }

    /** `target` runs. */
    method Resume(target: nat)
      requires target < |state| == |resume|
      modifies this`state, this`resume, this`current, this`slicePending
      ensures View() == Resumed(old(View()), target)
    {
      SetState(target, Running);
      SetResume(target, if resume[target] == U32_MAX then 0 else resume[target] + 1);
      SetCurrent(target);
    }

    /** The hart moves from the current task to `target`. */
    method DispatchTo(previous: nat, target: nat, now: nat)
      requires Sized(View()) && previous == current && target < |state| && now <= Budget.U64_MAX
      modifies this`budget, this`state, this`resume, this`current, this`slicePending
      ensures View() == Dispatch(old(View()), target, now)
    {
      hide Sized, Budget.OnSwitchOut, Budget.OnDispatch;
      Lengths();
      AccountedIs(View(), previous, target, now);
      AccountSwitch(previous, target, now);
      Resume(target);
    }

    /** Whether the running task must give way now. */
    method MustGiveWay(allowEqual: bool) returns (b: bool)
      requires Valid()
      ensures b == MustYield(View(), allowEqual)
    {
      hide Placed, Linked, FirstBucket, AllBelow, Wide, InRange, GoodBudgets;
      if state[current] != Running || lockDepth[current] != 0 {
        return false;
      }
      if current != IDLE && !policy[current].Preemptive? {
        return false;
      }
      b := AnyReadyBelow(if current == IDLE then LEVELS else prio[current] + (if allowEqual then 1 else 0));
    }

    /** `take_reschedule_target`: the most urgent task, if the running one must give way to it;
        then the running one is ready. */
    method TakeRescheduleTarget(allowEqual: bool) returns (r: Option<nat>)
      requires Valid() && Core(View())
      modifies this`state, lists
      ensures Valid() && (View(), r) == TakeReschedule(old(View()), allowEqual)
    {
      hide Core, Placed, Linked, FirstBucket, PopReady, MustYield, Kernel.MakeReady;
      var must := MustGiveWay(allowEqual);
      if !must {
        return None;
      }
      RescheduleFacts(View(), allowEqual, lists.home);
      var next := ReadyPop();
      assert next != NIL && next != current;
      MakeReady(current);
      r := Some(next);
    }

    /** Whether some bucket before `end` holds a task. */
    method AnyReadyBelow(end: nat) returns (some: bool)
      requires Valid() && end <= LEVELS
      ensures some == (FirstBucket(lists.q, 0) < end)
    {
      hide Placed;
      var p := 0;
      while p < end
        invariant p <= end && FirstBucket(lists.q, 0) == FirstBucket(lists.q, p)
      {
        lists.Walked(p, 0, 0);
        if lists.head[p] != NIL {
          return true;
        }
        p := p + 1;
      }
      some := false;
    }

    /** `schedule_from_trap` on the outermost interrupt. */
    method ScheduleFromTrap(now: nat)
      requires Stable() && now <= Budget.U64_MAX
      modifies this, lists
      ensures Stable() && View() == Trap(old(View()), now)
    {
      hide Core, Side, Placed, Linked, Homes, Dispatch, PopReadyOrIdle, TakeReschedule;
      ghost var k := View();
      TrapKeeps(k, now);
      if pending.Some? {
        var previous, target := ConsumePending();
        DispatchTo(previous, target, now);
      } else if state[current] != Running {
        var next := ReadyPopOrIdle();
        DispatchTo(current, next, now);
      } else {
        var next := TakeRescheduleTarget(slicePending);
        if next.Some? {
          DispatchTo(current, next.value, now);
        }
      }
      assert View() == Trap(k, now);
      Settles();
    }

    /** Pop the most urgent task, send the running one back, and commit the switch. */
    method YieldTo() returns (switched: bool)
      requires Stable() && state[current] == Running && lockDepth[current] == 0
      modifies this`state, this`pending, this`nextSeq, lists
      ensures Valid()
      ensures var (k1, next) := PopReady(old(View()));
        && switched == next.Some?
        && View() == if next.Some? then Commit(Kernel.MakeReady(k1, k1.current), next.value) else k1
    {
      hide Core, Rest, Placed, Linked, PopReady, Kernel.MakeReady, Commit, InReady;
      ghost var k := View();
      RunningHome(k);
      var next := ReadyPop();
      if next == NIL {
        return false;
      }
      YieldFacts(k);
      MakeReady(current);
      CommitSwitch(next);
      switched := true;
    }

    /** `yield_now` up to the switch. */
    method YieldNow(now: nat, deliverable: bool) returns (reply: Reply)
      requires Stable() && state[current] == Running && now <= Budget.U64_MAX
      modifies this, lists
      ensures Stable() && (View(), reply) == if deliverable then Yield(old(View()), now) else (old(View()), Refused)
    {
      hide Core, Side, Placed, Linked, Homes, Kernel.WakeSleepers, Commit, PopReady, Kernel.MakeReady;
      ghost var k := View();
      YieldKeeps(k, now);
      if !deliverable {
        return Refused;
      }
      if lockDepth[current] != 0 {
        return Refused;
      }
      WakeFirstUntouched(k, N(k), now);
      ReplenishFirstUntouched(WakeFirst(k, N(k), now), N(k), now);
      StillRuns(k, now);
      WakeSleepers(now);
      var switched := YieldTo();
      reply := if switched then Suspended else Acquired;
      assert (View(), reply) == Yield(k, now);
      Settles();
    }

    /** `sleep_ms` up to the switch. */
    method SleepUntil(until: nat, deliverable: bool) returns (reply: Reply)
      requires Stable() && InUserCode(View()) && current != IDLE
      modifies this, lists
      ensures Stable() && (View(), reply) == if deliverable then Sleep(old(View()), until) else (old(View()), Refused)
    {
      hide Core, Side, Placed, Linked, Homes, SwitchAway;
      ghost var k := View();
      SleepKeeps(k, until);
      if !deliverable {
        return Refused;
      }
      if lockDepth[current] != 0 {
        return Refused;
      }
      SleepFacts(k, until);
      var c, generation := current, resume[current];
      SetState(c, Sleeping);
      SetWakeAt(c, until);
      var committed := PrepareSwitchAway(c, generation);
      assert committed;
      reply := Suspended;
      assert (View(), reply) == Sleep(k, until);
      Settles();
    }

    /** `set_task_priority`: a new base priority, refreshed along the owner chain. */
    method SetTaskPriority(t: nat, p: nat)
      requires Stable() && t < |state| && p < LEVELS
      modifies this`base, this`prio, this`inh, lists
      ensures Stable() && View() == SetPriority(old(View()), t, p)
    {
      hide Core, Side, Placed, Linked, Kernel.Refresh, Refreshable;
      ghost var k := View();
      SetPriorityKeeps(k, t, p);
      ghost var g := PriorityStarts(k, t, p);
      base := base[t := p];
      Refresh(t, 0, g, Edges(k));
      Settles();
    }

    // ---- Scheduler lock ----------------------------------------------------------------------------

    /** `lock_scheduler`. */
    method LockCurrent(now: nat, deliverable: bool) returns (reply: Reply)
      requires Stable() && state[current] == Running
      modifies this`lockStart, this`lockDepth
      ensures Stable() && (View(), reply) == if deliverable then LockScheduler(old(View()), now) else (old(View()), Refused)
    {
      hide Core, Side, Placed, Linked, Homes;
      ghost var k := View();
      LockSchedulerKeeps(k, now);
      if !deliverable {
        return Refused;
      }
      if lockDepth[current] == U16_MAX {
        return Refused;
      }
      if lockDepth[current] == 0 {
        SetLockStart(current, Some(now));
      }
      SetLockDepth(current, lockDepth[current] + 1);
      reply := Acquired;
      assert (View(), reply) == LockScheduler(k, now);
      Settles();
    }

    /** Give one level back; the outermost lock always has its start on record. */
    method ReleaseLevel()
      requires Sized(View()) && lockDepth[current] != 0 && lockStart[current].Some?
      modifies this`lockStart, this`lockDepth
      ensures View() == Released(old(View()))
    {
      hide Sized;
      Lengths();
      SetLockDepth(current, lockDepth[current] - 1);
      if lockDepth[current] == 0 {
        assert lockStart[current].Some?;
        SetLockStart(current, None);
      }
    }

    /** The exhaustion the lock deferred takes effect. */
    method ThrottleAndSwitch(now: nat)
      requires Valid() && now <= Budget.U64_MAX && budget[current].lockOverrun && pending.None?
      requires Core(View().(budget := budget[current := Budget.Throttled(budget[current], now)], state := state[current := Throttled]))
      modifies this`budget, this`state, this`pending, this`nextSeq, lists
      ensures Valid() && View() == ThrottleCurrent(old(View()), now)
    {
      hide Core, Placed, Linked, FirstBucket, PopReadyOrIdle, InReady, Budget.Throttled;
      var b, eligible := Budget.ThrottleAfterLockOverrun(budget[current], now);
      // `expect`: an overrun is only ever pending under a budget policy
      assert eligible.Some?;
      SetBudget(current, b);
      SetState(current, Throttled);
      SwitchAwayIs(View());
      var target := ReadyPopOrIdle();
      CommitSwitch(target);
    }

    /** Hand the hart over if the running task must give way. */
    method SwitchIfDue() returns (reply: Reply)
      requires Valid() && Inv(View())
      modifies this`state, this`slicePending, this`pending, this`nextSeq, lists
      ensures Valid() && (View(), reply) == DueSwitch(old(View()))
    {
      hide Core, Side, Placed, Linked, Commit, FirstBucket, PopReady, Kernel.MakeReady;
      ghost var k := View();
      if MustYield(k, slicePending) {
        GiveWay(k, slicePending);
      }
      var next := TakeRescheduleTarget(slicePending);
      if next.None? {
        return Acquired;
      }
      slicePending := false;
      CommitSwitch(next.value);
      reply := Suspended;
    }

    /** `unlock_current_and_take_preemption`, and the switch it asks for. */
    method UnlockCurrent(now: nat, deliverable: bool) returns (reply: Reply)
      requires Stable() && state[current] == Running && now <= Budget.U64_MAX
      modifies this, lists
      ensures Stable() && (View(), reply) == if deliverable then UnlockScheduler(old(View()), now) else (old(View()), Refused)
    {
      hide Core, Side, Placed, Linked, Homes, ThrottleCurrent, TakeReschedule, Commit;
      ghost var k := View();
      UnlockSchedulerKeeps(k, now);
      if !deliverable {
        return Refused;
      }
      if lockDepth[current] == 0 {
        return Refused;
      }
      UnlockFacts(k, now);
      ReleaseLevel();
      if lockDepth[current] == 0 && budget[current].lockOverrun {
        ThrottleAndSwitch(now);
        reply := Suspended;
      } else {
        reply := SwitchIfDue();
      }
      assert (View(), reply) == UnlockScheduler(k, now);
      Settles();
    }

    // ---- Tasks come, change and go -------------------------------------------------------------------

    /** The fields a policy change touches; a running task is dispatched into the new budget. */
    method InstallPolicy(t: nat, p: Budget.Policy, now: nat)
      requires Sized(View()) && t < |state| && Budget.ValidPolicy(p) && now <= Budget.U64_MAX
      modifies this`policy, this`budget, this`state
      ensures View() == Repolicied(old(View()), t, p, now)
    {
      hide Sized, FreshBudget;
      Lengths();
      SetPolicyOf(t, p);
      var throttled := state[t] == Throttled;
      SetBudget(t, FreshBudget(p, state[t] == Running, now));
      if throttled {
        SetState(t, Ready);
      }
    }

    /** Take a queued ready task out of its bucket. */
    method Dequeue(t: nat) returns (queued: bool)
      requires Valid() && t < |state| && (state[t] == Ready && InReady(View(), t) ==> lists.home[t] == Some(prio[t]))
      modifies lists
      ensures Valid() && queued == (state[t] == Ready && InReady(old(View()), t))
      ensures View() == if queued then old(View()).(q := old(lists.q)[prio[t] := Without(old(lists.q)[prio[t]], t)]) else old(View())
      ensures lists.home == if queued then old(lists.home)[t := None] else old(lists.home)
    {
      hide Placed, Linked, Without;
      queued := false;
      if state[t] == Ready {
        queued := lists.Contains(t);
      }
      if queued {
        lists.Remove(prio[t], t);
      }
    }

    /** `set_run_policy`. */
    method SetRunPolicy(t: nat, p: Budget.Policy, now: nat)
      requires Stable() && t < |state| && Budget.ValidPolicy(p) && now <= Budget.U64_MAX && (t == IDLE ==> !p.Budgeted?)
      modifies this`policy, this`budget, this`state, lists
      ensures Stable() && View() == SetPolicy(old(View()), t, p, now)
    {
      hide Core, Side, Placed, Linked, Without, FreshBudget, InReady, Repolicied, Homes, SetPolicy;
      ghost var k := View();
      SetPolicySteps(k, t, p, now);
      SetPolicyKeeps(k, t, p, now);
      PolicyFacts(k, t);
      var throttled := state[t] == Throttled;
      var queued := Dequeue(t);
      InstallPolicy(t, p, now);
      if queued || throttled {
        ReadyPush(t);
      }
      assert View() == SetPolicy(k, t, p, now);
      Settles();
    }

    /** `spawn`, once slot `t` is chosen: the slot's next generation becomes the task's identity. */
    method SpawnInto(t: nat, p: nat, run: Budget.Policy, now: nat)
      requires Stable() && IDLE < t < |state| && state[t] == Free && p < LEVELS && Budget.ValidPolicy(run) && now <= Budget.U64_MAX
      requires pending.None?
      modifies this, lists
      ensures Stable() && View() == Spawn(old(View()), t, p, run, now)
    {
      hide Core, Side, Placed, Linked, Kernel.MakeReady;
      ghost var k := View();
      SpawnKeeps(k, t, p, run, now);
      FreeHome(k, t);
      Furnish(t, p, run, now);
      MakeReady(t);
      assert View() == Spawn(k, t, p, run, now);
      Settles();
    }

    method Furnish(t: nat, p: nat, run: Budget.Policy, now: nat)
      requires Sized(View()) && t < |state| && p < LEVELS && Budget.ValidPolicy(run) && now <= Budget.U64_MAX
      modifies this`slotGen, this`ident, this`wakeAt, this`base, this`prio, this`policy, this`budget
      ensures View() == Furnished(old(View()), t, p, run, now)
    {
      hide Sized;
      Lengths();
      var g := NextGeneration(slotGen[t]);
      SetSlotGen(t, g);
      SetIdent(t, g);
      SetWakeAt(t, 0);
      SetBase(t, p);
      SetPrio(t, p);
      SetPolicyOf(t, run);
      SetBudget(t, Budget.ForPolicy(run, now));
    }

    /** The control block becomes empty: what it waited for and how urgent it was, then the rest. */
    method ClearWaits(c: nat)
      requires Sized(View()) && c < |state|
      modifies this`state, this`wakeAt, this`waitSem, this`waitMtx, this`granted, this`grantSem, this`grantMtx, this`base, this`prio
      ensures View() == WaitsCleared(old(View()), c)
    {
      hide Sized;
      Lengths();
      SetState(c, Free);
      SetWakeAt(c, 0);
      SetWaitSem(c, None);
      SetWaitMtx(c, None);
      SetGranted(c, false);
      SetGrantSem(c, None);
      SetGrantMtx(c, None);
      SetBase(c, LEVELS - 1);
      SetPrio(c, LEVELS - 1);
    }

    method ClearRun(c: nat)
      requires Sized(View()) && c < |state|
      modifies this`inh, this`lockDepth, this`lockStart, this`ident, this`resume, this`policy, this`budget, this`call
      ensures View() == RunCleared(old(View()), c)
    {
      hide Sized;
      Lengths();
      SetInherited(c, seq(LEVELS, _ => 0));
      SetLockDepth(c, 0);
      SetLockStart(c, None);
      SetIdent(c, 0);
      SetResume(c, 0);
      SetPolicyOf(c, Budget.Cooperative);
      SetBudget(c, Budget.Unbudgeted());
      SetCall(c, User);
    }

    /** `task_exit` up to the switch. */
    method TaskExit()
      requires Stable() && InUserCode(View()) && MayExit(View())
      modifies this, lists
      ensures Stable() && View() == Exit(old(View()))
    {
      hide Core, Side, Placed, Linked, SwitchAway, Homes;
      ghost var k := View();
      ExitKeeps(k);
      ExitFacts(k);
      ClearWaits(current);
      ClearRun(current);
      var committed := PrepareSwitchAway(current, resume[current]);
      assert committed;
      assert View() == Exit(k);
      Settles();
    }
  }
}
