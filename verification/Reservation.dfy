/** `ReservationTable`: promises of task slots, with the stacks preallocated for them. */
module Reservation {
  import opened Lists
  import opened Arith
  import opened Handles

  const GENERATION_MAX: nat := 0xFFFF
  const U8_MAX: nat := 255

  datatype Entry = Entry(generation: nat, remaining: nat, nextStack: nat, stackCount: nat, stackSize: nat, stacks: seq<nat>, active: bool)

  datatype Error = InsufficientTaskSlots(required: nat, available: nat) | InsufficientGroupSlots(group: nat, required: nat, available: nat)
                 | ResourceExhausted | InvalidHandle | NoTaskSlots
  datatype Result<+T> = Ok(value: T) | Err(error: Error)

  datatype Stack = Stack(pointer: nat, size: nat)

  // ---- What an entry holds ------------------------------------------------------------------------

  /** The stacks an entry still holds: those from the next to hand out up to the last. */
  function Held(e: Entry): (r: seq<nat>)
  {
    if e.nextStack <= e.stackCount <= |e.stacks| then e.stacks[e.nextStack..e.stackCount] else []
  }

  predicate NonZero(xs: seq<nat>) {
    forall i :: 0 <= i < |xs| ==> xs[i] != 0
  }

  /** An entry with stacks holds exactly one for every slot it still promises. */
  predicate GoodEntry(e: Entry) {
    && e.generation <= GENERATION_MAX && e.remaining <= U8_MAX
    && e.nextStack <= e.stackCount <= |e.stacks| && NonZero(Held(e))
    && (e.active ==> e.generation != 0)
    && (!e.active ==> e.remaining == 0 && e.stackCount == 0)
    && (e.stackCount != 0 ==> e.remaining == e.stackCount - e.nextStack)
  }

  function Promised(es: seq<Entry>): nat {
    if es == [] then 0 else es[0].remaining + Promised(es[1..])
  }

  function AllHeld(es: seq<Entry>): (r: multiset<nat>) {
    if es == [] then multiset{} else multiset(Held(es[0])) + AllHeld(es[1..])
  }

  predicate GoodEntries(es: seq<Entry>) {
    0 < |es| < SLOT_RADIX && forall i :: 0 <= i < |es| ==> GoodEntry(es[i])
  }

  lemma Shift(h: multiset<nat>, a: multiset<nat>, a': multiset<nat>, x: multiset<nat>, y: multiset<nat>)
    requires a' + x == a + y
    ensures (h + a') + x == (h + a) + y
  {
    assert (h + a') + x == h + (a' + x) && (h + a) + y == h + (a + y);
  }

  lemma Cancel(before: multiset<nat>, after: multiset<nat>, t: multiset<nat>, s: multiset<nat>)
    requires after + (t + s) == before + t
    ensures before == after + s
  {
    forall x ensures before[x] == (after + s)[x] {
      assert (after + (t + s))[x] == (before + t)[x];
    }
  }

  /** Changing one entry changes the totals by what that entry's share changes. */
  lemma {:induction false} TotalsUpdate(es: seq<Entry>, i: nat, e: Entry)
    requires i < |es|
    ensures Promised(es[i := e]) + es[i].remaining == Promised(es) + e.remaining
    ensures AllHeld(es[i := e]) + multiset(Held(es[i])) == AllHeld(es) + multiset(Held(e))
  {
    hide Held;
    if i == 0 {
      assert es[0 := e][1..] == es[1..];
    } else {
      assert es[i := e][1..] == es[1..][i - 1 := e];
      TotalsUpdate(es[1..], i - 1, e);
      Shift(multiset(Held(es[0])), AllHeld(es[1..]), AllHeld(es[1..][i - 1 := e]), multiset(Held(es[i])), multiset(Held(e)));
    }
  }

  lemma {:induction false} PromisedBounds(es: seq<Entry>, i: nat)
    requires i < |es|
    ensures es[i].remaining <= Promised(es)
  {
    if i > 0 {
      PromisedBounds(es[1..], i - 1);
    }
  }

  // ---- The operations on values -------------------------------------------------------------------------

  /** The first inactive entry. */
  function FirstFree(es: seq<Entry>, from: nat): (i: nat)
    requires from <= |es|
    ensures from <= i <= |es| && (i < |es| ==> !es[i].active)
    ensures forall j :: from <= j < i ==> es[j].active
    decreases |es| - from
  {
    if from == |es| || !es[from].active then from else FirstFree(es, from + 1)
  }

  /** The entry a token names, if that reservation is still active. */
  function Resolved(es: seq<Entry>, raw: nat): (r: Option<nat>)
    ensures r.Some? ==> r.value < |es| && es[r.value].active
  {
    match Decode(GENERATION_MAX, |es|, raw)
    case None => None
    case Some((slot, generation)) =>
      if es[slot].active && es[slot].generation == generation then Some(slot) else None
  }

  function Opened(e: Entry, required: nat, stackCount: nat, stackSize: nat, stacks: seq<nat>): (r: Entry)
    requires e.generation <= GENERATION_MAX
  {
    Entry(NextGeneration(e.generation, GENERATION_MAX), required, 0, stackCount, stackSize, stacks, true)
  }

  function Closed(e: Entry): (r: Entry) {
    e.(remaining := 0, nextStack := 0, stackCount := 0, stackSize := 0, stacks := [], active := false)
  }

  function Taken(e: Entry): (r: Entry)
    requires e.remaining > 0 && (e.stackCount != 0 ==> e.nextStack < |e.stacks|)
  {
    if e.stackCount == 0 then e.(remaining := e.remaining - 1)
    else e.(remaining := e.remaining - 1, stacks := e.stacks[e.nextStack := 0], nextStack := e.nextStack + 1)
  }

  predicate TakeableAt(es: seq<Entry>, i: nat) {
    i < |es| && es[i].remaining > 0 && (es[i].stackCount != 0 ==> es[i].nextStack < |es[i].stacks|)
  }

  // ---- Plans --------------------------------------------------------------------------------------------

  datatype Group = Group(slots: nat, stackSize: nat)

  function Needed(groups: seq<Group>): nat {
    if groups == [] then 0 else Needed(groups[..|groups| - 1]) + groups[|groups| - 1].slots
  }

  function FreeCount(es: seq<Entry>): nat {
    if es == [] then 0 else (if es[0].active then 0 else 1) + FreeCount(es[1..])
  }

  lemma {:induction false} FreeUpdate(es: seq<Entry>, i: nat, e: Entry)
    requires i < |es| && !es[i].active && e.active
    ensures FreeCount(es[i := e]) + 1 == FreeCount(es)
  {
    if i == 0 {
      assert es[0 := e][1..] == es[1..];
    } else {
      assert es[i := e][1..] == es[1..][i - 1 := e];
      FreeUpdate(es[1..], i - 1, e);
    }
  }

  lemma {:induction false} FreeExists(es: seq<Entry>)
    ensures FreeCount(es) > 0 <==> exists i :: 0 <= i < |es| && !es[i].active
  {
    if es != [] {
      FreeExists(es[1..]);
      if exists i :: 0 <= i < |es| && !es[i].active {
        var i :| 0 <= i < |es| && !es[i].active;
        assert i > 0 ==> !es[1..][i - 1].active;
      }
      if FreeCount(es[1..]) > 0 {
        var i :| 0 <= i < |es[1..]| && !es[1..][i].active;
        assert !es[i + 1].active;
      }
    }
  }

  /** All the stacks meant for some groups, one list per group. */
  function StacksOf(groups: seq<Group>, stacks: seq<seq<nat>>): (r: multiset<nat>)
    requires |stacks| >= |groups| && forall i :: 0 <= i < |groups| ==> groups[i].slots <= |stacks[i]|
  {
    if groups == [] then multiset{}
    else
      var n := |groups| - 1;
      StacksOf(groups[..n], stacks) + multiset(stacks[n][..groups[n].slots])
  }

  predicate StacksReady(groups: seq<Group>, stacks: seq<seq<nat>>) {
    && |stacks| >= |groups|
    && forall i :: 0 <= i < |groups| ==> 0 < groups[i].slots <= |stacks[i]| && NonZero(stacks[i][..groups[i].slots])
  }

  lemma {:induction false} NeededGrows(groups: seq<Group>, i: nat)
    requires i <= |groups|
    ensures Needed(groups[..i]) <= Needed(groups)
    decreases |groups|
  {
    if i < |groups| {
      NeededGrows(groups[..|groups| - 1], i);
      assert groups[..|groups| - 1][..i] == groups[..i];
    } else {
      assert groups[..i] == groups;
    }
  }

  lemma NeededStep(groups: seq<Group>, i: nat)
    requires i < |groups|
    ensures Needed(groups[..i + 1]) == Needed(groups[..i]) + groups[i].slots
  {
    assert groups[..i + 1][..i] == groups[..i];
  }

  lemma StacksStep(groups: seq<Group>, stacks: seq<seq<nat>>, i: nat)
    requires i < |groups| && StacksReady(groups, stacks)
    ensures StacksOf(groups[..i + 1], stacks) == StacksOf(groups[..i], stacks) + multiset(stacks[i][..groups[i].slots])
  {
    assert groups[..i + 1][..i] == groups[..i];
  }

  /** The tokens name distinct active reservations, one per group, with all its slots promised. */
  ghost predicate Names(es: seq<Entry>, tokens: seq<nat>, groups: seq<Group>) {
    && |tokens| <= |groups|
    && (forall j :: 0 <= j < |tokens| ==>
          Resolved(es, tokens[j]).Some? && es[Resolved(es, tokens[j]).value].remaining == groups[j].slots)
    && (forall j, m :: 0 <= j < m < |tokens| ==> Resolved(es, tokens[j]) != Resolved(es, tokens[m]))
  }

  lemma NamesOneMore(es: seq<Entry>, tokens: seq<nat>, groups: seq<Group>, i: nat, e: Entry, token: nat)
    requires Names(es, tokens, groups) && |tokens| < |groups| && i < |es| && !es[i].active && e.active
    requires Resolved(es[i := e], token) == Some(i) && e.remaining == groups[|tokens|].slots
    ensures Names(es[i := e], tokens + [token], groups)
  {
    var es', tokens' := es[i := e], tokens + [token];
    forall j | 0 <= j < |tokens|
      ensures tokens'[j] == tokens[j] && Resolved(es', tokens[j]) == Resolved(es, tokens[j]) && Resolved(es, tokens[j]) != Some(i)
    {
    }
  }

  /** The stacks an entry has not handed out. */
  method Collect(e: Entry) returns (released: seq<nat>)
    requires GoodEntry(e)
    ensures released == Held(e)
  {
    released := [];
    var i := e.nextStack;
    while i < e.stackCount
      invariant e.nextStack <= i <= e.stackCount && released == e.stacks[e.nextStack..i]
    {
      assert e.stacks[i] == Held(e)[i - e.nextStack];
      if e.stacks[i] != 0 {
        released := released + [e.stacks[i]];
      }
      i := i + 1;
    }
  }

  lemma ClosedHolds(e: Entry)
    requires GoodEntry(e)
    ensures GoodEntry(Closed(e)) && Held(Closed(e)) == [] && NonZero(Held(e))
  {
  }

  class ReservationTable {
    const entries: array<Entry>
    var totalRemaining: nat

    /** The running total is the sum of all promises. */
    ghost predicate Valid()
      reads this, entries
    {
      GoodEntries(entries[..]) && totalRemaining == Promised(entries[..])
    }

    constructor (n: nat)
      requires 0 < n < SLOT_RADIX
      ensures Valid() && fresh(entries) && entries.Length == n && totalRemaining == 0 && AllHeld(entries[..]) == multiset{}
    {
      entries := new Entry[n](_ => Entry(0, 0, 0, 0, 0, [], false));
      totalRemaining := 0;
      new;
      EmptyTotals(entries[..]);
    }

    /** `reserve_with_stacks`, and `reserve` when `stackCount` is zero: `stacks` become the
        reservation's. A refusal changes nothing. */
    method Reserve(required: nat, available: nat, stackCount: nat, stackSize: nat, stacks: seq<nat>) returns (r: Result<nat>)
      requires Valid() && required > 0
      requires stackCount == 0 || stackCount == required
      requires required <= available ==> stackCount <= |stacks| && NonZero(stacks[..stackCount])
      modifies this`totalRemaining, entries
      ensures Valid()
      ensures r.Ok? == (required <= available && required <= U8_MAX && FirstFree(old(entries[..]), 0) < entries.Length)
      ensures r.Err? ==> entries[..] == old(entries[..]) && totalRemaining == old(totalRemaining)
      ensures r.Ok? ==>
        var i := FirstFree(old(entries[..]), 0);
        && entries[..] == old(entries[..])[i := Opened(old(entries[i]), required, stackCount, stackSize, stacks)]
        && Resolved(entries[..], r.value) == Some(i) && totalRemaining == old(totalRemaining) + required
        && AllHeld(entries[..]) == old(AllHeld(entries[..])) + multiset(stacks[..stackCount])
    {
      if required > available {
        return Err(InsufficientTaskSlots(required, available));
      }
      var slot := 0;
      while slot < entries.Length && entries[slot].active
        invariant slot <= entries.Length && FirstFree(entries[..], slot) == FirstFree(entries[..], 0)
      {
        slot := slot + 1;
      }
      if slot == entries.Length || required > U8_MAX {
        return Err(ResourceExhausted);
      }
      ghost var before := entries[..];
      var e := Opened(entries[slot], required, stackCount, stackSize, stacks);
      entries[slot] := e;
      totalRemaining := totalRemaining + required;
      assert entries[..] == before[slot := e];
      TotalsUpdate(before, slot, e);
      HeldNone(before[slot]);
      RoundTrip(GENERATION_MAX, entries.Length, slot, e.generation, Encode(GENERATION_MAX, slot, e.generation).value);
      r := Ok(Encode(GENERATION_MAX, slot, e.generation).value);
    }

    /** `reserve_plan_with_stacks`: all groups or none. Once the two checks pass, every group
        is admitted: the arm that would roll back is never taken. */
    method ReservePlan(groups: seq<Group>, available: nat, stacks: seq<seq<nat>>) returns (r: Result<seq<nat>>)
      requires Valid() && StacksReady(groups, stacks) && available <= U8_MAX
      modifies this`totalRemaining, entries
      ensures Valid()
      ensures r.Ok? <==> Needed(groups) <= available && |groups| <= FreeCount(old(entries[..]))
      ensures r.Err? ==> entries[..] == old(entries[..]) && totalRemaining == old(totalRemaining)
      ensures r.Ok? ==>
        && |r.value| == |groups| && Names(entries[..], r.value, groups)
        && totalRemaining == old(totalRemaining) + Needed(groups)
        && AllHeld(entries[..]) == old(AllHeld(entries[..])) + StacksOf(groups, stacks)
    {
      hide AllHeld, Promised, StacksOf, Needed, Resolved, Opened, FreeCount, FirstFree;
      var fits := Admit(groups, available);
      if fits.Some? {
        return Err(fits.value);
      }
      ghost var before := entries[..];
      var tokens: seq<nat> := [];
      var i := 0;
      NothingNeeded(groups, stacks);
      while i < |groups|
        invariant i <= |groups| && Valid() && |tokens| == i && Names(entries[..], tokens, groups)
        invariant FreeCount(entries[..]) + i == FreeCount(before) && Needed(groups[..i]) <= available
        invariant totalRemaining == old(totalRemaining) + Needed(groups[..i])
        invariant AllHeld(entries[..]) == AllHeld(before) + StacksOf(groups[..i], stacks)
      {
        ghost var es := entries[..];
        NeededStep(groups, i);
        NeededGrows(groups, i + 1);
        StacksStep(groups, stacks, i);
        FreeFirst(es);
        var one := Reserve(groups[i].slots, available - Needed(groups[..i]), groups[i].slots, groups[i].stackSize, stacks[i]);
        // the roll-back arm of the source would start here
        assert one.Ok?;
        OpenedFacts(es[FirstFree(es, 0)], groups[i].slots, groups[i].stackSize, stacks[i]);
        FreeUpdate(es, FirstFree(es, 0), entries[FirstFree(es, 0)]);
        NamesOneMore(es, tokens, groups, FirstFree(es, 0), entries[FirstFree(es, 0)], one.value);
        tokens := tokens + [one.value];
        i := i + 1;
      }
      assert groups[..i] == groups;
      r := Ok(tokens);
    }

    /** The checks before a plan is carried out. */
    method Admit(groups: seq<Group>, available: nat) returns (refusal: Option<Error>)
      requires Valid()
      ensures refusal.None? <==> Needed(groups) <= available && |groups| <= FreeCount(entries[..])
    {
      var left: nat, i: nat := available, 0;
      while i < |groups|
        invariant i <= |groups| && Needed(groups[..i]) + left == available
      {
        NeededStep(groups, i);
        if groups[i].slots > left {
          NeededGrows(groups, i + 1);
          return Some(InsufficientGroupSlots(i, groups[i].slots, left));
        }
        left := left - groups[i].slots;
        i := i + 1;
      }
      assert groups[..i] == groups;
      var free: nat, j: nat := 0, entries.Length;
      assert entries[j..] == [];
      while j > 0
        invariant j <= entries.Length && free == FreeCount(entries[j..])
      {
        j := j - 1;
        assert entries[j..][1..] == entries[j + 1..];
        if !entries[j].active {
          free := free + 1;
        }
      }
      assert entries[0..] == entries[..];
      refusal := if free < |groups| then Some(ResourceExhausted) else None;
    }

    /** Take one promised slot, with its stack if the reservation has stacks. The stack leaves
        the table. */
    method Consume(raw: nat) returns (r: Result<Option<Stack>>)
      requires Valid()
      modifies this`totalRemaining, entries
      ensures Valid()
      ensures var slot := Resolved(old(entries[..]), raw);
        && (slot.None? ==> r == Err(InvalidHandle))
        && (slot.Some? && old(entries[..])[slot.value].remaining == 0 ==> r == Err(NoTaskSlots))
        && (slot.Some? && old(entries[..])[slot.value].remaining > 0 ==>
              && r.Ok? && totalRemaining == old(totalRemaining) - 1
              && TakeableAt(old(entries[..]), slot.value)
              && entries[..] == old(entries[..])[slot.value := Taken(old(entries[..])[slot.value])]
              && r.value.Some? == (old(entries[..])[slot.value].stackCount != 0)
              && old(AllHeld(entries[..])) == AllHeld(entries[..]) + (if r.value.Some? then multiset{r.value.value.pointer} else multiset{})
              && (r.value.Some? ==> r.value.value.pointer != 0 && r.value.value.size == old(entries[..])[slot.value].stackSize))
      ensures r.Err? ==> entries[..] == old(entries[..]) && totalRemaining == old(totalRemaining)
    {
      var d := Decode(GENERATION_MAX, entries.Length, raw);
      if d.None? {
        return Err(InvalidHandle);
      }
      var (slot, generation) := d.value;
      var e := entries[slot];
      if !e.active || e.generation != generation {
        return Err(InvalidHandle);
      }
      if e.remaining == 0 {
        return Err(NoTaskSlots);
      }
      hide Held, AllHeld, Promised, Taken;
      ghost var before := entries[..];
      assert GoodEntry(before[slot]);
      PromisedBounds(before, slot);
      TakenFacts(e);
      var stack: Option<Stack> := if e.stackCount == 0 then None else Some(Stack(e.stacks[e.nextStack], e.stackSize));
      entries[slot] := Taken(e);
      totalRemaining := totalRemaining - 1;
      assert entries[..] == before[slot := Taken(e)];
      TotalsUpdate(before, slot, Taken(e));
      Cancel(AllHeld(before), AllHeld(entries[..]), multiset(Held(Taken(e))), if stack.Some? then multiset{stack.value.pointer} else multiset{});
      r := Ok(stack);
    }

    /** End a reservation; the stacks it still held come back, each once. */
    method Release(raw: nat) returns (r: Result<seq<nat>>)
      requires Valid()
      modifies this`totalRemaining, entries
      ensures Valid()
      ensures var slot := Resolved(old(entries[..]), raw);
        && (slot.None? ==> r == Err(InvalidHandle) && entries[..] == old(entries[..]) && totalRemaining == old(totalRemaining))
        && (slot.Some? ==>
              && r == Ok(Held(old(entries[..])[slot.value])) && NonZero(r.value)
              && entries[..] == old(entries[..])[slot.value := Closed(old(entries[..])[slot.value])]
              && totalRemaining == old(totalRemaining) - old(entries[..])[slot.value].remaining
              && old(AllHeld(entries[..])) == AllHeld(entries[..]) + multiset(r.value)
              && Resolved(entries[..], raw).None?)
    {
      var d := Decode(GENERATION_MAX, entries.Length, raw);
      if d.None? {
        return Err(InvalidHandle);
      }
      var (slot, generation) := d.value;
      var e := entries[slot];
      if !e.active || e.generation != generation {
        return Err(InvalidHandle);
      }
      hide AllHeld, Promised, Held;
      ghost var before := entries[..];
      assert GoodEntry(before[slot]);
      var released := Collect(e);
      PromisedBounds(before, slot);
      ClosedHolds(e);
      entries[slot] := Closed(e);
      totalRemaining := totalRemaining - e.remaining;
      assert entries[..] == before[slot := Closed(e)];
      TotalsUpdate(before, slot, Closed(e));
      r := Ok(released);
    }
  }

  lemma NothingNeeded(groups: seq<Group>, stacks: seq<seq<nat>>)
    requires StacksReady(groups, stacks)
    ensures groups[..0] == [] && Needed(groups[..0]) == 0 && StacksOf(groups[..0], stacks) == multiset{}
  {
  }

  lemma FreeFirst(es: seq<Entry>)
    ensures FreeCount(es) > 0 <==> FirstFree(es, 0) < |es|
  {
    FreeExists(es);
  }

  lemma OpenedFacts(e: Entry, required: nat, stackSize: nat, stacks: seq<nat>)
    requires e.generation <= GENERATION_MAX
    ensures var r := Opened(e, required, required, stackSize, stacks); r.active && r.remaining == required
  {
  }

  lemma {:induction false} EmptyTotals(es: seq<Entry>)
    requires forall i :: 0 <= i < |es| ==> es[i] == Entry(0, 0, 0, 0, 0, [], false)
    ensures Promised(es) == 0 && AllHeld(es) == multiset{}
  {
    if es != [] {
      EmptyTotals(es[1..]);
    }
  }

  lemma HeldNone(e: Entry)
    requires GoodEntry(e) && !e.active
    ensures Held(e) == []
  {
  }

  /** Handing one stack out shortens what is held by exactly that stack. */
  lemma TakenFacts(e: Entry)
    requires GoodEntry(e) && e.active && e.remaining > 0
    ensures e.stackCount != 0 ==> e.nextStack < e.stackCount && e.stacks[e.nextStack] != 0
    ensures GoodEntry(Taken(e)) && Taken(e).remaining == e.remaining - 1
    ensures multiset(Held(e)) == multiset(Held(Taken(e))) + (if e.stackCount != 0 then multiset{e.stacks[e.nextStack]} else multiset{})
  {
    if e.stackCount != 0 {
      assert Held(e)[0] == e.stacks[e.nextStack];
      assert Held(e) == [e.stacks[e.nextStack]] + Held(Taken(e));
      assert forall i :: 0 <= i < |Held(Taken(e))| ==> Held(Taken(e))[i] == Held(e)[i + 1];
    }
  }

  // ---- Whole lives of the table -------------------------------------------------------------------------

  /** What the calls do to the entries: a group admitted, a promise consumed, a reservation released. */
  datatype Use = Opening(required: nat, stackCount: nat, stackSize: nat, stacks: seq<nat>) | Taking(raw: nat) | Closing(raw: nat)

  predicate Dated(es: seq<Entry>) {
    forall i :: 0 <= i < |es| ==> es[i].generation <= GENERATION_MAX
  }

  /** What one call leaves; refused calls leave everything. */
  function After(es: seq<Entry>, u: Use): (r: seq<Entry>)
    requires Dated(es)
    ensures |r| == |es| && Dated(r)
  {
    match u
    case Opening(required, stackCount, stackSize, stacks) =>
      var i := FirstFree(es, 0);
      if i == |es| then es else es[i := Opened(es[i], required, stackCount, stackSize, stacks)]
    case Taking(raw) =>
      var slot := Resolved(es, raw);
      if slot.Some? && TakeableAt(es, slot.value) then es[slot.value := Taken(es[slot.value])] else es
    case Closing(raw) =>
      var slot := Resolved(es, raw);
      if slot.Some? then es[slot.value := Closed(es[slot.value])] else es
  }

  function AfterAll(es: seq<Entry>, us: seq<Use>): (r: seq<Entry>)
    requires Dated(es)
    ensures |r| == |es| && Dated(r)
    decreases |us|
  {
    if us == [] then es else AfterAll(After(es, us[0]), us[1..])
  }

  /** How often entry `i` was opened anew. */
  function Openings(es: seq<Entry>, us: seq<Use>, i: nat): nat
    requires Dated(es)
    decreases |us|
  {
    if us == [] then 0
    else (if us[0].Opening? && FirstFree(es, 0) == i && i < |es| then 1 else 0) + Openings(After(es, us[0]), us[1..], i)
  }

  /** Some call releases the reservation in entry `i`. */
  predicate Ended(es: seq<Entry>, us: seq<Use>, i: nat)
    requires Dated(es)
    decreases |us|
  {
    us != [] && ((us[0].Closing? && Resolved(es, us[0].raw) == Some(i)) || Ended(After(es, us[0]), us[1..], i))
  }

  lemma EntryStep(es: seq<Entry>, u: Use, i: nat)
    requires i < |es| && Dated(es)
    ensures var (e, r) := (es[i], After(es, u)[i]);
      if u.Opening? && FirstFree(es, 0) == i then !e.active && r.active && r.generation == NextGeneration(e.generation, GENERATION_MAX)
      else r.generation == e.generation && r.remaining <= e.remaining
           && (r.active <==> e.active && !(u.Closing? && Resolved(es, u.raw) == Some(i)))
  {
  }

  /** The generation of an entry counts its openings; without one its reservation is active exactly
      until it is released, and never promises more than it did. */
  lemma {:induction false} EntryLife(es: seq<Entry>, us: seq<Use>, i: nat)
    requires i < |es| && Dated(es)
    ensures var (e, r, n) := (es[i], AfterAll(es, us)[i], Openings(es, us, i));
      && r.generation == GenerationAfter(e.generation, n, GENERATION_MAX)
      && (n == 0 ==> r.remaining <= e.remaining && (r.active <==> e.active && !Ended(es, us, i)))
    decreases |us|
  {
    hide After, Resolved;
    if us != [] {
      EntryStep(es, us[0], i);
      EntryLife(After(es, us[0]), us[1..], i);
      GenerationShift(es[i].generation, Openings(After(es, us[0]), us[1..], i), GENERATION_MAX);
    }
  }

  /** The whole life of a reservation token: it names its own reservation until that is released,
      then nothing, until its entry has been opened anew a multiple of 65535 times. */
  lemma TokenLife(es: seq<Entry>, us: seq<Use>, raw: nat)
    requires Dated(es) && Resolved(es, raw).Some?
    ensures var i := Resolved(es, raw).value;
      var (r, n) := (AfterAll(es, us), Openings(es, us, i));
      && Resolved(r, raw) == (if r[i].active && n % GENERATION_MAX == 0 then Some(i) else None)
      && (n == 0 ==> (Resolved(r, raw) == Some(i) <==> !Ended(es, us, i)) && r[i].remaining <= es[i].remaining)
  {
    hide AfterAll, Openings, Ended;
    var i := Resolved(es, raw).value;
    EntryLife(es, us, i);
    ReuseWraps(es[i].generation, Openings(es, us, i), GENERATION_MAX);
  }
}
