/** Task admission: promised slots against free slots, and stacks between the allocator, the
    reservations and the tasks. */
module Admission {
  import opened Lists
  import Budget
  import opened Kernel
  import Reservation

  type Result<T> = Reservation.Result<T>

  // ---- Free slots ----------------------------------------------------------------------------------

  /** The Free slots among `[from, end)`. */
  function FreeSlots(state: seq<Status>, from: nat, end: nat): (n: nat)
    requires from <= end <= |state|
    ensures n <= end - from
    decreases end - from
  {
    if from == end then 0 else (if state[from].Free? then 1 else 0) + FreeSlots(state, from + 1, end)
  }

  /** The first Free slot at or after `from`, or `end`. */
  function FirstFree(state: seq<Status>, from: nat, end: nat): (i: nat)
    requires from <= end <= |state|
    ensures from <= i <= end && (i < end ==> state[i].Free?)
    ensures forall j :: from <= j < i ==> !state[j].Free?
    decreases end - from
  {
    if from == end || state[from].Free? then from else FirstFree(state, from + 1, end)
  }

  lemma {:induction false} FreeFound(state: seq<Status>, from: nat, end: nat)
    requires from <= end <= |state|
    ensures FreeSlots(state, from, end) > 0 <==> FirstFree(state, from, end) < end
    decreases end - from
  {
    if from < end && !state[from].Free? {
      FreeFound(state, from + 1, end);
    }
  }

  /** One slot changing between Free and another state changes the count by one. */
  lemma {:induction false} FreeChanges(state: seq<Status>, from: nat, end: nat, i: nat, s: Status)
    requires from <= end <= |state| && i < |state|
    ensures var inside := from <= i < end;
      FreeSlots(state[i := s], from, end) + (if inside && state[i].Free? then 1 else 0)
      == FreeSlots(state, from, end) + (if inside && s.Free? then 1 else 0)
    decreases end - from
  {
    if from < end {
      FreeChanges(state, from + 1, end, i, s);
    }
  }

  const FIRST: nat := IDLE + 1

  class TaskTable {
    var state: seq<Status>
    /** One past the last dynamic slot. */
    const end: nat
    const reservations: Reservation.ReservationTable

    function Free(): nat
      reads this
      requires FIRST <= end <= |state|
    {
      FreeSlots(state, FIRST, end)
    }

    /** Every promised slot is backed by a free one. */
    ghost predicate Valid()
      reads this, reservations, reservations.entries
    {
      && FIRST <= end <= |state| <= SLOT_LIMIT && end - FIRST <= Reservation.U8_MAX
      && reservations.Valid() && reservations.totalRemaining <= Free()
    }

    /** All slots but the first two are free and nothing is promised. */
    constructor (slots: nat, capacity: nat, reservationSlots: nat)
      requires FIRST + capacity <= slots <= SLOT_LIMIT && 0 < reservationSlots < 256 && capacity <= Reservation.U8_MAX
      ensures Valid() && end == FIRST + capacity && fresh(reservations) && fresh(reservations.entries)
      ensures reservations.totalRemaining == 0 && Reservation.AllHeld(reservations.entries[..]) == multiset{}
    {
      state := seq(slots, i => if i == 0 then Running else if i == IDLE then Ready else Status.Free);
      end := FIRST + capacity;
      reservations := new Reservation.ReservationTable(reservationSlots);
    }

    /** `alloc_dynamic_slot` and the spawn that takes the slot: refused exactly when every free
        slot is promised to somebody. */
    method SpawnOrdinary() returns (r: Result<nat>)
      requires Valid()
      modifies this`state
      ensures Valid() && (r.Ok? <==> old(Free()) > reservations.totalRemaining)
      ensures r.Ok? ==>
        && FIRST <= r.value < end && old(state)[r.value].Free? && state == old(state)[r.value := Ready] && Free() == old(Free()) - 1
        && forall j :: FIRST <= j < r.value ==> !old(state)[j].Free?
      ensures r.Err? ==> state == old(state)
    {
      if Free() <= reservations.totalRemaining {
        return Reservation.Err(Reservation.NoTaskSlots);
      }
      FreeFound(state, FIRST, end);
      var i := FirstFree(state, FIRST, end);
      FreeChanges(state, FIRST, end, i, Ready);
      state := state[i := Ready];
      r := Reservation.Ok(i);
    }

    /** `reserve_dynamic_task_resources`; `stackCount` is zero for slots without stacks. What is
        on offer is what is free and not promised yet. */
    method Reserve(required: nat, stackCount: nat, stackSize: nat, stacks: seq<nat>) returns (r: Result<nat>)
      requires Valid() && required > 0 && (stackCount == 0 || stackCount == required)
      requires required <= Free() ==> stackCount <= |stacks| && Reservation.NonZero(stacks[..stackCount])
      modifies reservations`totalRemaining, reservations.entries
      ensures Valid()
      ensures r.Ok? ==> required <= Free() - old(reservations.totalRemaining) && reservations.totalRemaining == old(reservations.totalRemaining) + required
      ensures r.Ok? ==> Reservation.AllHeld(reservations.entries[..]) == old(Reservation.AllHeld(reservations.entries[..])) + multiset(stacks[..stackCount])
      ensures r.Err? ==> reservations.entries[..] == old(reservations.entries[..]) && reservations.totalRemaining == old(reservations.totalRemaining)
    {
      r := reservations.Reserve(required, Free() - reservations.totalRemaining, stackCount, stackSize, stacks);
    }

    /** `alloc_reserved_dynamic_slot` and the spawn that takes the slot: a live reservation with
        promises left always finds one, and its stack with it. */
    method SpawnReserved(raw: nat) returns (r: Result<(nat, Option<Reservation.Stack>)>)
      requires Valid()
      modifies this`state, reservations`totalRemaining, reservations.entries
      ensures Valid()
      ensures var slot := Reservation.Resolved(old(reservations.entries[..]), raw);
        r.Ok? <==> slot.Some? && old(reservations.entries[..])[slot.value].remaining > 0
      ensures r.Ok? ==>
        && FIRST <= r.value.0 < end && old(state)[r.value.0].Free? && state == old(state)[r.value.0 := Ready]
        && old(Reservation.AllHeld(reservations.entries[..])) == Reservation.AllHeld(reservations.entries[..])
             + (if r.value.1.Some? then multiset{r.value.1.value.pointer} else multiset{})
      ensures r.Err? ==> state == old(state) && reservations.entries[..] == old(reservations.entries[..])
    {
      ghost var before := reservations.entries[..];
      var taken := reservations.Consume(raw);
      if taken.Err? {
        return Reservation.Err(taken.error);
      }
      FreeFound(state, FIRST, end);
      var i := FirstFree(state, FIRST, end);
      FreeChanges(state, FIRST, end, i, Ready);
      state := state[i := Ready];
      r := Reservation.Ok((i, taken.value));
    }

    /** A task leaves its slot. */
    method Exit(slot: nat)
      requires Valid() && FIRST <= slot < |state| && !state[slot].Free?
      modifies this`state
      ensures Valid() && state == old(state)[slot := Status.Free]
    {
      FreeChanges(state, FIRST, end, slot, Status.Free);
      state := state[slot := Status.Free];
    }

    /** The stacks a released reservation still held come back, each once, and its promises
        return to everybody. */
    method Release(raw: nat) returns (r: Result<seq<nat>>)
      requires Valid()
      modifies reservations`totalRemaining, reservations.entries
      ensures Valid() && (r.Ok? <==> Reservation.Resolved(old(reservations.entries[..]), raw).Some?)
      ensures r.Ok? ==>
        old(Reservation.AllHeld(reservations.entries[..])) == Reservation.AllHeld(reservations.entries[..]) + multiset(r.value)
        && Reservation.Resolved(reservations.entries[..], raw).None?
      ensures r.Err? ==> reservations.entries[..] == old(reservations.entries[..])
    {
      r := reservations.Release(raw);
    }

    /** The capacity snapshot adds up, and no subtraction in it ever saturates. */
    method Capacity() returns (used: nat, reserved: nat, free: nat)
      requires Valid()
      ensures used + reserved + free == end - FIRST
      ensures reserved == reservations.totalRemaining && free == Free() - reservations.totalRemaining
    {
      used, reserved := 0, reservations.totalRemaining;
      var i := end;
      while i > FIRST
        invariant FIRST <= i <= end && used + FreeSlots(state, i, end) == end - i
      {
        i := i - 1;
        if !state[i].Free? {
          used := used + 1;
        }
      }
      free := Budget.SatSub(Budget.SatSub(end - FIRST, used), reserved);
    }
  }

  // ---- Preallocated stacks ------------------------------------------------------------------------------

  /** How many of the first `n` requests an allocator grants before it first says no; `supply`
      is what it will return, zero for no. */
  function Granted(supply: seq<nat>, n: nat): (r: nat)
    requires n <= |supply|
    ensures r <= n && Reservation.NonZero(supply[..r]) && (r < n ==> supply[r] == 0)
  {
    if n == 0 then 0
    else
      var r := Granted(supply, n - 1);
      if r == n - 1 && supply[r] != 0 then n else r
  }

  /** `preallocate_task_stacks`: all stacks, or none with every one that was obtained given
      back, in order. */
  method PreallocateTaskStacks(slots: nat, supply: seq<nat>) returns (stacks: Option<seq<nat>>, released: seq<nat>)
    requires slots <= |supply|
    ensures stacks.Some? <==> Granted(supply, slots) == slots
    ensures stacks.Some? ==> stacks.value == supply[..slots] && Reservation.NonZero(stacks.value) && released == []
    ensures stacks.None? ==> released == supply[..Granted(supply, slots)]
  {
    var got: seq<nat> := [];
    released := [];
    while |got| < slots
      invariant |got| <= slots && got == supply[..|got|] && Granted(supply, |got|) == |got| && released == []
    {
      var stack := supply[|got|];
      if stack == 0 {
        GrantedStops(supply, |got|, slots);
        var i := 0;
        while i < |got|
          invariant i <= |got| && released == got[..i]
        {
          released := released + [got[i]];
          i := i + 1;
        }
        return None, released;
      }
      got := got + [stack];
    }
    stacks := Some(got);
  }

  lemma {:induction false} GrantedStops(supply: seq<nat>, j: nat, n: nat)
    requires j < n <= |supply| && Granted(supply, j) == j && supply[j] == 0
    ensures Granted(supply, n) == j
  {
    if n > j + 1 {
      GrantedStops(supply, j, n - 1);
    }
  }

  /** `DYNAMIC_TASK_CAPACITY`: how many stacks a preallocation has room for. */
  const STACKS: nat := 15

  /** `reserve_task_resources`: every stack the allocator handed out ends up either in the
      reservation or given back once, whether admission succeeds or not. */
  method ReserveTaskResources(t: TaskTable, slots: nat, stackSize: nat, supply: seq<nat>) returns (r: Result<nat>, released: seq<nat>)
    requires t.Valid() && t.end - FIRST <= STACKS && slots > 0 && Budget.Min(slots, STACKS) <= |supply|
    modifies t.reservations`totalRemaining, t.reservations.entries
    ensures t.Valid()
    ensures var n := Granted(supply, Budget.Min(slots, STACKS));
      old(Reservation.AllHeld(t.reservations.entries[..])) + multiset(supply[..n])
      == Reservation.AllHeld(t.reservations.entries[..]) + multiset(released)
    ensures r.Err? ==> t.reservations.entries[..] == old(t.reservations.entries[..])
    ensures r.Ok? ==> released == [] && slots <= STACKS && Granted(supply, slots) == slots
  {
    var stacks;
    stacks, released := PreallocateTaskStacks(Budget.Min(slots, STACKS), supply);
    if stacks.None? {
      return Reservation.Err(Reservation.ResourceExhausted), released;
    }
    assert slots <= STACKS ==> stacks.value[..slots] == stacks.value;
    r := t.Reserve(slots, slots, stackSize, stacks.value);
    if r.Err? {
      released := stacks.value;
    }
  }

  // ---- Plans -----------------------------------------------------------------------------------------------

  function Flat(stacks: seq<seq<nat>>): seq<nat> {
    if stacks == [] then [] else Flat(stacks[..|stacks| - 1]) + stacks[|stacks| - 1]
  }

  lemma FlatStep(stacks: seq<seq<nat>>, xs: seq<nat>)
    ensures Flat(stacks + [xs]) == Flat(stacks) + xs
  {
    assert (stacks + [xs])[..|stacks|] == stacks;
  }

  /** Full rows are all the stacks of a plan. */
  lemma {:induction false} RowsAreStacks(groups: seq<Reservation.Group>, rows: seq<seq<nat>>)
    requires |rows| >= |groups| && forall i :: 0 <= i < |groups| ==> |rows[i]| == groups[i].slots
    ensures Reservation.StacksOf(groups, rows) == multiset(Flat(rows[..|groups|]))
    decreases |groups|
  {
    if groups != [] {
      var n := |groups| - 1;
      RowsAreStacks(groups[..n], rows);
      assert rows[..n + 1][..n] == rows[..n] && rows[n][..groups[n].slots] == rows[n];
    }
  }

  /** `release_all`: row by row, every stack once. */
  method ReleaseAll(rows: seq<seq<nat>>) returns (released: seq<nat>)
    requires Reservation.NonZero(Flat(rows))
    ensures released == Flat(rows)
  {
    released := [];
    var g := 0;
    while g < |rows|
      invariant g <= |rows| && released == Flat(rows[..g])
    {
      FlatStep(rows[..g], rows[g]);
      assert rows[..g] + [rows[g]] == rows[..g + 1];
      FlatPrefix(rows, g);
      var i := 0;
      while i < |rows[g]|
        invariant i <= |rows[g]| && released == Flat(rows[..g]) + rows[g][..i]
      {
        if rows[g][i] != 0 {
          released := released + [rows[g][i]];
        }
        i := i + 1;
      }
      assert rows[g][..i] == rows[g];
      g := g + 1;
    }
    assert rows[..g] == rows;
  }

  lemma {:induction false} FlatPrefix(rows: seq<seq<nat>>, g: nat)
    requires g < |rows| && Reservation.NonZero(Flat(rows))
    ensures Reservation.NonZero(rows[g])
    decreases |rows|
  {
    var n := |rows| - 1;
    assert forall i :: 0 <= i < |rows[n]| ==> Flat(rows)[|Flat(rows[..n])| + i] == rows[n][i];
    if g < n {
      assert forall i :: 0 <= i < |Flat(rows[..n])| ==> Flat(rows)[i] == Flat(rows[..n])[i];
      FlatPrefix(rows[..n], g);
    }
  }

  /** The plan's allocations run over the end of a row: some group asks for more stacks than a
      row has room for, and the allocator supplies one too many. */
  ghost predicate Overflows(groups: seq<Reservation.Group>, supply: seq<nat>)
    requires Reservation.Needed(groups) <= |supply|
  {
    exists g :: 0 <= g < |groups| && groups[g].slots > STACKS && Granted(supply, Reservation.Needed(groups)) > Reservation.Needed(groups[..g]) + STACKS
  }

  /** `preallocate_task_resource_plan`: a row of stacks for every group, or nothing kept. The
      source indexes past a row of fifteen, and panics, in exactly the cases stated. */
  method PreallocateTaskResourcePlan(groups: seq<Reservation.Group>, supply: seq<nat>)
    returns (rows: Option<seq<seq<nat>>>, released: seq<nat>, panicked: bool)
    requires Reservation.Needed(groups) <= |supply| && forall i :: 0 <= i < |groups| ==> groups[i].slots > 0
    ensures panicked <==> Overflows(groups, supply)
    ensures !panicked ==>
      var (n, all) := (Granted(supply, Reservation.Needed(groups)), Reservation.Needed(groups));
      && (rows.Some? <==> n == all)
      && (rows.Some? ==> Reservation.StacksReady(groups, rows.value) && Reservation.StacksOf(groups, rows.value) == multiset(supply[..n]) && Flat(rows.value) == supply[..n] && released == [])
      && (rows.None? ==> released == supply[..n])
  {
    hide Reservation.Needed, Flat, Granted;
    var got: seq<seq<nat>> := [];
    var at: nat := 0;
    panicked, released := false, [];
    Begins(groups, supply);
    while |got| < |groups|
      invariant |got| <= |groups| && at == Reservation.Needed(groups[..|got|]) <= Reservation.Needed(groups)
      invariant Granted(supply, at) == at && Flat(got) == supply[..at]
      invariant forall i :: 0 <= i < |got| ==> |got[i]| == groups[i].slots <= STACKS
    {
      var g := |got|;
      Reservation.NeededStep(groups, g);
      Reservation.NeededGrows(groups, g + 1);
      var row: seq<nat> := [];
      while |row| < groups[g].slots
        invariant |row| <= groups[g].slots && |row| <= STACKS && at == Reservation.Needed(groups[..g]) + |row|
        invariant Granted(supply, at) == at && Flat(got) + row == supply[..at]
      {
        var stack := supply[at];
        if stack == 0 {
          GrantedStops(supply, at, Reservation.Needed(groups));
          NoLaterOverflow(groups, supply, g, at);
          FlatStep(got, row);
          released := ReleaseAll(got + [row]);
          return None, released, false;
        }
        GrantedMore(supply, at);
        if |row| == STACKS {
          GrantedGrows(supply, at + 1, Reservation.Needed(groups));
          return None, [], true;
        }
        row := row + [stack];
        at := at + 1;
      }
      FlatStep(got, row);
      got := got + [row];
    }
    assert groups[..|got|] == groups && got[..|groups|] == got;
    RowsAreStacks(groups, got);
    forall i | 0 <= i < |groups| ensures Reservation.NonZero(got[i][..groups[i].slots]) {
      FlatPrefix(got, i);
    }
    rows := Some(got);
  }

  /** The allocator said no at `at`, inside group `g`, before any row was full. */
  lemma NoLaterOverflow(groups: seq<Reservation.Group>, supply: seq<nat>, g: nat, at: nat)
    requires Reservation.Needed(groups) <= |supply| && g < |groups| && forall i :: 0 <= i < g ==> groups[i].slots <= STACKS
    requires at <= Reservation.Needed(groups[..g]) + STACKS && Granted(supply, Reservation.Needed(groups)) == at
    requires at < Reservation.Needed(groups[..g + 1])
    ensures !Overflows(groups, supply)
  {
    hide Reservation.Needed, Granted;
    forall h | g < h < |groups| ensures Reservation.Needed(groups[..h]) >= at {
      Reservation.NeededGrows(groups[..h], g + 1);
      assert groups[..h][..g + 1] == groups[..g + 1];
    }
  }

  lemma {:induction false} GrantedGrows(supply: seq<nat>, n: nat, m: nat)
    requires n <= m <= |supply|
    ensures Granted(supply, n) <= Granted(supply, m)
  {
    if n < m {
      GrantedGrows(supply, n, m - 1);
    }
  }

  /** The exact condition a caller can check: no allocator can make a plan overflow if and only
      if no group asks for more than a row holds. */
  lemma FitsExactly(groups: seq<Reservation.Group>)
    ensures (forall supply :: |supply| >= Reservation.Needed(groups) ==> !Overflows(groups, supply))
      <==> forall g :: 0 <= g < |groups| ==> groups[g].slots <= STACKS
  {
    if g: nat :| g < |groups| && groups[g].slots > STACKS {
      var supply: seq<nat> := seq(Reservation.Needed(groups), _ => 1);
      AllGranted(supply, |supply|);
      Reservation.NeededStep(groups, g);
      Reservation.NeededGrows(groups, g + 1);
      assert Overflows(groups, supply);
    }
  }

  lemma {:induction false} AllGranted(supply: seq<nat>, n: nat)
    requires n <= |supply| && Reservation.NonZero(supply)
    ensures Granted(supply, n) == n
  {
    if n > 0 {
      AllGranted(supply, n - 1);
    }
  }

  lemma Begins(groups: seq<Reservation.Group>, supply: seq<nat>)
    ensures Reservation.Needed(groups[..0]) == 0 && Granted(supply, 0) == 0 && Flat([]) == supply[..0]
    ensures Reservation.Needed([]) == 0
  {
    assert groups[..0] == [];
  }

  lemma GrantedMore(supply: seq<nat>, n: nat)
    requires n < |supply| && Granted(supply, n) == n && supply[n] != 0
    ensures Granted(supply, n + 1) == n + 1
  {
  }

  /** `reserve_task_resource_plan`: all groups with all their stacks, or no group and every
      stack given back, unless a row overflows first. */
  method ReserveTaskResourcePlan(t: TaskTable, groups: seq<Reservation.Group>, supply: seq<nat>)
    returns (r: Result<seq<nat>>, released: seq<nat>, panicked: bool)
    requires t.Valid() && Reservation.Needed(groups) <= |supply| && forall i :: 0 <= i < |groups| ==> 0 < groups[i].slots
    modifies t.reservations`totalRemaining, t.reservations.entries
    ensures t.Valid() && (panicked <==> Overflows(groups, supply))
    ensures !panicked ==>
      var n := Granted(supply, Reservation.Needed(groups));
      && old(Reservation.AllHeld(t.reservations.entries[..])) + multiset(supply[..n])
         == Reservation.AllHeld(t.reservations.entries[..]) + multiset(released)
      && (r.Ok? <==> n == Reservation.Needed(groups) <= t.Free() - old(t.reservations.totalRemaining)
                     && |groups| <= Reservation.FreeCount(old(t.reservations.entries[..])))
    ensures panicked || r.Err? ==> t.reservations.entries[..] == old(t.reservations.entries[..])
    ensures !panicked && r.Ok? ==> released == [] && |r.value| == |groups| && Reservation.Names(t.reservations.entries[..], r.value, groups)
  {
    var rows;
    rows, released, panicked := PreallocateTaskResourcePlan(groups, supply);
    if panicked || rows.None? {
      return Reservation.Err(Reservation.ResourceExhausted), released, panicked;
    }
    r := t.reservations.ReservePlan(groups, t.Free() - t.reservations.totalRemaining, rows.value);
    if r.Err? {
      released := ReleaseAll(rows.value);
    }
  }
}
