/** `ResourceTable`: the registry of live semaphores and mutexes behind generation-checked
    handles. */
module Resource {
  import opened Lists
  import opened Arith
  import opened Handles

  datatype Kind = Semaphore | Mutex
  datatype Slot = Slot(pointer: nat, generation: nat, kind: Kind)
  datatype Error = ResourceExhausted | InvalidHandle
  datatype Result<+T> = Ok(value: T) | Err(error: Error)

  /** `usize::MAX >> 8` on the 32-bit target. */
  const GENERATION_MAX: nat := 0xFF_FFFF

  predicate GoodSlots(slots: seq<Slot>) {
    && 0 < |slots| < SLOT_RADIX
    && forall i :: 0 <= i < |slots| ==> slots[i].generation <= GENERATION_MAX && (slots[i].pointer != 0 ==> slots[i].generation != 0)
  }

  /** What a handle of a kind names, if it names something live. */
  function Resolved(slots: seq<Slot>, raw: nat, kind: Kind): (r: Result<nat>)
    requires GoodSlots(slots)
  {
    match Decode(GENERATION_MAX, |slots|, raw)
    case None => Err(InvalidHandle)
    case Some((slot, generation)) =>
      var s := slots[slot];
      if s.pointer == 0 || s.generation != generation || s.kind != kind then Err(InvalidHandle) else Ok(s.pointer)
  }

  /** The first empty slot. */
  function FirstEmpty(slots: seq<Slot>, from: nat): (i: nat)
    requires from <= |slots|
    ensures from <= i <= |slots| && (i < |slots| ==> slots[i].pointer == 0)
    ensures forall j :: from <= j < i ==> slots[j].pointer != 0
    decreases |slots| - from
  {
    if from == |slots| || slots[from].pointer == 0 then from else FirstEmpty(slots, from + 1)
  }

  function Reused(s: Slot, pointer: nat, kind: Kind): (r: Slot)
    requires s.generation <= GENERATION_MAX
  {
    Slot(pointer, NextGeneration(s.generation, GENERATION_MAX), kind)
  }

  class ResourceTable {
    const slots: array<Slot>

    ghost predicate Valid()
      reads this, slots
    {
      GoodSlots(slots[..])
    }

    constructor (n: nat)
      requires 0 < n < SLOT_RADIX
      ensures Valid() && fresh(slots) && slots.Length == n && forall i :: 0 <= i < n ==> slots[i] == Slot(0, 0, Semaphore)
    {
      slots := new Slot[n](_ => Slot(0, 0, Semaphore));
    }

    /** The new handle names the new object; a full table is left alone. */
    method Insert(pointer: nat, kind: Kind) returns (r: Result<nat>)
      requires Valid() && pointer != 0
      modifies slots
      ensures Valid()
      ensures var i := FirstEmpty(old(slots[..]), 0);
        if i == slots.Length then r == Err(ResourceExhausted) && slots[..] == old(slots[..])
        else
          && slots[..] == old(slots[..])[i := Reused(old(slots[i]), pointer, kind)]
          && r.Ok? && Encode(GENERATION_MAX, i, slots[i].generation) == Some(r.value)
    {
      var i := 0;
      while i < slots.Length && slots[i].pointer != 0
        invariant i <= slots.Length && FirstEmpty(slots[..], i) == FirstEmpty(slots[..], 0)
      {
        i := i + 1;
      }
      if i == slots.Length {
        return Err(ResourceExhausted);
      }
      ghost var before := slots[..];
      slots[i] := Slot(pointer, NextGeneration(slots[i].generation, GENERATION_MAX), kind);
      assert slots[..] == before[i := Reused(before[i], pointer, kind)];
      r := Ok(Encode(GENERATION_MAX, i, slots[i].generation).value);
    }

    method Resolve(raw: nat, kind: Kind) returns (r: Result<nat>)
      requires Valid()
      ensures r == Resolved(slots[..], raw, kind)
    {
      var d := Decode(GENERATION_MAX, slots.Length, raw);
      if d.None? {
        return Err(InvalidHandle);
      }
      var (slot, generation) := d.value;
      var s := slots[slot];
      if s.pointer == 0 || s.generation != generation || s.kind != kind {
        return Err(InvalidHandle);
      }
      r := Ok(s.pointer);
    }

    method Remove(raw: nat, kind: Kind) returns (r: Result<nat>)
      requires Valid()
      modifies slots
      ensures Valid() && r == Resolved(old(slots[..]), raw, kind)
      ensures slots[..] == if r.Ok? then Emptied(old(slots[..]), raw) else old(slots[..])
    {
      r := Resolve(raw, kind);
      if r.Err? {
        return;
      }
      var (slot, _) := Decode(GENERATION_MAX, slots.Length, raw).value;
      ghost var before := slots[..];
      slots[slot] := slots[slot].(pointer := 0);
      assert slots[..] == Emptied(before, raw);
    }
  }

  /** The slot of a handle, emptied; its generation stays. */
  function Emptied(slots: seq<Slot>, raw: nat): (r: seq<Slot>)
    requires GoodSlots(slots) && Decode(GENERATION_MAX, |slots|, raw).Some?
  {
    var (i, _) := Decode(GENERATION_MAX, |slots|, raw).value;
    slots[i := slots[i].(pointer := 0)]
  }

  // ---- What handles promise ----------------------------------------------------------------------

  /** The handle an insertion returns resolves to the inserted object, under its own kind only. */
  lemma InsertResolves(slots: seq<Slot>, pointer: nat, kind: Kind, raw: nat, other: Kind)
    requires GoodSlots(slots) && pointer != 0 && FirstEmpty(slots, 0) < |slots|
    requires var i := FirstEmpty(slots, 0); Encode(GENERATION_MAX, i, Reused(slots[i], pointer, kind).generation) == Some(raw)
    ensures var i := FirstEmpty(slots, 0);
      var after := slots[i := Reused(slots[i], pointer, kind)];
      GoodSlots(after) && Resolved(after, raw, other) == if other == kind then Ok(pointer) else Err(InvalidHandle)
  {
    var i := FirstEmpty(slots, 0);
    RoundTrip(GENERATION_MAX, |slots|, i, Reused(slots[i], pointer, kind).generation, raw);
  }

  /** Inserting does not disturb any handle that resolves. */
  lemma InsertKeeps(slots: seq<Slot>, pointer: nat, kind: Kind, raw: nat, k: Kind)
    requires GoodSlots(slots) && pointer != 0 && FirstEmpty(slots, 0) < |slots| && Resolved(slots, raw, k).Ok?
    ensures var i := FirstEmpty(slots, 0);
      var after := slots[i := Reused(slots[i], pointer, kind)];
      GoodSlots(after) && Resolved(after, raw, k) == Resolved(slots, raw, k)
  {
  }

  /** Removing kills the removed handle and no other that resolves. */
  lemma RemoveKills(slots: seq<Slot>, raw: nat, kind: Kind, raw': nat, kind': Kind)
    requires GoodSlots(slots) && Resolved(slots, raw, kind).Ok?
    ensures GoodSlots(Emptied(slots, raw)) && Resolved(Emptied(slots, raw), raw, kind') == Err(InvalidHandle)
    ensures raw' != raw && Resolved(slots, raw', kind').Ok? ==>
      Resolved(Emptied(slots, raw), raw', kind') == Resolved(slots, raw', kind')
  {
    UnpackPacks(raw);
    UnpackPacks(raw');
  }

  /** A handle whose slot was reused `uses` times since resolves again only after a multiple of
      the whole generation range. */
  lemma StaleStaysDead(slots: seq<Slot>, raw: nat, uses: nat, kind: Kind)
    requires GoodSlots(slots) && Decode(GENERATION_MAX, |slots|, raw).Some?
    requires var (i, g) := Decode(GENERATION_MAX, |slots|, raw).value; slots[i].generation == GenerationAfter(g, uses, GENERATION_MAX)
    ensures var (i, _) := Decode(GENERATION_MAX, |slots|, raw).value;
      Resolved(slots, raw, kind).Ok? <==> slots[i].pointer != 0 && slots[i].kind == kind && uses % GENERATION_MAX == 0
  {
    var (i, g) := Decode(GENERATION_MAX, |slots|, raw).value;
    ReuseWraps(g, uses, GENERATION_MAX);
  }

  // ---- Whole lives of a registry ----------------------------------------------------------------------

  datatype Use = Inserting(pointer: nat, kind: Kind) | Removing(raw: nat, kind: Kind)

  /** What one call leaves; refused calls leave everything. */
  function After(slots: seq<Slot>, u: Use): (r: seq<Slot>)
    requires GoodSlots(slots)
    ensures |r| == |slots| && ((u.Inserting? ==> u.pointer != 0) ==> GoodSlots(r))
  {
    match u
    case Inserting(pointer, kind) =>
      var i := FirstEmpty(slots, 0);
      if i == |slots| then slots else slots[i := Reused(slots[i], pointer, kind)]
    case Removing(raw, kind) =>
      if Resolved(slots, raw, kind).Ok? then Emptied(slots, raw) else slots
  }

  predicate Sane(us: seq<Use>) {
    forall i :: 0 <= i < |us| && us[i].Inserting? ==> us[i].pointer != 0
  }

  function AfterAll(slots: seq<Slot>, us: seq<Use>): (r: seq<Slot>)
    requires GoodSlots(slots) && Sane(us)
    ensures GoodSlots(r) && |r| == |slots|
    decreases |us|
  {
    if us == [] then slots else AfterAll(After(slots, us[0]), us[1..])
  }

  /** How often slot `i` was taken anew. */
  function Reuses(slots: seq<Slot>, us: seq<Use>, i: nat): nat
    requires GoodSlots(slots) && Sane(us)
    decreases |us|
  {
    if us == [] then 0
    else
      (if us[0].Inserting? && FirstEmpty(slots, 0) == i && i < |slots| then 1 else 0)
      + Reuses(After(slots, us[0]), us[1..], i)
  }

  /** The generation of a slot counts its reuses, and without a reuse the slot keeps its object
      or is empty. */
  lemma {:induction false} SlotLife(slots: seq<Slot>, us: seq<Use>, i: nat)
    requires GoodSlots(slots) && Sane(us) && i < |slots|
    ensures var (s, r, n) := (slots[i], AfterAll(slots, us)[i], Reuses(slots, us, i));
      && r.generation == GenerationAfter(s.generation, n, GENERATION_MAX)
      && (n == 0 ==> r.kind == s.kind && (r.pointer == s.pointer || r.pointer == 0))
    decreases |us|
  {
    if us != [] {
      var next := After(slots, us[0]);
      SlotLife(next, us[1..], i);
      if us[0].Inserting? && FirstEmpty(slots, 0) == i {
        GenerationShift(slots[i].generation, Reuses(next, us[1..], i), GENERATION_MAX);
      }
    }
  }

  /** The whole life of a handle: whatever is created and destroyed afterwards, it names its own
      object or nothing until its slot has been reused, then nothing until the generation of the
      slot has gone all the way round. */
  lemma HandleLife(slots: seq<Slot>, us: seq<Use>, raw: nat, kind: Kind, other: Kind)
    requires GoodSlots(slots) && Sane(us) && Resolved(slots, raw, kind).Ok?
    ensures var (i, _) := Decode(GENERATION_MAX, |slots|, raw).value;
      var (r, n) := (AfterAll(slots, us), Reuses(slots, us, i));
      && (Resolved(r, raw, other).Ok? <==> r[i].pointer != 0 && r[i].kind == other && n % GENERATION_MAX == 0)
      && (n == 0 && Resolved(r, raw, other).Ok? ==> other == kind && Resolved(r, raw, other) == Resolved(slots, raw, kind))
  {
    var (i, g) := Decode(GENERATION_MAX, |slots|, raw).value;
    SlotLife(slots, us, i);
    ReuseWraps(g, Reuses(slots, us, i), GENERATION_MAX);
  }
}
