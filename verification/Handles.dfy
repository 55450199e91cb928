/** Generation-checked handles: how they are packed into one integer, and how the generation of
    a reused slot goes round. */
module Handles {
  import opened Lists
  import opened Arith

  const SLOT_RADIX: nat := 256

  /** `(generation << 8) | low`, for a low part that fits its byte. */
  function Pack(generation: nat, low: nat): (raw: nat)
    requires low < SLOT_RADIX
  {
    generation * SLOT_RADIX + low
  }

  /** Shift and mask undo the packing, and nothing else packs to the same integer. */
  lemma PackUnpacks(generation: nat, low: nat)
    requires low < SLOT_RADIX
    ensures Pack(generation, low) / SLOT_RADIX == generation && Pack(generation, low) % SLOT_RADIX == low
  {
  }

  lemma UnpackPacks(raw: nat)
    ensures Pack(raw / SLOT_RADIX, raw % SLOT_RADIX) == raw
  {
  }

  // ---- Task identities --------------------------------------------------------------------------

  /** `encode_task_id` for a table of `n` slots; generation zero is never live. */
  function EncodeTask(n: nat, slot: nat, generation: nat): Option<nat> {
    if slot >= n || slot >= SLOT_RADIX || generation == 0 then None else Some(Pack(generation, slot))
  }

  /** `decode_task_id`; a generation has sixteen bits. */
  function DecodeTask(n: nat, raw: nat): Option<(nat, nat)> {
    var slot, generation := raw % SLOT_RADIX, raw / SLOT_RADIX;
    if generation > 0xFFFF || slot >= n || generation == 0 then None else Some((slot, generation))
  }

  /** Encoding and decoding are inverse on everything either accepts. */
  lemma TaskRoundTrip(n: nat, slot: nat, generation: nat, raw: nat)
    requires generation <= 0xFFFF && n <= SLOT_RADIX
    ensures EncodeTask(n, slot, generation) == Some(raw) <==> DecodeTask(n, raw) == Some((slot, generation))
  {
    if slot < SLOT_RADIX {
      PackUnpacks(generation, slot);
    }
    UnpackPacks(raw);
  }

  // ---- Tokens with a one-based slot ----------------------------------------------------------------

  /** `encode_handle` and the reservation token: slot zero is stored as one, so that no token
      is zero. `max` is the largest generation. */
  function Encode(max: nat, slot: nat, generation: nat): Option<nat> {
    if slot + 1 >= SLOT_RADIX || generation == 0 || generation > max then None else Some(Pack(generation, slot + 1))
  }

  /** `decode_handle`, for a table of `n` slots. */
  function Decode(max: nat, n: nat, raw: nat): (r: Option<(nat, nat)>)
    ensures r.Some? ==> r.value.0 < n
  {
    var low, generation := raw % SLOT_RADIX, raw / SLOT_RADIX;
    if low == 0 || low > n || generation == 0 || generation > max then None else Some((low - 1, generation))
  }

  lemma RoundTrip(max: nat, n: nat, slot: nat, generation: nat, raw: nat)
    requires n < SLOT_RADIX && slot < n
    ensures Encode(max, slot, generation) == Some(raw) <==> Decode(max, n, raw) == Some((slot, generation))
    ensures Encode(max, slot, generation) == Some(raw) ==> raw != 0
  {
    PackUnpacks(generation, slot + 1);
    UnpackPacks(raw);
  }

  // ---- Generations ---------------------------------------------------------------------------------

  /** One past, skipping zero: `next_generation`, and `wrapping_add(1).max(1)`. */
  function NextGeneration(g: nat, max: nat): (r: nat)
    requires g <= max && 1 <= max
    ensures 1 <= r <= max
  {
    if g == 0 || g == max then 1 else g + 1
  }

  function GenerationAfter(g: nat, uses: nat, max: nat): (r: nat)
    requires g <= max && 1 <= max
    ensures r <= max
  {
    if uses == 0 then g else NextGeneration(GenerationAfter(g, uses - 1, max), max)
  }

  /** Generations run through 1 to `max` in a circle. */
  lemma {:induction false} GenerationIs(g: nat, uses: nat, max: nat)
    requires 1 <= g <= max
    ensures GenerationAfter(g, uses, max) == (g - 1 + uses) % max + 1
  {
    if uses == 0 {
      ModIs(0, g - 1, max);
    } else {
      GenerationIs(g, uses - 1, max);
      StepMod(g - 1 + uses - 1, max);
    }
  }

  /** A slot shows an old generation again exactly after a multiple of `max` reuses: an old
      handle is safe until its generation wraps, and not beyond. */
  lemma ReuseWraps(g: nat, uses: nat, max: nat)
    requires 1 <= g <= max
    ensures GenerationAfter(g, uses, max) == g <==> uses % max == 0
  {
    GenerationIs(g, uses, max);
    ModIs(0, g - 1, max);
    ModDifference(g - 1 + uses, g - 1, max);
  }

  /** Counting from the next generation is counting one more. */
  lemma {:induction false} GenerationShift(g: nat, uses: nat, max: nat)
    requires g <= max && 1 <= max
    ensures GenerationAfter(NextGeneration(g, max), uses, max) == GenerationAfter(g, uses + 1, max)
  {
    if uses > 0 {
      GenerationShift(g, uses - 1, max);
    }
  }
}
