/**
 * The 128-bit packing helper `createUint128_t` of vitis-example.c: the high
 * half is shifted into the top 64 bits and OR-ed with the low half.
 */
module Packing {

  /** 2^64, the weight of the high half of a 128-bit word. */
  const HALF_WEIGHT: int := 0x1_0000_0000_0000_0000

  /** 2^128, one past the largest unsigned 128-bit value. */
  const WORD_LIMIT: int := 0x1_0000_0000_0000_0000_0000_0000_0000_0000

  /** Selects the bottom 64 bits of a 128-bit word. */
  const LOW_MASK: bv128 := 0xFFFF_FFFF_FFFF_FFFF

  /** `((uint128_t)high << 64) | low`: the top half is `high`, the bottom half is `low`. */
  function CreateUint128(high: bv64, low: bv64): (r: bv128)
    ensures (r >> 64) as bv64 == high
    ensures (r & LOW_MASK) as bv64 == low
  {
    (high as bv128 << 64) | low as bv128
  }

  /** The inverse of CreateUint128: the (high, low) halves of a word. */
  function Halves(w: bv128): (hl: (bv64, bv64))
    ensures CreateUint128(hl.0, hl.1) == w
  {
    ((w >> 64) as bv64, (w & LOW_MASK) as bv64)
  }

  /** Read as an unsigned integer, the packed word is high * 2^64 + low, with no overflow. */
  lemma PackedValue(high: bv64, low: bv64)
    ensures CreateUint128(high, low) as int == high as int * HALF_WEIGHT + low as int
    ensures high as int * HALF_WEIGHT + low as int < WORD_LIMIT
  {
    // The two halves occupy disjoint bits, so the OR is a carry-free sum.
    assert CreateUint128(high, low) == (high as bv128 << 64) + low as bv128;
  }
}
