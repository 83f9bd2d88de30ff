/** Wrapping 16-bit sequence numbers and 32-bit timestamps, as compared by the RDP code. */
module SeqNum {

  const M16: int := 0x1_0000
  const M32: int := 0x1_0000_0000

  type u16 = x: int | 0 <= x < 0x1_0000
  type u32 = x: int | 0 <= x < 0x1_0000_0000

  /** Conversion of an arbitrary integer to uint16_t. */
  function Wrap(x: int): u16 { x % 0x1_0000 }

  /** Conversion of an arbitrary integer to uint32_t. */
  function Wrap32(x: int): u32 { x % 0x1_0000_0000 }

  /** Reinterpretation of the low 16 bits as int16_t. */
  function Signed16(x: int): int { if x % 0x1_0000 < 0x8000 then x % 0x1_0000 else x % 0x1_0000 - 0x1_0000 }

  /** Reinterpretation of the low 32 bits as int32_t. */
  function Signed32(x: int): int {
    if x % 0x1_0000_0000 < 0x8000_0000 then x % 0x1_0000_0000 else x % 0x1_0000_0000 - 0x1_0000_0000
  }

  /** Both ends inclusive; the arguments are truncated to 16 bits on entry. */
  predicate SeqBetween(seqNr: int, start: int, end: int) {
    (end - start) % 0x1_0000 >= (seqNr - start) % 0x1_0000
  }

  predicate SeqBefore(seqNr: int, cmp: int) { Signed16(seqNr - cmp) < 0 }

  predicate SeqAfter(seqNr: int, cmp: int) { SeqBefore(cmp, seqNr) }

  predicate TimeBefore(time: int, cmp: int) { Signed32(time - cmp) < 0 }

  predicate TimeAfter(time: int, cmp: int) { TimeBefore(cmp, time) }

  /** Distance travelled from `base` to reach `x`, going up and wrapping. */
  function Offset(base: int, x: int): u16 { (x - base) % 0x1_0000 }

  /** Adding an offset below 2^16 and taking it back is the identity, whatever the base. */
  lemma OffsetOfWrap(base: int, i: int)
    requires 0 <= i < M16
    ensures Offset(base, Wrap(base + i)) == i
  {
  }

  /** Wrapping twice is wrapping once. */
  lemma WrapStep(base: int, i: int)
    ensures Wrap(Wrap(base + i) + 1) == Wrap(base + 1 + i)
  {
  }

  /** Wrapping does not change sums modulo 2^16. */
  lemma WrapModulo(x: int, k: int)
    ensures (Wrap(x) + k) % M16 == (x + k) % M16
  {
  }

  /** A number is its base plus its offset. */
  lemma WrapOfOffset(base: int, x: u16)
    ensures Wrap(base + Offset(base, x)) == x
  {
  }

  /** Below 2^15 the signed comparison orders the unwrapped numbers. */
  lemma BeforeIsLess(base: int, i: int, j: int)
    requires -0x8000 < i - j < 0x8000
    ensures SeqBefore(Wrap(base + i), Wrap(base + j)) <==> i < j
  {
  }

  /** The inclusive range test on wrapped numbers is the range test on the unwrapped ones, as long as the
      number tested lies within 2^16 of the start of the range. */
  lemma BetweenIsInRange(base: int, i: int, lo: int, hi: int)
    requires lo <= hi < lo + M16
    requires lo <= i < lo + M16
    ensures SeqBetween(Wrap(base + i), base + lo, base + hi) <==> i <= hi
  {
  }

  /** Below the start of a range a number fails the test when the wrapped distance overshoots the range. */
  lemma BetweenFailsBelow(base: int, i: int, lo: int, hi: int)
    requires lo <= hi < lo + M16
    requires i < lo && hi < i + M16
    ensures !SeqBetween(Wrap(base + i), base + lo, base + hi)
  {
  }
}
