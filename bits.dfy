/** Read-modify-write of 32-bit hardware registers (C `unsigned int`).
    Every register update in the drivers has the form `r &= ~mask; r |= bits;`
    or sets or clears a single bit. `bits` is the caller's argument shifted
    into place and is NOT masked first, so an out-of-range argument reaches
    bits outside the mask. */
module Bits {

  /** `r &= ~mask; r |= bits;` */
  function Update(r: bv32, mask: bv32, bits: bv32): bv32 {
    (r & !mask) | bits
  }

  /** The new bits stay inside the mask: the argument was in range. */
  predicate Within(bits: bv32, mask: bv32) {
    bits & !mask == 0
  }

  /** Inside the mask the register holds exactly the new bits. */
  lemma UpdateReads(r: bv32, mask: bv32, bits: bv32)
    ensures Update(r, mask, bits) & mask == bits & mask
  {
  }

  /** Outside the mask the register keeps its old bits, plus whatever new
      bits stray there. */
  lemma UpdateSpills(r: bv32, mask: bv32, bits: bv32)
    ensures Update(r, mask, bits) & !mask == (r | bits) & !mask
  {
  }

  /** An in-range update changes the masked bits and nothing else. */
  lemma UpdateKeepsOthers(r: bv32, mask: bv32, bits: bv32)
    requires Within(bits, mask)
    ensures Update(r, mask, bits) & !mask == r & !mask
    ensures Update(r, mask, bits) & mask == bits
  {
  }

  /** Repeating an update changes nothing, in range or not. */
  lemma UpdateIdempotent(r: bv32, mask: bv32, bits: bv32)
    ensures Update(Update(r, mask, bits), mask, bits) == Update(r, mask, bits)
  {
  }

  /** Two in-range updates of disjoint masks clear both masks and set both
      groups of new bits. */
  lemma UpdateBoth(r: bv32, m1: bv32, b1: bv32, m2: bv32, b2: bv32)
    requires m1 & m2 == 0 && Within(b1, m1) && Within(b2, m2)
    ensures Update(Update(r, m1, b1), m2, b2) == (r & !m1 & !m2) | b1 | b2
  {
  }

  /** In-range updates of disjoint masks commute. */
  lemma UpdatesCommute(r: bv32, m1: bv32, b1: bv32, m2: bv32, b2: bv32)
    requires m1 & m2 == 0 && Within(b1, m1) && Within(b2, m2)
    ensures Update(Update(r, m1, b1), m2, b2) == Update(Update(r, m2, b2), m1, b1)
  {
    UpdateBoth(r, m1, b1, m2, b2);
    UpdateBoth(r, m2, b2, m1, b1);
    assert (r & !m1 & !m2) | b1 | b2 == (r & !m2 & !m1) | b2 | b1;
  }

  /** Two words that agree outside `m` agree on every mask `n` disjoint
      from `m`. */
  lemma SameOutside(x: bv32, y: bv32, m: bv32, n: bv32)
    requires x & !m == y & !m && m & n == 0
    ensures x & n == y & n
  {
  }

  /** `1 << b` */
  function Bit(b: bv32): bv32
    requires b < 32
  {
    1 << b
  }

  /** `(r >> b) & 1` is 1 */
  predicate Test(r: bv32, b: bv32)
    requires b < 32
  {
    (r >> b) & 1 == 1
  }

  /** `r |= 1 << b;` */
  function SetBit(r: bv32, b: bv32): bv32
    requires b < 32
  {
    r | Bit(b)
  }

  /** `r &= ~(1 << b);` */
  function ClearBit(r: bv32, b: bv32): bv32
    requires b < 32
  {
    r & !Bit(b)
  }

  /** Setting bit `b` is the update of that bit to 1. */
  lemma SetBitIsUpdate(r: bv32, b: bv32)
    requires b < 32
    ensures SetBit(r, b) == Update(r, Bit(b), Bit(b))
  {
  }

  /** Clearing bit `b` is the update of that bit to 0. */
  lemma ClearBitIsUpdate(r: bv32, b: bv32)
    requires b < 32
    ensures ClearBit(r, b) == Update(r, Bit(b), 0)
  {
  }

  /** After setting bit `b` it tests set; after clearing it, clear. */
  lemma TestAfterWrite(r: bv32, b: bv32)
    requires b < 32
    ensures Test(SetBit(r, b), b)
    ensures !Test(ClearBit(r, b), b)
  {
  }

  /** Setting or clearing bit `b` leaves every other bit of the word alone. */
  lemma OneBitOnly(r: bv32, b: bv32)
    requires b < 32
    ensures SetBit(r, b) & !Bit(b) == r & !Bit(b)
    ensures ClearBit(r, b) & !Bit(b) == r & !Bit(b)
  {
    SetKeepsOthers(r, b);
    ClearKeepsOthers(r, b);
  }

  lemma SetKeepsOthers(r: bv32, b: bv32)
    requires b < 32
    ensures SetBit(r, b) & !Bit(b) == r & !Bit(b)
  {
  }

  lemma ClearKeepsOthers(r: bv32, b: bv32)
    requires b < 32
    ensures ClearBit(r, b) & !Bit(b) == r & !Bit(b)
  {
  }

  /** Every other bit tests the same after setting or clearing bit `b`. */
  lemma OtherBitsTestSame(r: bv32, b: bv32, c: bv32)
    requires b < 32 && c < 32 && b != c
    ensures Test(SetBit(r, b), c) == Test(r, c)
    ensures Test(ClearBit(r, b), c) == Test(r, c)
  {
    SetOtherTestsSame(r, b, c);
    ClearOtherTestsSame(r, b, c);
  }

  lemma SetOtherTestsSame(r: bv32, b: bv32, c: bv32)
    requires b < 32 && c < 32 && b != c
    ensures Test(SetBit(r, b), c) == Test(r, c)
  {
  }

  lemma ClearOtherTestsSame(r: bv32, b: bv32, c: bv32)
    requires b < 32 && c < 32 && b != c
    ensures Test(ClearBit(r, b), c) == Test(r, c)
  {
  }

  /** Setting or clearing a bit twice is the same as once. */
  lemma BitOpsIdempotent(r: bv32, b: bv32)
    requires b < 32
    ensures SetBit(SetBit(r, b), b) == SetBit(r, b)
    ensures ClearBit(ClearBit(r, b), b) == ClearBit(r, b)
  {
  }
}
