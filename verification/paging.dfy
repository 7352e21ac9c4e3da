// Page arithmetic: the ROUND_UP macro of kernelmode/vgpu/global.h on the 32-bit operands
// that the ioctl structures give it.
module Paging {
  const PAGE_SIZE := 4096
  const WORD := 0x1_0000_0000

  // Bitwise AND of two naturals, bit by bit.
  function And(x: nat, y: nat): (r: nat)
    ensures r <= x
  {
    if x == 0 || y == 0 then 0 else (x % 2) * (y % 2) + 2 * And(x / 2, y / 2)
  }

  // Unary minus of a 32-bit unsigned word.
  function Negate(n: nat): (r: nat)
    requires 0 < n < WORD
  {
    WORD - n
  }

  // ROUND_UP(x, PAGE_SIZE): the addition wraps at 32 bits, the mask clears the page offset.
  function RoundUp(x: nat): (r: nat)
    requires x < WORD
  {
    And((x + PAGE_SIZE - 1) % WORD, Negate(PAGE_SIZE))
  }

  function Pow2(k: nat): (p: nat)
    ensures p >= 1
  {
    if k == 0 then 1 else 2 * Pow2(k - 1)
  }

  lemma {:induction false} AndLowOnes(x: nat, k: nat)
    requires x < Pow2(k)
    ensures And(x, Pow2(k) - 1) == x
  {
    if x != 0 && k != 0 {
      assert (Pow2(k) - 1) / 2 == Pow2(k - 1) - 1;
      AndLowOnes(x / 2, k - 1);
    }
  }

  lemma AndEven(x: nat, y: nat)
    ensures And(x, 2 * y) == 2 * And(x / 2, y)
  {
    if x != 0 && y != 0 {
      assert (2 * y) / 2 == y;
    }
  }

  // y followed by k zero bits.
  function ShiftLeft(y: nat, k: nat): nat {
    if k == 0 then y else 2 * ShiftLeft(y, k - 1)
  }

  lemma {:induction false} AndShifted(q: nat, low: nat, y: nat, k: nat)
    requires low < Pow2(k)
    ensures And(ShiftLeft(q, k) + low, ShiftLeft(y, k)) == ShiftLeft(And(q, y), k)
  {
    if k != 0 {
      var x := ShiftLeft(q, k) + low;
      assert x / 2 == ShiftLeft(q, k - 1) + low / 2;
      AndEven(x, ShiftLeft(y, k - 1));
      AndShifted(q, low / 2, y, k - 1);
    }
  }

  lemma {:induction false} ShiftIsMultiply(y: nat, k: nat)
    ensures ShiftLeft(y, k) == Pow2(k) * y
  {
    if k != 0 {
      ShiftIsMultiply(y, k - 1);
    }
  }

  // The mask really drops the offset within a page, for every 32-bit word.
  lemma MaskDropsOffset(v: nat)
    requires v < WORD
    ensures And(v, Negate(PAGE_SIZE)) == v - v % PAGE_SIZE
  {
    assert Pow2(4) == 16;
    assert Pow2(8) == 256;
    assert Pow2(12) == PAGE_SIZE;
    assert Pow2(16) == 65536;
    assert Pow2(20) == 1048576;
    var q := v / PAGE_SIZE;
    ShiftIsMultiply(q, 12);
    ShiftIsMultiply(Pow2(20) - 1, 12);
    AndShifted(q, v % PAGE_SIZE, Pow2(20) - 1, 12);
    AndLowOnes(q, 20);
  }

  ghost predicate LeastMultipleAbove(x: nat, r: nat) {
    && r % PAGE_SIZE == 0 && x <= r
    && forall m: nat :: m % PAGE_SIZE == 0 && x <= m ==> r <= m
  }

  // Bytes past the last whole page.
  lemma Pages(v: nat) returns (q: nat)
    ensures v - v % PAGE_SIZE == q * PAGE_SIZE && q == v / PAGE_SIZE && q * PAGE_SIZE <= v < (q + 1) * PAGE_SIZE
  {
    q := v / PAGE_SIZE;
  }

  lemma WholePages(q: nat)
    ensures q * PAGE_SIZE % PAGE_SIZE == 0 && q * PAGE_SIZE / PAGE_SIZE == q
  {
  }

  // Dropping the offset of x plus all but one byte of a page.
  lemma DroppedIsLeast(x: nat, q: nat)
    requires q * PAGE_SIZE <= x + PAGE_SIZE - 1 < (q + 1) * PAGE_SIZE
    ensures LeastMultipleAbove(x, q * PAGE_SIZE)
  {
    WholePages(q);
    forall m: nat | m % PAGE_SIZE == 0 && x <= m
      ensures q * PAGE_SIZE <= m
    {
      var k := Pages(m);
    }
  }

  lemma PagesOf(x: nat, q: nat)
    requires x > 0 && q * PAGE_SIZE <= x + PAGE_SIZE - 1 < (q + 1) * PAGE_SIZE
    ensures q == (x - 1) / PAGE_SIZE + 1
  {
    var k := Pages(x - 1);
  }

  // The sum in the macro fits in a word, or wraps below one page.
  lemma RoundUpIs(x: nat) returns (q: nat)
    requires x < WORD
    ensures RoundUp(x) == q * PAGE_SIZE < WORD
    ensures x <= WORD - PAGE_SIZE ==> q * PAGE_SIZE <= x + PAGE_SIZE - 1 < (q + 1) * PAGE_SIZE
    ensures x > WORD - PAGE_SIZE ==> q == 0
  {
    var v := (x + PAGE_SIZE - 1) % WORD;
    MaskDropsOffset(v);
    q := Pages(v);
    assert v == if x <= WORD - PAGE_SIZE then x + PAGE_SIZE - 1 else x + PAGE_SIZE - 1 - WORD;
  }

  // ROUND_UP gives the least page multiple that holds x bytes exactly for the sizes whose
  // rounding fits in 32 bits. For every other size it wraps to zero.
  lemma RoundUpExact(x: nat)
    requires x < WORD
    ensures LeastMultipleAbove(x, RoundUp(x)) <==> x <= WORD - PAGE_SIZE
    ensures x > WORD - PAGE_SIZE ==> RoundUp(x) == 0
    ensures RoundUp(x) % PAGE_SIZE == 0 && RoundUp(x) < WORD
    ensures 0 < x <= WORD - PAGE_SIZE ==> RoundUp(x) / PAGE_SIZE == (x - 1) / PAGE_SIZE + 1
  {
    hide RoundUp;
    var q := RoundUpIs(x);
    WholePages(q);
    if x <= WORD - PAGE_SIZE {
      DroppedIsLeast(x, q);
      if x > 0 {
        PagesOf(x, q);
      }
    }
  }
}
