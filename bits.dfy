/** Single bits of an 8-bit I/O register, and the bit-copy loop that the
    firmware runs on its ports (main.c:62-68 and main.c:75-81): for each i
    from 0 up to a bound, bit i of the register is set when bit i of the
    source is set and cleared otherwise. */
module Bits {

  /** Bit `i` of `b`: the lowest bit of `b` shifted right by `i`. */
  function Bit(b: bv8, i: bv8): bool
    requires i < 8
  {
    (b >> i) & 1 == 1
  }

  /** `b` with bit `i` set when `v` holds and cleared otherwise. */
  function SetBit(b: bv8, i: bv8, v: bool): bv8
    requires i < 8
  {
    if v then b | (1 << i) else b & !(1 << i)
  }

  /** Setting bit `i` gives it the new value and keeps every other bit. */
  lemma SetBitAt(b: bv8, i: bv8, v: bool, j: bv8)
    requires i < 8 && j < 8
    ensures Bit(SetBit(b, i, v), j) == if j == i then v else Bit(b, j)
  {
  }

  /** The register `dst` after the first `k` rounds of the copy loop, round
      `i` copying bit `i` of `src` into bit `i` of `dst`. */
  function CopyLowBits(dst: bv8, src: bv8, k: bv8): bv8
    requires k <= 8
    decreases k
  {
    if k == 0 then dst
    else SetBit(CopyLowBits(dst, src, k - 1), k - 1, Bit(src, k - 1))
  }

  /** One more bit copied, as the loops that copy bit by bit take it. */
  lemma CopyLowBitsStep(dst: bv8, src: bv8, k: bv8)
    requires k < 8
    ensures CopyLowBits(dst, src, k + 1) == SetBit(CopyLowBits(dst, src, k), k, Bit(src, k))
  {
  }

  /** After `k` rounds, bits below `k` come from `src` and the others are
      still those of `dst`. */
  lemma {:induction false} CopyLowBitsAt(dst: bv8, src: bv8, k: bv8, j: bv8)
    requires k <= 8 && j < 8
    ensures Bit(CopyLowBits(dst, src, k), j) == if j < k then Bit(src, j) else Bit(dst, j)
  {
    if k > 0 {
      CopyLowBitsAt(dst, src, k - 1, j);
      SetBitAt(CopyLowBits(dst, src, k - 1), k - 1, Bit(src, k - 1), j);
    }
  }

  /** A second run of the copy loop over the same bits replaces what the
      first one wrote. */
  lemma CopyLowBitsOverwrites(dst: bv8, x: bv8, y: bv8, k: bv8)
    requires k <= 8
    ensures CopyLowBits(CopyLowBits(dst, x, k), y, k) == CopyLowBits(dst, y, k)
  {
    forall j: bv8 | j < 8
      ensures Bit(CopyLowBits(CopyLowBits(dst, x, k), y, k), j) == Bit(CopyLowBits(dst, y, k), j)
    {
      CopyLowBitsAt(CopyLowBits(dst, x, k), y, k, j);
      CopyLowBitsAt(dst, x, k, j);
      CopyLowBitsAt(dst, y, k, j);
    }
    BitsDetermine(CopyLowBits(CopyLowBits(dst, x, k), y, k), CopyLowBits(dst, y, k));
  }

  /** Two registers that agree on all eight bits are equal. */
  lemma BitsDetermine(a: bv8, b: bv8)
    requires forall j: bv8 | j < 8 :: Bit(a, j) == Bit(b, j)
    ensures a == b
  {
    assert Bit(a, 0) == Bit(b, 0) && Bit(a, 1) == Bit(b, 1);
    assert Bit(a, 2) == Bit(b, 2) && Bit(a, 3) == Bit(b, 3);
    assert Bit(a, 4) == Bit(b, 4) && Bit(a, 5) == Bit(b, 5);
    assert Bit(a, 6) == Bit(b, 6) && Bit(a, 7) == Bit(b, 7);
  }
}
