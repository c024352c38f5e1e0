/** Packed motion vectors: one 32-bit word whose low 16 bits are the
    signed x component and whose high 16 bits are the signed y component. */
module MotionVectors {
  import opened Types

  /** _MVXT(mv): the signed low half of the packed word. */
  function MvX(mv: uint32): int16
  {
    ToInt16(mv % 0x1_0000)
  }

  /** _MVYT(mv): the signed high half of the packed word. */
  function MvY(mv: uint32): int16
  {
    ToInt16(mv / 0x1_0000)
  }

  /** ((uint16_t)y << 16) | (uint16_t)x. The two halves occupy disjoint
      bits, so the bitwise or is an addition. */
  function PackMv(x: int16, y: int16): uint32
  {
    ToUint16(y) * 0x1_0000 + ToUint16(x)
  }

  lemma ToInt16OfUint16(v: int)
    requires -0x8000 <= v < 0x8000
    ensures ToInt16(ToUint16(v)) == v
  {
  }

  lemma ToInt16InRange(v: int)
    requires -0x8000 <= v < 0x8000
    ensures ToInt16(v) == v
  {
  }

  /** Unpacking a packed vector gives back both components. */
  lemma UnpackPack(x: int16, y: int16)
    ensures MvX(PackMv(x, y)) == x
    ensures MvY(PackMv(x, y)) == y
  {
    var w := PackMv(x, y);
    assert w % 0x1_0000 == ToUint16(x);
    assert w / 0x1_0000 == ToUint16(y);
    ToInt16OfUint16(x);
    ToInt16OfUint16(y);
  }

  /** Packing the two components of a word gives back the word. */
  lemma PackUnpack(mv: uint32)
    ensures PackMv(MvX(mv), MvY(mv)) == mv
  {
    var lo, hi := mv % 0x1_0000, mv / 0x1_0000;
    assert ToUint16(MvX(mv)) == lo;
    assert ToUint16(MvY(mv)) == hi;
  }

  /** The vector Stage A and Stage B record for horizontal search point i:
      x advanced by 4 i (wrapping as the int16_t store does), y unchanged. */
  function CandidateMv(mv: uint32, i: nat): (r: uint32)
    ensures MvY(r) == MvY(mv)
    ensures MvX(r) == ToInt16(MvX(mv) + 4 * i)
    ensures -0x8000 <= MvX(mv) + 4 * i < 0x8000 ==> MvX(r) == MvX(mv) + 4 * i
  {
    var x := ToInt16(MvX(mv) + 4 * i);
    UnpackPack(x, MvY(mv));
    if -0x8000 <= MvX(mv) + 4 * i < 0x8000 then
      ToInt16InRange(MvX(mv) + 4 * i);
      PackMv(x, MvY(mv))
    else
      PackMv(x, MvY(mv))
  }
}
