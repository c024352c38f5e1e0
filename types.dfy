/** Machine integer ranges used by the encoder's C code, the
    absolute-difference primitive behind every SAD kernel, and the two
    facts about multiplication the index arithmetic needs. */
module Types {

  type uint8 = x: int | 0 <= x < 0x100
  type uint16 = x: int | 0 <= x < 0x1_0000
  type uint32 = x: int | 0 <= x < 0x1_0000_0000
  type uint64 = x: int | 0 <= x < 0x1_0000_0000_0000_0000
  type int16 = x: int | -0x8000 <= x < 0x8000

  /** A pointer that may be NULL. */
  datatype Option<T> = None | Some(value: T)

  lemma MulLe(a: nat, b: nat, c: nat)
    requires a <= b
    ensures a * c <= b * c
  {
  }

  lemma Distribute(a: nat, b: nat, c: nat)
    ensures a * c + b * c == (a + b) * c
  {
  }

  /** EB_ABS_DIFF(a, b): |a - b|. */
  function AbsDiff(a: int, b: int): nat
  {
    if a < b then b - a else a - b
  }

  /** The C conversion to uint16_t: reduction modulo 2^16. */
  function ToUint16(v: int): uint16
  {
    v % 0x1_0000
  }

  /** The C conversion to uint32_t: reduction modulo 2^32. */
  function ToUint32(v: int): uint32
  {
    v % 0x1_0000_0000
  }

  /** Adding to a uint32_t accumulator wraps the exact sum: reducing
      after every addition is reducing once at the end. */
  lemma ToUint32Add(a: int, d: int)
    ensures ToUint32(ToUint32(a) + d) == ToUint32(a + d)
  {
    var k := a / 0x1_0000_0000;
    assert a == k * 0x1_0000_0000 + ToUint32(a);
    assert (ToUint32(a) + d) / 0x1_0000_0000 == (a + d) / 0x1_0000_0000 - k;
  }

  /** The conversion to int16_t as the compilers the encoder targets do it:
      two's-complement wrap-around. */
  function ToInt16(v: int): int16
  {
    var lo := v % 0x1_0000;
    if lo < 0x8000 then lo else lo - 0x1_0000
  }
}
