// Fixed-width integers, byte strings and little-endian encodings.

module Bytes {

  datatype Option<+T> = None | Some(value: T)

  type byte = x: int | 0 <= x < 0x100
  type int8 = x: int | -0x80 <= x < 0x80
  type uint16 = x: int | 0 <= x < 0x1_0000
  type uint32 = x: int | 0 <= x < 0x1_0000_0000
  type uint64 = x: int | 0 <= x < 0x1_0000_0000_0000_0000

  type Bytes = seq<byte>

  // A sum reduced to 16, 32 and 64 bits.
  function Low16(x: nat): uint16 { x % 0x1_0000 }
  function Low32(x: nat): uint32 { x % 0x1_0000_0000 }
  function Low64(x: int): uint64 { x % 0x1_0000_0000_0000_0000 }

  lemma Low16Step(x: nat)
    ensures Low16(Low16(x) + 1) == Low16(x + 1)
  {}

  lemma Low64Step(x: int)
    ensures Low64(Low64(x) + 1) == Low64(x + 1)
    ensures Low64(Low64(x) - 1) == Low64(x - 1)
  {}

  lemma Low64Small(x: int)
    requires -0x1_0000_0000_0000_0000 < x < 0x1_0000_0000_0000_0000
    ensures x >= 0 ==> Low64(x) == x
    ensures x < 0 ==> Low64(x) == x + 0x1_0000_0000_0000_0000
  {}

  // The conversion of a uint32_t argument to an int32_t parameter.
  function ToInt32(x: uint32): int {
    if x < 0x8000_0000 then x else x - 0x1_0000_0000
  }

  function FromSigned(c: int8): byte { if c < 0 then c + 0x100 else c }
  function ToSigned(b: byte): int8 { if b < 0x80 then b else b - 0x100 }

  function LE16(x: uint16): Bytes { [x % 0x100, x / 0x100] }

  function LE32(x: uint32): (r: Bytes)
    ensures |r| == 4
  {
    LE16(x % 0x1_0000) + LE16(x / 0x1_0000)
  }

  function FromLE16(b: Bytes): uint16
    requires |b| == 2
  {
    var lo: int, hi: int := b[0], b[1];
    lo + 0x100 * hi
  }

  function FromLE32(b: Bytes): uint32
    requires |b| == 4
  {
    var lo: int, hi: int := FromLE16(b[..2]), FromLE16(b[2..]);
    lo + 0x1_0000 * hi
  }

  // x is the value of n modulo 2^32.
  lemma Low32Is(n: nat, x: uint32)
    ensures Low32(n) == x <==> (n - x) % 0x1_0000_0000 == 0
  {}

  lemma FirstByte(x: uint32)
    ensures x % 0x1_0000 % 0x100 == x % 0x100
  {}

  lemma SecondByte(x: uint32)
    ensures x % 0x1_0000 / 0x100 == x / 0x100 % 0x100
  {}

  lemma FourthByte(x: uint32)
    ensures x / 0x1_0000 / 0x100 == x / 0x100_0000
  {}

  lemma LE32Bytes(x: uint32)
    ensures LE32(x) == [x % 0x100, x / 0x100 % 0x100, x / 0x1_0000 % 0x100, x / 0x100_0000]
  {
    FirstByte(x);
    SecondByte(x);
    FourthByte(x);
  }

  lemma LE16RoundTrip(x: uint16)
    ensures FromLE16(LE16(x)) == x
  {}

  lemma FromLE16RoundTrip(b: Bytes)
    requires |b| == 2
    ensures LE16(FromLE16(b)) == b
  {}

  lemma LE32RoundTrip(x: uint32)
    ensures FromLE32(LE32(x)) == x
  {
    hide FromLE16;
    var lo, hi := x % 0x1_0000, x / 0x1_0000;
    assert LE32(x)[..2] == LE16(lo) && LE32(x)[2..] == LE16(hi);
    LE16RoundTrip(lo);
    LE16RoundTrip(hi);
  }

  lemma FromLE32RoundTrip(b: Bytes)
    requires |b| == 4
    ensures LE32(FromLE32(b)) == b
  {
    hide LE16, FromLE16;
    FromLE16RoundTrip(b[..2]);
    FromLE16RoundTrip(b[2..]);
    var lo: int, hi: int := FromLE16(b[..2]), FromLE16(b[2..]);
    assert (lo + 0x1_0000 * hi) % 0x1_0000 == lo && (lo + 0x1_0000 * hi) / 0x1_0000 == hi;
    assert b == b[..2] + b[2..];
  }
}
