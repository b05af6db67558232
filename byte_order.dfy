/**
 * Byte order of fixed-width integers: what `BitConverter.GetBytes` produces on a
 * little-endian host, what the binary reader decodes, and the reversal that turns
 * one order into the other.
 */
module ByteOrder {
  import opened DicomCore

  const TwoTo16: nat := 0x1_0000
  const TwoTo32: nat := 0x1_0000_0000

  /** The 32-bit two's-complement pattern of a C# `int`. */
  function Unsigned32(x: int32): (u: nat)
    ensures u < TwoTo32
    ensures x >= 0 ==> u == x
    ensures x < 0 ==> u == x + TwoTo32
  {
    if x < 0 then x + TwoTo32 else x
  }

  /** The C# `int` whose two's-complement pattern is `u`. */
  function Signed32(u: nat): (x: int32)
    requires u < TwoTo32
    ensures Unsigned32(x) == u
  {
    if u < 0x8000_0000 then u else u - TwoTo32
  }

  /** The low 16 bits of `v`, least significant byte first. */
  function LE16(v: nat): (bytes: seq<byte>)
    ensures |bytes| == 2
    ensures U16LE(bytes) == v % TwoTo16
  {
    DivSteps16(v);
    [v % 0x100, v / 0x100 % 0x100]
  }

  /** The low 32 bits of `v`, least significant byte first. */
  function LE32(v: nat): (bytes: seq<byte>)
    ensures |bytes| == 4
    ensures U32LE(bytes) == v % TwoTo32
  {
    DivSteps(v);
    [v % 0x100, v / 0x100 % 0x100, v / 0x1_0000 % 0x100, v / 0x100_0000 % 0x100]
  }

  /** The unsigned value of two bytes, least significant first. */
  function U16LE(bytes: seq<byte>): (v: nat)
    requires |bytes| == 2
    ensures v < TwoTo16
  {
    (bytes[0] as int) + 0x100 * (bytes[1] as int)
  }

  /** The unsigned value of four bytes, least significant first. */
  function U32LE(bytes: seq<byte>): (v: nat)
    requires |bytes| == 4
    ensures v < TwoTo32
  {
    (bytes[0] as int) + 0x100 * (bytes[1] as int) + 0x1_0000 * (bytes[2] as int) + 0x100_0000 * (bytes[3] as int)
  }

  /** The unsigned value of two bytes, most significant first. */
  function U16BE(bytes: seq<byte>): (v: nat)
    requires |bytes| == 2
    ensures v < TwoTo16
  {
    0x100 * (bytes[0] as int) + (bytes[1] as int)
  }

  /** The unsigned value of four bytes, most significant first. */
  function U32BE(bytes: seq<byte>): (v: nat)
    requires |bytes| == 4
    ensures v < TwoTo32
  {
    0x100_0000 * (bytes[0] as int) + 0x1_0000 * (bytes[1] as int) + 0x100 * (bytes[2] as int) + (bytes[3] as int)
  }

  /** A sequence in reverse order (`Array.Reverse`). */
  function Reverse<T>(s: seq<T>): (r: seq<T>)
    ensures |r| == |s|
    ensures forall i :: 0 <= i < |s| ==> r[i] == s[|s| - 1 - i]
  {
    seq(|s|, i requires 0 <= i < |s| => s[|s| - 1 - i])
  }

  /** Reading big-endian bytes is reading their reversal as little-endian. */
  lemma BigEndianIsReversed(bytes: seq<byte>)
    requires |bytes| == 2 || |bytes| == 4
    ensures |bytes| == 2 ==> U16BE(bytes) == U16LE(Reverse(bytes))
    ensures |bytes| == 4 ==> U32BE(bytes) == U32LE(Reverse(bytes))
  {
  }

  /** The quotient/remainder identities behind `LE32`. */
  lemma DivSteps16(v: nat)
    ensures v % TwoTo16 == v % 0x100 + 0x100 * (v / 0x100 % 0x100)
  {
    var q1 := v / 0x100;
    assert v == 0x100 * q1 + v % 0x100;
    assert v / TwoTo16 == q1 / 0x100;
    assert q1 == 0x100 * (q1 / 0x100) + q1 % 0x100;
    assert v % TwoTo16 == v - TwoTo16 * (v / TwoTo16);
  }

  lemma DivSteps(v: nat)
    ensures v % TwoTo32 == v % 0x100 + 0x100 * (v / 0x100 % 0x100)
                           + 0x1_0000 * (v / 0x1_0000 % 0x100) + 0x100_0000 * (v / 0x100_0000 % 0x100)
  {
    var q1, q2, q3 := v / 0x100, v / 0x1_0000, v / 0x100_0000;
    assert q2 == q1 / 0x100;
    assert q3 == q2 / 0x100;
    assert v == 0x100 * q1 + v % 0x100;
    assert q1 == 0x100 * q2 + q1 % 0x100;
    assert q2 == 0x100 * q3 + q2 % 0x100;
    assert v % TwoTo32 == v - TwoTo32 * (v / TwoTo32);
    assert v / TwoTo32 == q3 / 0x100;
    assert q3 == 0x100 * (q3 / 0x100) + q3 % 0x100;
  }
}
