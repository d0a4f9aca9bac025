/** Byte-level building blocks of the BitPack model: the byte type, the two
    byte-wise operators, the byte-wise combination of two equal-length byte
    strings, and the most-significant-bit-first reading of bytes as bits. */
module Bytes {

  type byte = bv8

  /** The two byte-wise operators a pack can be combined with. */
  datatype Op = BitwiseOr | BitwiseAnd

  function Apply(op: Op, x: byte, y: byte): (z: byte)
  {
    match op
    case BitwiseOr => x | y
    case BitwiseAnd => x & y
  }

  /** Byte-wise combination of two byte strings of the same length. */
  function Zip(op: Op, a: seq<byte>, b: seq<byte>): (r: seq<byte>)
    requires |a| == |b|
    ensures |r| == |a|
    ensures forall k :: 0 <= k < |a| ==> r[k] == Apply(op, a[k], b[k])
  {
    if a == [] then [] else [Apply(op, a[0], b[0])] + Zip(op, a[1..], b[1..])
  }

  /** True when some byte of `s` is not zero. */
  predicate HasNonzero(s: seq<byte>)
  {
    exists k :: 0 <= k < |s| && s[k] != 0
  }

  /** Bit `k` of a byte, counting 0 as the most significant: the byte
      shifted right by `7 - k`, taken modulo 2. */
  function BitOf(b: byte, k: nat): (isSet: bool)
    requires k < 8
  {
    (b >> (7 - k)) & 1 == 1
  }

  /** The eight bits of a byte, most significant first. */
  function ByteBits(b: byte): (r: seq<bool>)
    ensures |r| == 8
    ensures forall k :: 0 <= k < 8 ==> r[k] == BitOf(b, k)
  {
    [BitOf(b, 0), BitOf(b, 1), BitOf(b, 2), BitOf(b, 3),
     BitOf(b, 4), BitOf(b, 5), BitOf(b, 6), BitOf(b, 7)]
  }

  /** A byte string read as one big-endian bit stream. */
  function Bits(s: seq<byte>): (r: seq<bool>)
    ensures |r| == 8 * |s|
  {
    if s == [] then [] else ByteBits(s[0]) + Bits(s[1..])
  }

  /** Bit `p` of the stream is bit `p % 8` of byte `p / 8`. */
  lemma {:induction false} BitsAt(s: seq<byte>, p: int)
    requires 0 <= p < 8 * |s|
    ensures Bits(s)[p] == ByteBits(s[p / 8])[p % 8]
  {
    if p >= 8 {
      BitsAt(s[1..], p - 8);
      assert (p - 8) / 8 == p / 8 - 1 && (p - 8) % 8 == p % 8;
      assert Bits(s) == ByteBits(s[0]) + Bits(s[1..]);
    }
  }
}
