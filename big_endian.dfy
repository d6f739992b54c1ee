/**
 * Big-endian, two's-complement integers as the JVM's ByteBuffer.getInt and
 * DataInputStream.readLong read them (and DataOutputStream writes them).
 */
module BigEndian {

  newtype Byte = b: int | 0 <= b < 256

  const INT_BYTES: nat := 4
  const LONG_BYTES: nat := 8

  function Pow256(k: nat): (r: nat)
    ensures r > 0
  {
    if k == 0 then 1 else 256 * Pow256(k - 1)
  }

  /** The unsigned value of a big-endian byte string. */
  function Unsigned(s: seq<Byte>): (v: nat)
    ensures v < Pow256(|s|)
  {
    if s == [] then 0
    else
      var high := Unsigned(s[..|s| - 1]);
      assert high <= Pow256(|s| - 1) - 1;
      assert high * 256 <= Pow256(|s|) - 256;
      high * 256 + s[|s| - 1] as nat
  }

  /** The big-endian bytes of an unsigned value, `width` bytes wide. */
  function ToBytes(v: nat, width: nat): (s: seq<Byte>)
    requires v < Pow256(width)
    ensures |s| == width
  {
    if width == 0 then []
    else ToBytes(v / 256, width - 1) + [(v % 256) as Byte]
  }

  lemma {:induction false} UnsignedOfToBytes(v: nat, width: nat)
    requires v < Pow256(width)
    ensures Unsigned(ToBytes(v, width)) == v
  {
    if width > 0 {
      var s := ToBytes(v, width);
      assert s[..width - 1] == ToBytes(v / 256, width - 1);
      UnsignedOfToBytes(v / 256, width - 1);
    }
  }

  lemma {:induction false} ToBytesOfUnsigned(s: seq<Byte>)
    ensures ToBytes(Unsigned(s), |s|) == s
  {
    if s != [] {
      var p := s[..|s| - 1];
      var v := Unsigned(s);
      assert v == Unsigned(p) * 256 + s[|s| - 1] as nat;
      assert v / 256 == Unsigned(p) && v % 256 == s[|s| - 1] as nat;
      ToBytesOfUnsigned(p);
      assert s == p + [s[|s| - 1]];
    }
  }

  /** The two's-complement value of a big-endian byte string. */
  function Signed(s: seq<Byte>): (v: int)
    requires |s| > 0
    ensures -(Pow256(|s|) / 2) <= v < Pow256(|s|) / 2
  {
    var u := Unsigned(s);
    if u < Pow256(|s|) / 2 then u else u - Pow256(|s|)
  }

  predicate InSignedRange(v: int, width: nat)
  {
    width > 0 && -(Pow256(width) / 2) <= v < Pow256(width) / 2
  }

  /** The two's-complement big-endian bytes of `v`, `width` bytes wide. */
  function FromSigned(v: int, width: nat): (s: seq<Byte>)
    requires InSignedRange(v, width)
    ensures |s| == width
  {
    ToBytes(if v >= 0 then v else v + Pow256(width), width)
  }

  lemma SignedOfFromSigned(v: int, width: nat)
    requires InSignedRange(v, width)
    ensures Signed(FromSigned(v, width)) == v
  {
    UnsignedOfToBytes(if v >= 0 then v else v + Pow256(width), width);
  }

  /** A Java `int` as ByteBuffer.getInt reads it. */
  function Int32(s: seq<Byte>): (v: int)
    requires |s| == INT_BYTES
    ensures -0x8000_0000 <= v < 0x8000_0000
  {
    Signed(s)
  }

  /** A Java `long` as DataInputStream.readLong reads it. */
  function Int64(s: seq<Byte>): (v: int)
    requires |s| == LONG_BYTES
    ensures -0x8000_0000_0000_0000 <= v < 0x8000_0000_0000_0000
  {
    Signed(s)
  }

  predicate IsInt32(v: int) { -0x8000_0000 <= v < 0x8000_0000 }

  predicate IsInt64(v: int) { -0x8000_0000_0000_0000 <= v < 0x8000_0000_0000_0000 }

  function EncodeInt32(v: int): (s: seq<Byte>)
    requires IsInt32(v)
    ensures |s| == INT_BYTES && Int32(s) == v
  {
    SignedOfFromSigned(v, INT_BYTES);
    FromSigned(v, INT_BYTES)
  }

  function EncodeInt64(v: int): (s: seq<Byte>)
    requires IsInt64(v)
    ensures |s| == LONG_BYTES && Int64(s) == v
  {
    SignedOfFromSigned(v, LONG_BYTES);
    FromSigned(v, LONG_BYTES)
  }

  /** Every four bytes are the encoding of the int they decode to. */
  lemma {:induction false} EncodeInt32OfInt32(s: seq<Byte>)
    requires |s| == INT_BYTES
    ensures EncodeInt32(Int32(s)) == s
  {
    ToBytesOfUnsigned(s);
  }

  /** Every eight bytes are the encoding of the long they decode to. */
  lemma {:induction false} EncodeInt64OfInt64(s: seq<Byte>)
    requires |s| == LONG_BYTES
    ensures EncodeInt64(Int64(s)) == s
  {
    ToBytesOfUnsigned(s);
  }
}
