/** The byte codec the packets are written with.

    The C# code writes through LiteNetLib's NetDataWriter and reads through its
    NetDataReader; that library is not part of this model. This module is a
    concrete stand-in with the same shape: fixed-width little-endian integers,
    one byte per bool, raw bit patterns for floats, sixteen bytes for a Guid and
    a length-prefixed string that the writer cuts at `maxLength` characters and
    the reader refuses (returns "") when it is longer than `maxLength`.
    Readers consume a prefix of the stream and return the rest; `None` is a
    read past the end of the data (an exception in the C# code). */
module Wire {
  import opened Wrappers

  type Byte = x: int | 0 <= x < 0x100

  const Int32Min: int := -0x8000_0000
  const Int32Max: int := 0x7FFF_FFFF
  const UInt16Max: int := 0xFFFF
  const UInt32Max: int := 0xFFFF_FFFF
  const UInt64Max: int := 0xFFFF_FFFF_FFFF_FFFF

  type Int16 = x: int | -0x8000 <= x <= 0x7FFF
  type Int32 = x: int | Int32Min <= x <= Int32Max
  type UInt16 = x: int | 0 <= x <= UInt16Max
  type UInt32 = x: int | 0 <= x <= UInt32Max
  type UInt64 = x: int | 0 <= x <= UInt64Max

  /** A 32-bit IEEE float, kept as its bit pattern: no arithmetic is modelled. */
  datatype Float32 = Float32(bits: UInt32)
  /** A 64-bit IEEE double, kept as its bit pattern. */
  datatype Float64 = Float64(bits: UInt64)

  const ZeroFloat: Float32 := Float32(0)

  datatype Vector2 = Vector2(x: Float32, y: Float32)
  datatype Vector3 = Vector3(x: Float32, y: Float32, z: Float32)
  datatype Quaternion = Quaternion(x: Float32, y: Float32, z: Float32, w: Float32)

  const Vector2Zero: Vector2 := Vector2(ZeroFloat, ZeroFloat)
  const Vector3Zero: Vector3 := Vector3(ZeroFloat, ZeroFloat, ZeroFloat)
  const QuaternionZero: Quaternion := Quaternion(ZeroFloat, ZeroFloat, ZeroFloat, ZeroFloat)

  type Guid = s: seq<Byte> | |s| == 16 witness seq(16, _ => 0)

  const EmptyGuid: Guid := seq(16, _ => 0)

  /** The longest string whose character count plus one still fits the 16-bit header. */
  const MaxWireString: nat := 0xFFFE

  // ---------------------------------------------------------------------------
  // Little-endian unsigned integers

  function Pow256(k: nat): (r: nat)
    ensures r > 0
  {
    if k == 0 then 1 else 256 * Pow256(k - 1)
  }

  /** The `k` low bytes of `v`, least significant first. */
  function LE(v: nat, k: nat): (r: seq<Byte>)
    ensures |r| == k
  {
    if k == 0 then [] else [v % 256] + LE(v / 256, k - 1)
  }

  /** The number whose little-endian bytes are `bs`. */
  function FromLE(bs: seq<Byte>): nat
  {
    if |bs| == 0 then 0 else bs[0] + 256 * FromLE(bs[1..])
  }

  lemma {:induction false} FromLEOfLE(v: nat, k: nat)
    requires v < Pow256(k)
    ensures FromLE(LE(v, k)) == v
  {
    if k > 0 {
      var bs := LE(v, k);
      assert bs[1..] == LE(v / 256, k - 1);
      FromLEOfLE(v / 256, k - 1);
    }
  }

  lemma {:induction false} FromLEBound(bs: seq<Byte>)
    ensures FromLE(bs) < Pow256(|bs|)
  {
    if |bs| > 0 {
      FromLEBound(bs[1..]);
    }
  }

  lemma Pow256Values()
    ensures Pow256(2) == UInt16Max + 1
    ensures Pow256(3) == 0x100_0000
    ensures Pow256(4) == UInt32Max + 1
    ensures Pow256(8) == UInt64Max + 1
  {
    assert Pow256(1) == 256;
    assert Pow256(2) == 0x1_0000;
    assert Pow256(3) == 0x100_0000;
    assert Pow256(4) == 0x1_0000_0000;
    assert Pow256(5) == 0x100_0000_0000;
    assert Pow256(6) == 0x1_0000_0000_0000;
    assert Pow256(7) == 0x100_0000_0000_0000;
  }

  /** Reads a `k`-byte little-endian number. */
  function GetLE(bs: seq<Byte>, k: nat): (r: Option<(nat, seq<Byte>)>)
    ensures r.Some? <==> |bs| >= k
    ensures r.Some? ==> r.value.0 < Pow256(k) && r.value.1 == bs[k..]
  {
    if |bs| < k then None
    else
      FromLEBound(bs[..k]);
      Some((FromLE(bs[..k]), bs[k..]))
  }

  lemma GetLEOfLE(v: nat, k: nat, rest: seq<Byte>)
    requires v < Pow256(k)
    ensures GetLE(LE(v, k) + rest, k) == Some((v, rest))
  {
    var bs := LE(v, k) + rest;
    assert bs[..k] == LE(v, k);
    assert bs[k..] == rest;
    FromLEOfLE(v, k);
  }

  // ---------------------------------------------------------------------------
  // Primitives: writers

  function PutByte(b: Byte): seq<Byte> { [b] }

  function PutBool(b: bool): seq<Byte> { [if b then 1 else 0] }

  function PutUShort(v: UInt16): seq<Byte> { LE(v, 2) }

  function PutUInt(v: UInt32): seq<Byte> { LE(v, 4) }

  function PutULong(v: UInt64): seq<Byte> { LE(v, 8) }

  /** Two's complement: a negative int is written as its 32-bit unsigned image. */
  function PutInt(v: Int32): seq<Byte> { LE(if v < 0 then v + 0x1_0000_0000 else v, 4) }

  function PutFloat(f: Float32): seq<Byte> { LE(f.bits, 4) }

  function PutDouble(d: Float64): seq<Byte> { LE(d.bits, 8) }

  function PutGuid(g: Guid): seq<Byte> { g }

  function PutVector2(v: Vector2): seq<Byte> { PutFloat(v.x) + PutFloat(v.y) }

  function PutVector3(v: Vector3): seq<Byte> { PutFloat(v.x) + PutFloat(v.y) + PutFloat(v.z) }

  function PutQuaternion(q: Quaternion): seq<Byte>
  {
    PutFloat(q.x) + PutFloat(q.y) + PutFloat(q.z) + PutFloat(q.w)
  }

  /** A character takes three bytes: its scalar value, little-endian. */
  function PutChars(s: string): (r: seq<Byte>)
    ensures |r| == 3 * |s|
  {
    if |s| == 0 then [] else LE(s[0] as int, 3) + PutChars(s[1..])
  }

  function Min(a: int, b: int): int { if a <= b then a else b }

  /** The part of `s` the writer keeps under the bound `maxLength`. */
  function Bounded(s: string, maxLength: nat): (r: string)
    ensures |r| <= maxLength && r <= s
    ensures r == s <==> |s| <= maxLength
  {
    s[..Min(|s|, maxLength)]
  }

  /** Writes at most `maxLength` characters of `s`: a header of count + 1
      (0 for the empty string) and then the characters. */
  function PutString(s: string, maxLength: nat): seq<Byte>
    requires maxLength <= MaxWireString
  {
    var t := Bounded(s, maxLength);
    if |t| == 0 then PutUShort(0) else PutUShort(|t| + 1) + PutChars(t)
  }

  // ---------------------------------------------------------------------------
  // Primitives: readers

  function GetByte(bs: seq<Byte>): Option<(Byte, seq<Byte>)>
  {
    if |bs| < 1 then None else Some((bs[0], bs[1..]))
  }

  function GetBool(bs: seq<Byte>): Option<(bool, seq<Byte>)>
  {
    if |bs| < 1 then None else Some((bs[0] != 0, bs[1..]))
  }

  function GetUShort(bs: seq<Byte>): Option<(UInt16, seq<Byte>)>
  {
    var r :- GetLE(bs, 2);
    Pow256Values();
    Some((r.0 as UInt16, r.1))
  }

  function GetUInt(bs: seq<Byte>): Option<(UInt32, seq<Byte>)>
  {
    var r :- GetLE(bs, 4);
    Pow256Values();
    Some((r.0 as UInt32, r.1))
  }

  function GetULong(bs: seq<Byte>): Option<(UInt64, seq<Byte>)>
  {
    var r :- GetLE(bs, 8);
    Pow256Values();
    Some((r.0 as UInt64, r.1))
  }

  function GetInt(bs: seq<Byte>): Option<(Int32, seq<Byte>)>
  {
    var r :- GetUInt(bs);
    Some((if r.0 > Int32Max then r.0 - 0x1_0000_0000 else r.0, r.1))
  }

  function GetFloat(bs: seq<Byte>): Option<(Float32, seq<Byte>)>
  {
    var r :- GetUInt(bs);
    Some((Float32(r.0), r.1))
  }

  function GetDouble(bs: seq<Byte>): Option<(Float64, seq<Byte>)>
  {
    var r :- GetULong(bs);
    Some((Float64(r.0), r.1))
  }

  function GetGuid(bs: seq<Byte>): Option<(Guid, seq<Byte>)>
  {
    if |bs| < 16 then None else Some((bs[..16], bs[16..]))
  }

  function GetVector2(bs: seq<Byte>): Option<(Vector2, seq<Byte>)>
  {
    var x :- GetFloat(bs);
    var y :- GetFloat(x.1);
    Some((Vector2(x.0, y.0), y.1))
  }

  function GetVector3(bs: seq<Byte>): Option<(Vector3, seq<Byte>)>
  {
    var x :- GetFloat(bs);
    var y :- GetFloat(x.1);
    var z :- GetFloat(y.1);
    Some((Vector3(x.0, y.0, z.0), z.1))
  }

  function GetQuaternion(bs: seq<Byte>): Option<(Quaternion, seq<Byte>)>
  {
    var x :- GetFloat(bs);
    var y :- GetFloat(x.1);
    var z :- GetFloat(y.1);
    var w :- GetFloat(z.1);
    Some((Quaternion(x.0, y.0, z.0, w.0), w.1))
  }

  predicate IsScalar(v: int)
  {
    (0 <= v < 0xD800) || (0xE000 <= v < 0x11_0000)
  }

  /** Reads `n` three-byte characters; a value that is not a Unicode scalar is a decoding error. */
  function GetChars(bs: seq<Byte>, n: nat): (r: Option<(string, seq<Byte>)>)
    ensures r.Some? ==> |r.value.0| == n
  {
    if n == 0 then Some(([], bs))
    else
      var c :- GetLE(bs, 3);
      if !IsScalar(c.0) then None
      else
        var tail :- GetChars(c.1, n - 1);
        Some(([c.0 as char] + tail.0, tail.1))
  }

  /** Reads a string written by PutString; one longer than `maxLength` reads as "". */
  function GetString(bs: seq<Byte>, maxLength: nat): (r: Option<(string, seq<Byte>)>)
    ensures r.Some? ==> |r.value.0| <= maxLength
  {
    var h :- GetUShort(bs);
    if h.0 == 0 then Some(("", h.1))
    else
      var cs :- GetChars(h.1, h.0 - 1);
      Some((if |cs.0| > maxLength then "" else cs.0, cs.1))
  }

  // ---------------------------------------------------------------------------
  // Round trips

  lemma ByteRoundTrip(b: Byte, rest: seq<Byte>)
    ensures GetByte(PutByte(b) + rest) == Some((b, rest))
  {
    assert (PutByte(b) + rest)[1..] == rest;
  }

  lemma BoolRoundTrip(b: bool, rest: seq<Byte>)
    ensures GetBool(PutBool(b) + rest) == Some((b, rest))
  {
    assert (PutBool(b) + rest)[1..] == rest;
  }

  lemma UShortRoundTrip(v: UInt16, rest: seq<Byte>)
    ensures GetUShort(PutUShort(v) + rest) == Some((v, rest))
  {
    Pow256Values();
    GetLEOfLE(v, 2, rest);
  }

  lemma UIntRoundTrip(v: UInt32, rest: seq<Byte>)
    ensures GetUInt(PutUInt(v) + rest) == Some((v, rest))
  {
    Pow256Values();
    GetLEOfLE(v, 4, rest);
  }

  lemma ULongRoundTrip(v: UInt64, rest: seq<Byte>)
    ensures GetULong(PutULong(v) + rest) == Some((v, rest))
  {
    Pow256Values();
    GetLEOfLE(v, 8, rest);
  }

  lemma IntRoundTrip(v: Int32, rest: seq<Byte>)
    ensures GetInt(PutInt(v) + rest) == Some((v, rest))
  {
    UIntRoundTrip(if v < 0 then v + 0x1_0000_0000 else v, rest);
  }

  lemma FloatRoundTrip(f: Float32, rest: seq<Byte>)
    ensures GetFloat(PutFloat(f) + rest) == Some((f, rest))
  {
    UIntRoundTrip(f.bits, rest);
  }

  lemma DoubleRoundTrip(d: Float64, rest: seq<Byte>)
    ensures GetDouble(PutDouble(d) + rest) == Some((d, rest))
  {
    ULongRoundTrip(d.bits, rest);
  }

  lemma GuidRoundTrip(g: Guid, rest: seq<Byte>)
    ensures GetGuid(PutGuid(g) + rest) == Some((g, rest))
  {
    assert (g + rest)[..16] == g;
    assert (g + rest)[16..] == rest;
  }

  lemma Vector2RoundTrip(v: Vector2, rest: seq<Byte>)
    ensures GetVector2(PutVector2(v) + rest) == Some((v, rest))
  {
    assert PutVector2(v) + rest == PutFloat(v.x) + (PutFloat(v.y) + rest);
    FloatRoundTrip(v.x, PutFloat(v.y) + rest);
    FloatRoundTrip(v.y, rest);
  }

  lemma Vector3RoundTrip(v: Vector3, rest: seq<Byte>)
    ensures GetVector3(PutVector3(v) + rest) == Some((v, rest))
  {
    assert PutVector3(v) + rest == PutFloat(v.x) + (PutFloat(v.y) + (PutFloat(v.z) + rest));
    FloatRoundTrip(v.x, PutFloat(v.y) + (PutFloat(v.z) + rest));
    FloatRoundTrip(v.y, PutFloat(v.z) + rest);
    FloatRoundTrip(v.z, rest);
  }

  lemma QuaternionRoundTrip(q: Quaternion, rest: seq<Byte>)
    ensures GetQuaternion(PutQuaternion(q) + rest) == Some((q, rest))
  {
    var tail := PutFloat(q.w) + rest;
    assert PutQuaternion(q) + rest == PutFloat(q.x) + (PutFloat(q.y) + (PutFloat(q.z) + tail));
    FloatRoundTrip(q.x, PutFloat(q.y) + (PutFloat(q.z) + tail));
    FloatRoundTrip(q.y, PutFloat(q.z) + tail);
    FloatRoundTrip(q.z, tail);
    FloatRoundTrip(q.w, rest);
  }

  lemma {:induction false} CharsRoundTrip(s: string, rest: seq<Byte>)
    ensures GetChars(PutChars(s) + rest, |s|) == Some((s, rest))
  {
    if |s| > 0 {
      var c := s[0] as int;
      assert IsScalar(c);
      Pow256Values();
      assert PutChars(s) + rest == LE(c, 3) + (PutChars(s[1..]) + rest);
      var bs := PutChars(s) + rest;
      GetLEOfLE(c, 3, PutChars(s[1..]) + rest);
      assert GetLE(bs, 3) == Some((c, PutChars(s[1..]) + rest));
      CharsRoundTrip(s[1..], rest);
      assert GetChars(PutChars(s[1..]) + rest, |s| - 1) == Some((s[1..], rest));
      assert c as char == s[0];
      assert GetChars(bs, |s|) == Some(([c as char] + s[1..], rest));
      assert [c as char] + s[1..] == s;
    } else {
      assert PutChars(s) + rest == rest;
    }
  }

  /** A bounded string reads back as the part the writer kept. */
  lemma StringRoundTrip(s: string, maxLength: nat, rest: seq<Byte>)
    requires maxLength <= MaxWireString
    ensures GetString(PutString(s, maxLength) + rest, maxLength) == Some((Bounded(s, maxLength), rest))
  {
    var t := Bounded(s, maxLength);
    if |t| == 0 {
      UShortRoundTrip(0, rest);
    } else {
      assert PutString(s, maxLength) + rest == PutUShort(|t| + 1) + (PutChars(t) + rest);
      UShortRoundTrip(|t| + 1, PutChars(t) + rest);
      CharsRoundTrip(t, rest);
    }
  }

  /** So a string survives the codec exactly when it fits the bound. */
  lemma StringRoundTripExact(s: string, maxLength: nat, rest: seq<Byte>)
    requires maxLength <= MaxWireString
    ensures GetString(PutString(s, maxLength) + rest, maxLength) == Some((s, rest)) <==> |s| <= maxLength
  {
    StringRoundTrip(s, maxLength, rest);
  }
}
