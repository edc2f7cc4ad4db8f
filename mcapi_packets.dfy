/** The bridge (McApi) protocol's packets that carry entity state
    (VoiceCraft.Core/Network/McApiPackets). Every packet starts with the
    bounded session token. */
module McApiPackets {
  import opened Wrappers
  import opened Wire
  import opened Enums

  // ---------------------------------------------------------------------------
  // McApiSetTalkBitmaskPacket and McApiSetListenBitmaskPacket

  datatype McApiSetTalkBitmaskPacket = McApiSetTalkBitmaskPacket(sessionToken: string, id: Int32, value: UInt64)

  const DefaultMcApiSetTalkBitmaskPacket: McApiSetTalkBitmaskPacket := McApiSetTalkBitmaskPacket("", 0, 0)
  const McApiSetTalkBitmaskPacketTag: McApiPacketType := McSetTalkBitmask

  function SerializeMcApiSetTalkBitmask(p: McApiSetTalkBitmaskPacket, maxLength: nat): seq<Byte>
    requires maxLength <= MaxWireString
  {
    PutString(p.sessionToken, maxLength) + PutInt(p.id) + PutULong(p.value)
  }

  function DeserializeMcApiSetTalkBitmask(bs: seq<Byte>, maxLength: nat): Option<(McApiSetTalkBitmaskPacket, seq<Byte>)>
  {
    var token :- GetString(bs, maxLength);
    var id :- GetInt(token.1);
    var value :- GetULong(id.1);
    Some((McApiSetTalkBitmaskPacket(token.0, id.0, value.0), value.1))
  }

  /** Token (within the bound), id and the 64-bit value survive. */
  lemma McApiSetTalkBitmaskRoundTrip(p: McApiSetTalkBitmaskPacket, maxLength: nat, rest: seq<Byte>)
    requires maxLength <= MaxWireString
    ensures DeserializeMcApiSetTalkBitmask(SerializeMcApiSetTalkBitmask(p, maxLength) + rest, maxLength)
      == Some((p.(sessionToken := Bounded(p.sessionToken, maxLength)), rest))
    ensures DeserializeMcApiSetTalkBitmask(SerializeMcApiSetTalkBitmask(p, maxLength) + rest, maxLength) == Some((p, rest))
      <==> |p.sessionToken| <= maxLength
  {
    var t2 := PutULong(p.value) + rest;
    var t1 := PutInt(p.id) + t2;
    assert SerializeMcApiSetTalkBitmask(p, maxLength) + rest == PutString(p.sessionToken, maxLength) + t1;
    StringRoundTrip(p.sessionToken, maxLength, t1);
    IntRoundTrip(p.id, t2);
    ULongRoundTrip(p.value, rest);
  }

  datatype McApiSetListenBitmaskPacket = McApiSetListenBitmaskPacket(sessionToken: string, id: Int32, value: UInt32)

  const DefaultMcApiSetListenBitmaskPacket: McApiSetListenBitmaskPacket := McApiSetListenBitmaskPacket("", 0, 0)
  const McApiSetListenBitmaskPacketTag: McApiPacketType := McSetListenBitmask

  function SerializeMcApiSetListenBitmask(p: McApiSetListenBitmaskPacket, maxLength: nat): seq<Byte>
    requires maxLength <= MaxWireString
  {
    PutString(p.sessionToken, maxLength) + PutInt(p.id) + PutUInt(p.value)
  }

  function DeserializeMcApiSetListenBitmask(bs: seq<Byte>, maxLength: nat): Option<(McApiSetListenBitmaskPacket, seq<Byte>)>
  {
    var token :- GetString(bs, maxLength);
    var id :- GetInt(token.1);
    var value :- GetUInt(id.1);
    Some((McApiSetListenBitmaskPacket(token.0, id.0, value.0), value.1))
  }

  /** Token (within the bound), id and the 32-bit value survive. */
  lemma McApiSetListenBitmaskRoundTrip(p: McApiSetListenBitmaskPacket, maxLength: nat, rest: seq<Byte>)
    requires maxLength <= MaxWireString
    ensures DeserializeMcApiSetListenBitmask(SerializeMcApiSetListenBitmask(p, maxLength) + rest, maxLength)
      == Some((p.(sessionToken := Bounded(p.sessionToken, maxLength)), rest))
    ensures DeserializeMcApiSetListenBitmask(SerializeMcApiSetListenBitmask(p, maxLength) + rest, maxLength) == Some((p, rest))
      <==> |p.sessionToken| <= maxLength
  {
    var t2 := PutUInt(p.value) + rest;
    var t1 := PutInt(p.id) + t2;
    assert SerializeMcApiSetListenBitmask(p, maxLength) + rest == PutString(p.sessionToken, maxLength) + t1;
    StringRoundTrip(p.sessionToken, maxLength, t1);
    IntRoundTrip(p.id, t2);
    UIntRoundTrip(p.value, rest);
  }

  // ---------------------------------------------------------------------------
  // McApiSetRotationPacket

  datatype McApiSetRotationPacket = McApiSetRotationPacket(sessionToken: string, id: Int32, value: Quaternion)

  const DefaultMcApiSetRotationPacket: McApiSetRotationPacket := McApiSetRotationPacket("", 0, QuaternionZero)
  const McApiSetRotationPacketTag: McApiPacketType := McSetRotation

  /** Token, id, then X, Y, Z and W. */
  function SerializeMcApiSetRotation(p: McApiSetRotationPacket, maxLength: nat): seq<Byte>
    requires maxLength <= MaxWireString
  {
    PutString(p.sessionToken, maxLength) + PutInt(p.id)
      + PutFloat(p.value.x) + PutFloat(p.value.y) + PutFloat(p.value.z) + PutFloat(p.value.w)
  }

  /** The constructor's arguments are evaluated left to right, so the four
      reads fill X, Y, Z and W in that order. */
  function DeserializeMcApiSetRotation(bs: seq<Byte>, maxLength: nat): Option<(McApiSetRotationPacket, seq<Byte>)>
  {
    var token :- GetString(bs, maxLength);
    var id :- GetInt(token.1);
    var q :- GetQuaternion(id.1);
    Some((McApiSetRotationPacket(token.0, id.0, q.0), q.1))
  }

  lemma McApiSetRotationRoundTrip(p: McApiSetRotationPacket, maxLength: nat, rest: seq<Byte>)
    requires maxLength <= MaxWireString
    ensures DeserializeMcApiSetRotation(SerializeMcApiSetRotation(p, maxLength) + rest, maxLength)
      == Some((p.(sessionToken := Bounded(p.sessionToken, maxLength)), rest))
    ensures DeserializeMcApiSetRotation(SerializeMcApiSetRotation(p, maxLength) + rest, maxLength) == Some((p, rest))
      <==> |p.sessionToken| <= maxLength
  {
    var t2 := PutQuaternion(p.value) + rest;
    var t1 := PutInt(p.id) + t2;
    assert SerializeMcApiSetRotation(p, maxLength) + rest == PutString(p.sessionToken, maxLength) + t1;
    StringRoundTrip(p.sessionToken, maxLength, t1);
    IntRoundTrip(p.id, t2);
    QuaternionRoundTrip(p.value, rest);
  }

  // ---------------------------------------------------------------------------
  // McApiEntityCreatedPacket

  /** A DateTime as milliseconds since 0001-01-01 (DateTime.MinValue, the
      default). */
  type DateTime = int

  const UnixEpoch: DateTime := 62_135_596_800_000
  /** 1899-12-30, the day OLE Automation date 0.0 stands for. */
  const OADateEpoch: DateTime := 59_926_435_200_000

  /** The two floating-point conversions the packet uses, taken as given:
      `(t - DateTime.UnixEpoch).TotalMilliseconds` and `DateTime.FromOADate`.
      `Facts` holds what .NET documents of them at zero. */
  datatype Clock = Clock(toUnixMillis: DateTime -> Float64, fromOADate: Float64 -> DateTime)
  {
    predicate Facts()
    {
      toUnixMillis(UnixEpoch) == Float64(0) && fromOADate(Float64(0)) == OADateEpoch
    }
  }

  datatype McApiEntityCreatedPacket = McApiEntityCreatedPacket(
    sessionToken: string,
    id: Int32,
    lastSpoke: DateTime,
    destroyed: bool,
    worldId: string,
    name: string,
    muted: bool,
    deafened: bool,
    talkBitmask: UInt32,
    listenBitmask: UInt32,
    position: Vector3,
    rotation: Vector2)

  const DefaultMcApiEntityCreatedPacket: McApiEntityCreatedPacket :=
    McApiEntityCreatedPacket("", 0, 0, false, "", "", false, false, 0, 0, Vector3Zero, Vector2Zero)
  const McApiEntityCreatedPacketTag: McApiPacketType := McEntityCreated

  /** Token, Id, LastSpoke, Destroyed, WorldId and Name. */
  function SerializeMcApiEntityHead(p: McApiEntityCreatedPacket, maxLength: nat, clock: Clock): seq<Byte>
    requires maxLength <= MaxWireString
  {
    PutString(p.sessionToken, maxLength) + PutInt(p.id) + PutDouble(clock.toUnixMillis(p.lastSpoke))
      + PutBool(p.destroyed) + PutString(p.worldId, maxLength) + PutString(p.name, maxLength)
  }

  /** Muted, Deafened, the two masks, Position X, Y, Z and Rotation X, Y. */
  function SerializeMcApiEntityTail(p: McApiEntityCreatedPacket): seq<Byte>
  {
    PutBool(p.muted) + PutBool(p.deafened) + PutUInt(p.talkBitmask) + PutUInt(p.listenBitmask)
      + PutVector3(p.position) + PutVector2(p.rotation)
  }

  function SerializeMcApiEntityCreated(p: McApiEntityCreatedPacket, maxLength: nat, clock: Clock): seq<Byte>
    requires maxLength <= MaxWireString
  {
    SerializeMcApiEntityHead(p, maxLength, clock) + SerializeMcApiEntityTail(p)
  }

  /** Reads the head fields into `p`. */
  function DeserializeMcApiEntityHead(p: McApiEntityCreatedPacket, bs: seq<Byte>, maxLength: nat, clock: Clock): Option<(McApiEntityCreatedPacket, seq<Byte>)>
  {
    var token :- GetString(bs, maxLength);
    var id :- GetInt(token.1);
    var lastSpoke :- GetDouble(id.1);
    var destroyed :- GetBool(lastSpoke.1);
    var worldId :- GetString(destroyed.1, maxLength);
    var name :- GetString(worldId.1, maxLength);
    Some((p.(sessionToken := token.0, id := id.0, lastSpoke := clock.fromOADate(lastSpoke.0),
             destroyed := destroyed.0, worldId := worldId.0, name := name.0), name.1))
  }

  /** Reads the tail fields into `p`. */
  function DeserializeMcApiEntityTail(p: McApiEntityCreatedPacket, bs: seq<Byte>): Option<(McApiEntityCreatedPacket, seq<Byte>)>
  {
    var muted :- GetBool(bs);
    var deafened :- GetBool(muted.1);
    var talk :- GetUInt(deafened.1);
    var listen :- GetUInt(talk.1);
    var position :- GetVector3(listen.1);
    var rotation :- GetVector2(position.1);
    Some((p.(muted := muted.0, deafened := deafened.0, talkBitmask := talk.0, listenBitmask := listen.0,
             position := position.0, rotation := rotation.0), rotation.1))
  }

  function DeserializeMcApiEntityCreated(bs: seq<Byte>, maxLength: nat, clock: Clock): Option<(McApiEntityCreatedPacket, seq<Byte>)>
  {
    var head :- DeserializeMcApiEntityHead(DefaultMcApiEntityCreatedPacket, bs, maxLength, clock);
    DeserializeMcApiEntityTail(head.0, head.1)
  }

  lemma McApiEntityHeadRoundTrip(p: McApiEntityCreatedPacket, into: McApiEntityCreatedPacket, maxLength: nat, clock: Clock, rest: seq<Byte>)
    requires maxLength <= MaxWireString
    ensures DeserializeMcApiEntityHead(into, SerializeMcApiEntityHead(p, maxLength, clock) + rest, maxLength, clock)
      == Some((into.(sessionToken := Bounded(p.sessionToken, maxLength), id := p.id,
                     lastSpoke := clock.fromOADate(clock.toUnixMillis(p.lastSpoke)), destroyed := p.destroyed,
                     worldId := Bounded(p.worldId, maxLength), name := Bounded(p.name, maxLength)), rest))
  {
    var t5 := PutString(p.name, maxLength) + rest;
    var t4 := PutString(p.worldId, maxLength) + t5;
    var t3 := PutBool(p.destroyed) + t4;
    var t2 := PutDouble(clock.toUnixMillis(p.lastSpoke)) + t3;
    var t1 := PutInt(p.id) + t2;
    assert SerializeMcApiEntityHead(p, maxLength, clock) + rest == PutString(p.sessionToken, maxLength) + t1;
    StringRoundTrip(p.sessionToken, maxLength, t1);
    IntRoundTrip(p.id, t2);
    DoubleRoundTrip(clock.toUnixMillis(p.lastSpoke), t3);
    BoolRoundTrip(p.destroyed, t4);
    StringRoundTrip(p.worldId, maxLength, t5);
    StringRoundTrip(p.name, maxLength, rest);
  }

  lemma McApiEntityTailRoundTrip(p: McApiEntityCreatedPacket, into: McApiEntityCreatedPacket, rest: seq<Byte>)
    ensures DeserializeMcApiEntityTail(into, SerializeMcApiEntityTail(p) + rest)
      == Some((into.(muted := p.muted, deafened := p.deafened, talkBitmask := p.talkBitmask,
                     listenBitmask := p.listenBitmask, position := p.position, rotation := p.rotation), rest))
  {
    var t5 := PutVector2(p.rotation) + rest;
    var t4 := PutVector3(p.position) + t5;
    var t3 := PutUInt(p.listenBitmask) + t4;
    var t2 := PutUInt(p.talkBitmask) + t3;
    var t1 := PutBool(p.deafened) + t2;
    assert SerializeMcApiEntityTail(p) + rest == PutBool(p.muted) + t1;
    BoolRoundTrip(p.muted, t1);
    BoolRoundTrip(p.deafened, t2);
    UIntRoundTrip(p.talkBitmask, t3);
    UIntRoundTrip(p.listenBitmask, t4);
    Vector3RoundTrip(p.position, t5);
    Vector2RoundTrip(p.rotation, rest);
  }

  /** The strings, cut to the bound, and the other fields but LastSpoke
      survive; LastSpoke comes back through the mismatched pair of conversions. */
  lemma McApiEntityCreatedRoundTrip(p: McApiEntityCreatedPacket, maxLength: nat, clock: Clock, rest: seq<Byte>)
    requires maxLength <= MaxWireString
    ensures DeserializeMcApiEntityCreated(SerializeMcApiEntityCreated(p, maxLength, clock) + rest, maxLength, clock)
      == Some((p.(sessionToken := Bounded(p.sessionToken, maxLength),
                  lastSpoke := clock.fromOADate(clock.toUnixMillis(p.lastSpoke)),
                  worldId := Bounded(p.worldId, maxLength),
                  name := Bounded(p.name, maxLength)), rest))
  {
    var tail := SerializeMcApiEntityTail(p) + rest;
    assert SerializeMcApiEntityCreated(p, maxLength, clock) + rest == SerializeMcApiEntityHead(p, maxLength, clock) + tail;
    McApiEntityHeadRoundTrip(p, DefaultMcApiEntityCreatedPacket, maxLength, clock, tail);
    var head := DeserializeMcApiEntityHead(DefaultMcApiEntityCreatedPacket, SerializeMcApiEntityHead(p, maxLength, clock) + tail, maxLength, clock);
    McApiEntityTailRoundTrip(p, head.value.0, rest);
  }

  /** An entity that last spoke at the Unix epoch is written as 0 ms and read
      back as OLE date 0, which is 1899-12-30: LastSpoke does not round-trip. */
  lemma McApiEntityCreatedLastSpokeMismatch(p: McApiEntityCreatedPacket, maxLength: nat, clock: Clock, rest: seq<Byte>)
    requires maxLength <= MaxWireString && clock.Facts()
    requires p.lastSpoke == UnixEpoch
    ensures var r := DeserializeMcApiEntityCreated(SerializeMcApiEntityCreated(p, maxLength, clock) + rest, maxLength, clock);
      r.Some? && r.value.0.lastSpoke == OADateEpoch && r.value.0.lastSpoke != p.lastSpoke
  {
    McApiEntityCreatedRoundTrip(p, maxLength, clock, rest);
  }
}
