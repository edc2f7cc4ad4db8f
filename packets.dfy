/** The voice protocol's packets (VoiceCraft.Core/Network/Packets). Each packet
    is a value; `Serialize` appends its fields to the writer and `Deserialize`
    reads them back in the same order. The bound on strings is the
    `Constants.MaxStringLength` of the source, a parameter here. A read past the
    end of the data throws, which is `None`; the properties a throwing
    `Deserialize` had already assigned are not kept. */
module Packets {
  import opened Wrappers
  import opened Wire
  import opened Enums
  import opened Effects

  /** A packet's `PacketType`. Four packet classes name a member that
      PacketType does not declare; their tag has no byte value. */
  datatype PacketTag = Declared(packetType: PacketType) | Undeclared(name: string)

  function TagByte(t: PacketTag): (b: Option<Byte>)
    ensures b.Some? <==> t.Declared?
    ensures b.Some? ==> PacketTypeOf(b.value) == Some(t.packetType)
  {
    match t
    case Declared(pt) =>
      PacketTypeNumbering();
      Some(PacketTypeValue(pt))
    case Undeclared(_) => None
  }

  // ---------------------------------------------------------------------------
  // EntityCreatedPacket and NetworkEntityCreatedPacket

  datatype EntityCreatedPacket = EntityCreatedPacket(id: Int32, name: string, muted: bool, deafened: bool)

  const DefaultEntityCreatedPacket: EntityCreatedPacket := EntityCreatedPacket(0, "", false, false)
  const EntityCreatedPacketTag: PacketTag := Declared(EntityCreated)

  function SerializeEntityCreated(p: EntityCreatedPacket, maxLength: nat): seq<Byte>
    requires maxLength <= MaxWireString
  {
    PutInt(p.id) + PutString(p.name, maxLength) + PutBool(p.muted) + PutBool(p.deafened)
  }

  function DeserializeEntityCreated(bs: seq<Byte>, maxLength: nat): Option<(EntityCreatedPacket, seq<Byte>)>
  {
    var id :- GetInt(bs);
    var name :- GetString(id.1, maxLength);
    var muted :- GetBool(name.1);
    var deafened :- GetBool(muted.1);
    Some((EntityCreatedPacket(id.0, name.0, muted.0, deafened.0), deafened.1))
  }

  /** Id, Muted and Deafened survive the codec; Name survives cut to the bound,
      so the whole packet does exactly when its name fits. */
  lemma EntityCreatedRoundTrip(p: EntityCreatedPacket, maxLength: nat, rest: seq<Byte>)
    requires maxLength <= MaxWireString
    ensures DeserializeEntityCreated(SerializeEntityCreated(p, maxLength) + rest, maxLength)
      == Some((p.(name := Bounded(p.name, maxLength)), rest))
    ensures DeserializeEntityCreated(SerializeEntityCreated(p, maxLength) + rest, maxLength) == Some((p, rest))
      <==> |p.name| <= maxLength
  {
    var t3 := PutBool(p.deafened) + rest;
    var t2 := PutBool(p.muted) + t3;
    var t1 := PutString(p.name, maxLength) + t2;
    assert SerializeEntityCreated(p, maxLength) + rest == PutInt(p.id) + t1;
    IntRoundTrip(p.id, t1);
    StringRoundTrip(p.name, maxLength, t2);
    BoolRoundTrip(p.muted, t3);
    BoolRoundTrip(p.deafened, rest);
  }

  datatype NetworkEntityCreatedPacket = NetworkEntityCreatedPacket(base: EntityCreatedPacket, userGuid: Guid)

  const DefaultNetworkEntityCreatedPacket: NetworkEntityCreatedPacket :=
    NetworkEntityCreatedPacket(DefaultEntityCreatedPacket, EmptyGuid)
  const NetworkEntityCreatedPacketTag: PacketTag := Undeclared("NetworkEntityCreated")

  /** The base fields first, UserGuid last. */
  function SerializeNetworkEntityCreated(p: NetworkEntityCreatedPacket, maxLength: nat): seq<Byte>
    requires maxLength <= MaxWireString
  {
    SerializeEntityCreated(p.base, maxLength) + PutGuid(p.userGuid)
  }

  function DeserializeNetworkEntityCreated(bs: seq<Byte>, maxLength: nat): Option<(NetworkEntityCreatedPacket, seq<Byte>)>
  {
    var base :- DeserializeEntityCreated(bs, maxLength);
    var guid :- GetGuid(base.1);
    Some((NetworkEntityCreatedPacket(base.0, guid.0), guid.1))
  }

  /** All five fields survive, the name within the bound. */
  lemma NetworkEntityCreatedRoundTrip(p: NetworkEntityCreatedPacket, maxLength: nat, rest: seq<Byte>)
    requires maxLength <= MaxWireString
    ensures DeserializeNetworkEntityCreated(SerializeNetworkEntityCreated(p, maxLength) + rest, maxLength)
      == Some((p.(base := p.base.(name := Bounded(p.base.name, maxLength))), rest))
    ensures DeserializeNetworkEntityCreated(SerializeNetworkEntityCreated(p, maxLength) + rest, maxLength) == Some((p, rest))
      <==> |p.base.name| <= maxLength
  {
    var t := PutGuid(p.userGuid) + rest;
    assert SerializeNetworkEntityCreated(p, maxLength) + rest == SerializeEntityCreated(p.base, maxLength) + t;
    EntityCreatedRoundTrip(p.base, maxLength, t);
    GuidRoundTrip(p.userGuid, rest);
  }

  /** The guid sits after the base fields here but before them in the entity
      classes' own Serialize: the two layouts put the guid's bytes at different
      offsets. */
  lemma NetworkEntityCreatedGuidLast(p: NetworkEntityCreatedPacket, maxLength: nat)
    requires maxLength <= MaxWireString
    ensures var bs := SerializeNetworkEntityCreated(p, maxLength);
      |bs| >= 16 && bs[|bs| - 16..] == p.userGuid
  {
    var bs := SerializeNetworkEntityCreated(p, maxLength);
    assert bs[|bs| - 16..] == PutGuid(p.userGuid);
  }

  // ---------------------------------------------------------------------------
  // SetIdPacket

  datatype SetIdPacket = SetIdPacket(id: Int32)

  const DefaultSetIdPacket: SetIdPacket := SetIdPacket(0)
  const SetIdPacketTag: PacketTag := Undeclared("SetId")

  function SerializeSetId(p: SetIdPacket): seq<Byte>
  {
    PutInt(p.id)
  }

  function DeserializeSetId(bs: seq<Byte>): Option<(SetIdPacket, seq<Byte>)>
  {
    var id :- GetInt(bs);
    Some((SetIdPacket(id.0), id.1))
  }

  /** Every int, negative ones included, survives in four bytes. */
  lemma SetIdRoundTrip(p: SetIdPacket, rest: seq<Byte>)
    ensures |SerializeSetId(p)| == 4
    ensures DeserializeSetId(SerializeSetId(p) + rest) == Some((p, rest))
  {
    IntRoundTrip(p.id, rest);
  }

  // ---------------------------------------------------------------------------
  // SetTalkBitmaskPacket, SetListenBitmaskPacket, SetEffectBitmaskPacket

  datatype SetTalkBitmaskPacket = SetTalkBitmaskPacket(id: Int32, value: UInt64)

  const DefaultSetTalkBitmaskPacket: SetTalkBitmaskPacket := SetTalkBitmaskPacket(0, 0)
  const SetTalkBitmaskPacketTag: PacketTag := Declared(SetTalkBitmask)

  function SerializeSetTalkBitmask(p: SetTalkBitmaskPacket): seq<Byte>
  {
    PutInt(p.id) + PutULong(p.value)
  }

  function DeserializeSetTalkBitmask(bs: seq<Byte>): Option<(SetTalkBitmaskPacket, seq<Byte>)>
  {
    var id :- GetInt(bs);
    var value :- GetULong(id.1);
    Some((SetTalkBitmaskPacket(id.0, value.0), value.1))
  }

  /** Id and the whole 64-bit value survive, in 4 + 8 bytes. */
  lemma SetTalkBitmaskRoundTrip(p: SetTalkBitmaskPacket, rest: seq<Byte>)
    ensures |SerializeSetTalkBitmask(p)| == 12
    ensures DeserializeSetTalkBitmask(SerializeSetTalkBitmask(p) + rest) == Some((p, rest))
  {
    var t := PutULong(p.value) + rest;
    assert SerializeSetTalkBitmask(p) + rest == PutInt(p.id) + t;
    IntRoundTrip(p.id, t);
    ULongRoundTrip(p.value, rest);
  }

  /** The listen mask travels as 32 bits, narrower than the entity's 64. */
  datatype SetListenBitmaskPacket = SetListenBitmaskPacket(id: Int32, value: UInt32)

  const DefaultSetListenBitmaskPacket: SetListenBitmaskPacket := SetListenBitmaskPacket(0, 0)
  const SetListenBitmaskPacketTag: PacketTag := Declared(SetListenBitmask)

  function SerializeSetListenBitmask(p: SetListenBitmaskPacket): seq<Byte>
  {
    PutInt(p.id) + PutUInt(p.value)
  }

  function DeserializeSetListenBitmask(bs: seq<Byte>): Option<(SetListenBitmaskPacket, seq<Byte>)>
  {
    var id :- GetInt(bs);
    var value :- GetUInt(id.1);
    Some((SetListenBitmaskPacket(id.0, value.0), value.1))
  }

  /** Id and the 32-bit value survive, in 4 + 4 bytes. */
  lemma SetListenBitmaskRoundTrip(p: SetListenBitmaskPacket, rest: seq<Byte>)
    ensures |SerializeSetListenBitmask(p)| == 8
    ensures DeserializeSetListenBitmask(SerializeSetListenBitmask(p) + rest) == Some((p, rest))
  {
    var t := PutUInt(p.value) + rest;
    assert SerializeSetListenBitmask(p) + rest == PutInt(p.id) + t;
    IntRoundTrip(p.id, t);
    UIntRoundTrip(p.value, rest);
  }

  datatype SetEffectBitmaskPacket = SetEffectBitmaskPacket(id: Int32, value: UInt32)

  const DefaultSetEffectBitmaskPacket: SetEffectBitmaskPacket := SetEffectBitmaskPacket(0, 0)
  const SetEffectBitmaskPacketTag: PacketTag := Undeclared("SetEffectBitmask")

  function SerializeSetEffectBitmask(p: SetEffectBitmaskPacket): seq<Byte>
  {
    PutInt(p.id) + PutUInt(p.value)
  }

  function DeserializeSetEffectBitmask(bs: seq<Byte>): Option<(SetEffectBitmaskPacket, seq<Byte>)>
  {
    var id :- GetInt(bs);
    var value :- GetUInt(id.1);
    Some((SetEffectBitmaskPacket(id.0, value.0), value.1))
  }

  lemma SetEffectBitmaskRoundTrip(p: SetEffectBitmaskPacket, rest: seq<Byte>)
    ensures |SerializeSetEffectBitmask(p)| == 8
    ensures DeserializeSetEffectBitmask(SerializeSetEffectBitmask(p) + rest) == Some((p, rest))
  {
    var t := PutUInt(p.value) + rest;
    assert SerializeSetEffectBitmask(p) + rest == PutInt(p.id) + t;
    IntRoundTrip(p.id, t);
    UIntRoundTrip(p.value, rest);
  }

  // ---------------------------------------------------------------------------
  // SetRotationPacket

  datatype SetRotationPacket = SetRotationPacket(id: Int32, value: Quaternion)

  const DefaultSetRotationPacket: SetRotationPacket := SetRotationPacket(0, QuaternionZero)
  const SetRotationPacketTag: PacketTag := Declared(SetRotation)

  /** Id, then X, Y, Z and W. */
  function SerializeSetRotation(p: SetRotationPacket): seq<Byte>
  {
    PutInt(p.id) + PutFloat(p.value.x) + PutFloat(p.value.y) + PutFloat(p.value.z) + PutFloat(p.value.w)
  }

  function DeserializeSetRotation(bs: seq<Byte>): Option<(SetRotationPacket, seq<Byte>)>
  {
    var id :- GetInt(bs);
    var x :- GetFloat(id.1);
    var y :- GetFloat(x.1);
    var z :- GetFloat(y.1);
    var w :- GetFloat(z.1);
    Some((SetRotationPacket(id.0, Quaternion(x.0, y.0, z.0, w.0)), w.1))
  }

  /** The four components come back bit for bit and in place. */
  lemma SetRotationRoundTrip(p: SetRotationPacket, rest: seq<Byte>)
    ensures |SerializeSetRotation(p)| == 20
    ensures DeserializeSetRotation(SerializeSetRotation(p) + rest) == Some((p, rest))
  {
    var t4 := PutFloat(p.value.w) + rest;
    var t3 := PutFloat(p.value.z) + t4;
    var t2 := PutFloat(p.value.y) + t3;
    var t1 := PutFloat(p.value.x) + t2;
    assert SerializeSetRotation(p) + rest == PutInt(p.id) + t1;
    IntRoundTrip(p.id, t1);
    FloatRoundTrip(p.value.x, t2);
    FloatRoundTrip(p.value.y, t3);
    FloatRoundTrip(p.value.z, t4);
    FloatRoundTrip(p.value.w, rest);
  }

  // ---------------------------------------------------------------------------
  // LogoutPacket

  datatype LogoutPacket = LogoutPacket(reason: string)

  const DefaultLogoutPacket: LogoutPacket := LogoutPacket("")
  const LogoutPacketTag: PacketTag := Undeclared("Logout")

  function SerializeLogout(p: LogoutPacket, maxLength: nat): seq<Byte>
    requires maxLength <= MaxWireString
  {
    PutString(p.reason, maxLength)
  }

  function DeserializeLogout(bs: seq<Byte>, maxLength: nat): Option<(LogoutPacket, seq<Byte>)>
  {
    var reason :- GetString(bs, maxLength);
    Some((LogoutPacket(reason.0), reason.1))
  }

  /** The reason survives exactly when it fits the bound. */
  lemma LogoutRoundTrip(p: LogoutPacket, maxLength: nat, rest: seq<Byte>)
    requires maxLength <= MaxWireString
    ensures DeserializeLogout(SerializeLogout(p, maxLength) + rest, maxLength)
      == Some((LogoutPacket(Bounded(p.reason, maxLength)), rest))
    ensures DeserializeLogout(SerializeLogout(p, maxLength) + rest, maxLength) == Some((p, rest))
      <==> |p.reason| <= maxLength
  {
    StringRoundTrip(p.reason, maxLength, rest);
  }

  // ---------------------------------------------------------------------------
  // SetEffectPacket

  /** `Effect` is a get-only property set by the constructor; `Deserialize`
      never assigns it. */
  datatype SetEffectPacket = SetEffectPacket(index: Byte, effectType: EffectType, effect: Option<Effect>)

  const SetEffectPacketTag: PacketTag := Declared(SetEffect)

  /** The EffectType an optional effect declares: Unknown for none. The
      visibility and directional effects name members EffectType lacks, so
      they are not accepted here. */
  predicate HasDeclaredType(effect: Option<Effect>)
  {
    effect.None? || DeclaredEffectType(effect.value).Some?
  }

  function EffectTypeOfOptional(effect: Option<Effect>): (t: EffectType)
    requires HasDeclaredType(effect)
    ensures effect.None? ==> t == EffectUnknown
    ensures effect.Some? ==> Some(t) == DeclaredEffectType(effect.value)
  {
    if effect.None? then EffectUnknown else DeclaredEffectType(effect.value).value
  }

  /** `new SetEffectPacket(index, effect)`. */
  function NewSetEffectPacket(index: Byte := 0, effect: Option<Effect> := None): (p: SetEffectPacket)
    requires HasDeclaredType(effect)
    ensures p.index == index && p.effect == effect
    ensures effect.None? ==> p.effectType == EffectUnknown
    ensures effect.Some? ==> p.effectType == EffectProximity
  {
    SetEffectPacket(index, EffectTypeOfOptional(effect), effect)
  }

  /** Index, the effect's type byte, then the effect's own payload. Writing a
      missing effect calls `Serialize` on null and throws. */
  function SerializeSetEffect(p: SetEffectPacket): (r: Result<seq<Byte>>)
    requires HasDeclaredType(p.effect)
    ensures r.Err? <==> p.effect.None?
  {
    match p.effect
    case None => Err(NullReference)
    case Some(e) =>
      Ok(PutByte(p.index) + PutByte(EffectTypeValue(EffectTypeOfOptional(p.effect))) + SerializeEffect(e))
  }

  /** Reads Index and the type byte into packet `p`; a byte EffectType does not
      define reads as Unknown. The effect's payload stays in the reader. */
  function DeserializeSetEffect(p: SetEffectPacket, bs: seq<Byte>): Option<(SetEffectPacket, seq<Byte>)>
  {
    var index :- GetByte(bs);
    var typeValue :- GetByte(index.1);
    var t := match EffectTypeOf(typeValue.0) case Some(t) => t case None => EffectUnknown;
    Some((p.(index := index.0, effectType := t), typeValue.1))
  }

  /** Decoding normalises the type: a defined byte becomes that member, any
      other byte Unknown; and the two bytes are all it consumes. */
  lemma SetEffectTypeNormalised(p: SetEffectPacket, index: Byte, typeValue: Byte, rest: seq<Byte>)
    ensures var r := DeserializeSetEffect(p, [index, typeValue] + rest);
      && r.Some? && r.value.1 == rest
      && r.value.0.index == index && r.value.0.effect == p.effect
      && (typeValue < |EffectTypeMembers| ==> EffectTypeValue(r.value.0.effectType) == typeValue)
      && (typeValue >= |EffectTypeMembers| ==> r.value.0.effectType == EffectUnknown)
  {
    assert ([index, typeValue] + rest)[1..][1..] == rest;
  }

  /** Index and type survive; the effect itself is not read back, its payload
      is left for the caller, after the two header bytes. */
  lemma SetEffectRoundTrip(p: SetEffectPacket, into: SetEffectPacket, rest: seq<Byte>)
    requires HasDeclaredType(p.effect) && p.effect.Some?
    requires p.effectType == EffectTypeOfOptional(p.effect)
    ensures SerializeSetEffect(p).Ok?
    ensures DeserializeSetEffect(into, SerializeSetEffect(p).value + rest)
      == Some((into.(index := p.index, effectType := p.effectType), SerializeEffect(p.effect.value) + rest))
  {
    var t := PutByte(EffectTypeValue(p.effectType)) + (SerializeEffect(p.effect.value) + rest);
    assert SerializeSetEffect(p).value + rest == PutByte(p.index) + t;
    ByteRoundTrip(p.index, t);
    ByteRoundTrip(EffectTypeValue(p.effectType), SerializeEffect(p.effect.value) + rest);
    EffectTypeNumbering();
  }

  /** The packets whose class names a PacketType member the enumeration
      does not declare have no tag byte; the others carry the declared one. */
  lemma PacketTags()
    ensures TagByte(EntityCreatedPacketTag) == Some(7)
    ensures TagByte(SetEffectPacketTag) == Some(3)
    ensures TagByte(SetTalkBitmaskPacketTag) == Some(13)
    ensures TagByte(SetListenBitmaskPacketTag) == Some(14)
    ensures TagByte(SetRotationPacketTag) == Some(16)
    ensures TagByte(NetworkEntityCreatedPacketTag).None? && TagByte(SetIdPacketTag).None?
    ensures TagByte(LogoutPacketTag).None? && TagByte(SetEffectBitmaskPacketTag).None?
  {
  }
}
