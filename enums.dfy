/** The enumerations of VoiceCraft.Core/Enums.cs. Each C# enum numbers its
    members from 0 in declaration order; `...Members` lists them in that order
    and `...Value` gives the number. For the enums that travel as a tag byte,
    `...Of` reads the byte back and `None` is a value the enum does not declare. */
module Enums {
  import opened Wrappers
  import opened Wire

  datatype PositioningType = PositioningUnknown | PositioningServer | PositioningClient

  const PositioningTypeMembers: seq<PositioningType> := [PositioningUnknown, PositioningServer, PositioningClient]

  function PositioningTypeValue(t: PositioningType): Byte
  {
    match t
    case PositioningUnknown => 0
    case PositioningServer => 1
    case PositioningClient => 2
  }

  datatype EntityType = EntityUnknown | EntityServer | EntityNetwork

  const EntityTypeMembers: seq<EntityType> := [EntityUnknown, EntityServer, EntityNetwork]

  function EntityTypeValue(t: EntityType): Byte
  {
    match t
    case EntityUnknown => 0
    case EntityServer => 1
    case EntityNetwork => 2
  }

  /** The voice protocol's packet tags. */
  datatype PacketType =
    | Unknown | Info | Login | SetEffect
    | Audio | SetTitle | SetDescription
    | EntityCreated | EntityDestroyed | SetVisibility | SetName | SetMute | SetDeafen
    | SetTalkBitmask | SetListenBitmask | SetPosition | SetRotation

  const PacketTypeMembers: seq<PacketType> :=
    [Unknown, Info, Login, SetEffect, Audio, SetTitle, SetDescription,
     EntityCreated, EntityDestroyed, SetVisibility, SetName, SetMute, SetDeafen,
     SetTalkBitmask, SetListenBitmask, SetPosition, SetRotation]

  function PacketTypeValue(t: PacketType): Byte
  {
    match t
    case Unknown => 0
    case Info => 1
    case Login => 2
    case SetEffect => 3
    case Audio => 4
    case SetTitle => 5
    case SetDescription => 6
    case EntityCreated => 7
    case EntityDestroyed => 8
    case SetVisibility => 9
    case SetName => 10
    case SetMute => 11
    case SetDeafen => 12
    case SetTalkBitmask => 13
    case SetListenBitmask => 14
    case SetPosition => 15
    case SetRotation => 16
  }

  /** The member name C#'s ToString would give. */
  function PacketTypeName(t: PacketType): (name: string)
    ensures name !in {"Logout", "SetId", "NetworkEntityCreated", "SetEffectBitmask"}
  {
    match t
    case Unknown => "Unknown"
    case Info => "Info"
    case Login => "Login"
    case SetEffect => "SetEffect"
    case Audio => "Audio"
    case SetTitle => "SetTitle"
    case SetDescription => "SetDescription"
    case EntityCreated => "EntityCreated"
    case EntityDestroyed => "EntityDestroyed"
    case SetVisibility => "SetVisibility"
    case SetName => "SetName"
    case SetMute => "SetMute"
    case SetDeafen => "SetDeafen"
    case SetTalkBitmask => "SetTalkBitmask"
    case SetListenBitmask => "SetListenBitmask"
    case SetPosition => "SetPosition"
    case SetRotation => "SetRotation"
  }

  function PacketTypeOf(b: Byte): (r: Option<PacketType>)
    ensures r.Some? <==> b < |PacketTypeMembers|
    ensures r.Some? ==> PacketTypeValue(r.value) == b
  {
    if b < |PacketTypeMembers| then Some(PacketTypeMembers[b]) else None
  }

  /** The bridge (McApi) protocol's packet tags. */
  datatype McApiPacketType =
    | McUnknown | McLogin | McLogout | McPing | McAccept | McDeny
    | McSetEffect
    | McAudio | McSetTitle | McSetDescription
    | McEntityCreated | McEntityDestroyed | McSetName | McSetMute | McSetDeafen
    | McSetTalkBitmask | McSetListenBitmask | McSetPosition | McSetRotation

  const McApiPacketTypeMembers: seq<McApiPacketType> :=
    [McUnknown, McLogin, McLogout, McPing, McAccept, McDeny, McSetEffect,
     McAudio, McSetTitle, McSetDescription,
     McEntityCreated, McEntityDestroyed, McSetName, McSetMute, McSetDeafen,
     McSetTalkBitmask, McSetListenBitmask, McSetPosition, McSetRotation]

  function McApiPacketTypeValue(t: McApiPacketType): Byte
  {
    match t
    case McUnknown => 0
    case McLogin => 1
    case McLogout => 2
    case McPing => 3
    case McAccept => 4
    case McDeny => 5
    case McSetEffect => 6
    case McAudio => 7
    case McSetTitle => 8
    case McSetDescription => 9
    case McEntityCreated => 10
    case McEntityDestroyed => 11
    case McSetName => 12
    case McSetMute => 13
    case McSetDeafen => 14
    case McSetTalkBitmask => 15
    case McSetListenBitmask => 16
    case McSetPosition => 17
    case McSetRotation => 18
  }

  function McApiPacketTypeOf(b: Byte): (r: Option<McApiPacketType>)
    ensures r.Some? <==> b < |McApiPacketTypeMembers|
    ensures r.Some? ==> McApiPacketTypeValue(r.value) == b
  {
    if b < |McApiPacketTypeMembers| then Some(McApiPacketTypeMembers[b]) else None
  }

  /** A ushort-backed enum. */
  datatype PropertyKey = PropertyUnknown | ProximityEffectMinRange | ProximityEffectMaxRange

  const PropertyKeyMembers: seq<PropertyKey> := [PropertyUnknown, ProximityEffectMinRange, ProximityEffectMaxRange]

  function PropertyKeyValue(k: PropertyKey): UInt16
  {
    match k
    case PropertyUnknown => 0
    case ProximityEffectMinRange => 1
    case ProximityEffectMaxRange => 2
  }

  datatype PropertyType = PropertyNull | PropertyByte | PropertyInt | PropertyUInt | PropertyFloat

  const PropertyTypeMembers: seq<PropertyType> := [PropertyNull, PropertyByte, PropertyInt, PropertyUInt, PropertyFloat]

  function PropertyTypeValue(t: PropertyType): Byte
  {
    match t
    case PropertyNull => 0
    case PropertyByte => 1
    case PropertyInt => 2
    case PropertyUInt => 3
    case PropertyFloat => 4
  }

  /** Only two effect kinds are declared here. */
  datatype EffectType = EffectUnknown | EffectProximity

  const EffectTypeMembers: seq<EffectType> := [EffectUnknown, EffectProximity]

  function EffectTypeValue(t: EffectType): Byte
  {
    match t
    case EffectUnknown => 0
    case EffectProximity => 1
  }

  function EffectTypeName(t: EffectType): (name: string)
    ensures name !in {"Visibility", "Directional"}
  {
    match t
    case EffectUnknown => "Unknown"
    case EffectProximity => "Proximity"
  }

  function EffectTypeOf(b: Byte): (r: Option<EffectType>)
    ensures r.Some? <==> b < |EffectTypeMembers|
    ensures r.Some? ==> EffectTypeValue(r.value) == b
  {
    if b < |EffectTypeMembers| then Some(EffectTypeMembers[b]) else None
  }

  datatype AudioFormat = Pcm8 | Pcm16 | PcmFloat

  const AudioFormatMembers: seq<AudioFormat> := [Pcm8, Pcm16, PcmFloat]

  function AudioFormatValue(f: AudioFormat): nat
  {
    match f
    case Pcm8 => 0
    case Pcm16 => 1
    case PcmFloat => 2
  }

  datatype CaptureState = CaptureStopped | CaptureStarting | Capturing | CaptureStopping

  const CaptureStateMembers: seq<CaptureState> := [CaptureStopped, CaptureStarting, Capturing, CaptureStopping]

  function CaptureStateValue(s: CaptureState): nat
  {
    match s
    case CaptureStopped => 0
    case CaptureStarting => 1
    case Capturing => 2
    case CaptureStopping => 3
  }

  datatype PlaybackState = PlaybackStopped | PlaybackStarting | Playing | Paused | PlaybackStopping

  const PlaybackStateMembers: seq<PlaybackState> := [PlaybackStopped, PlaybackStarting, Playing, Paused, PlaybackStopping]

  function PlaybackStateValue(s: PlaybackState): nat
  {
    match s
    case PlaybackStopped => 0
    case PlaybackStarting => 1
    case Playing => 2
    case Paused => 3
    case PlaybackStopping => 4
  }

  datatype BackgroundProcessStatus = ProcessStopped | ProcessStarted | ProcessCompleted | ProcessError

  const BackgroundProcessStatusMembers: seq<BackgroundProcessStatus> :=
    [ProcessStopped, ProcessStarted, ProcessCompleted, ProcessError]

  function BackgroundProcessStatusValue(s: BackgroundProcessStatus): nat
  {
    match s
    case ProcessStopped => 0
    case ProcessStarted => 1
    case ProcessCompleted => 2
    case ProcessError => 3
  }

  // Each enum lists every member once, and a member's number is its position.

  lemma PacketTypeNumbering()
    ensures |PacketTypeMembers| == 17
    ensures forall i | 0 <= i < |PacketTypeMembers| :: PacketTypeValue(PacketTypeMembers[i]) == i
    ensures forall t: PacketType :: PacketTypeValue(t) < |PacketTypeMembers| && PacketTypeMembers[PacketTypeValue(t)] == t
  {
  }

  lemma McApiPacketTypeNumbering()
    ensures |McApiPacketTypeMembers| == 19
    ensures forall i | 0 <= i < |McApiPacketTypeMembers| :: McApiPacketTypeValue(McApiPacketTypeMembers[i]) == i
    ensures forall t: McApiPacketType :: McApiPacketTypeValue(t) < |McApiPacketTypeMembers| && McApiPacketTypeMembers[McApiPacketTypeValue(t)] == t
  {
  }

  lemma EffectTypeNumbering()
    ensures |EffectTypeMembers| == 2
    ensures forall i | 0 <= i < |EffectTypeMembers| :: EffectTypeValue(EffectTypeMembers[i]) == i
    ensures forall t: EffectType :: EffectTypeValue(t) < |EffectTypeMembers| && EffectTypeMembers[EffectTypeValue(t)] == t
  {
  }

  lemma PositioningTypeNumbering()
    ensures |PositioningTypeMembers| == 3
    ensures forall i | 0 <= i < |PositioningTypeMembers| :: PositioningTypeValue(PositioningTypeMembers[i]) == i
    ensures forall t: PositioningType :: PositioningTypeValue(t) < |PositioningTypeMembers| && PositioningTypeMembers[PositioningTypeValue(t)] == t
  {
  }

  lemma EntityTypeNumbering()
    ensures |EntityTypeMembers| == 3
    ensures forall i | 0 <= i < |EntityTypeMembers| :: EntityTypeValue(EntityTypeMembers[i]) == i
    ensures forall t: EntityType :: EntityTypeValue(t) < |EntityTypeMembers| && EntityTypeMembers[EntityTypeValue(t)] == t
  {
  }

  lemma PropertyKeyNumbering()
    ensures |PropertyKeyMembers| == 3
    ensures forall i | 0 <= i < |PropertyKeyMembers| :: PropertyKeyValue(PropertyKeyMembers[i]) == i
    ensures forall k: PropertyKey :: PropertyKeyValue(k) < |PropertyKeyMembers| && PropertyKeyMembers[PropertyKeyValue(k)] == k
  {
  }

  lemma PropertyTypeNumbering()
    ensures |PropertyTypeMembers| == 5
    ensures forall i | 0 <= i < |PropertyTypeMembers| :: PropertyTypeValue(PropertyTypeMembers[i]) == i
    ensures forall t: PropertyType :: PropertyTypeValue(t) < |PropertyTypeMembers| && PropertyTypeMembers[PropertyTypeValue(t)] == t
  {
  }

  lemma AudioFormatNumbering()
    ensures |AudioFormatMembers| == 3
    ensures forall i | 0 <= i < |AudioFormatMembers| :: AudioFormatValue(AudioFormatMembers[i]) == i
    ensures forall f: AudioFormat :: AudioFormatValue(f) < |AudioFormatMembers| && AudioFormatMembers[AudioFormatValue(f)] == f
  {
  }

  lemma CaptureStateNumbering()
    ensures |CaptureStateMembers| == 4
    ensures forall i | 0 <= i < |CaptureStateMembers| :: CaptureStateValue(CaptureStateMembers[i]) == i
    ensures forall s: CaptureState :: CaptureStateValue(s) < |CaptureStateMembers| && CaptureStateMembers[CaptureStateValue(s)] == s
  {
  }

  lemma PlaybackStateNumbering()
    ensures |PlaybackStateMembers| == 5
    ensures forall i | 0 <= i < |PlaybackStateMembers| :: PlaybackStateValue(PlaybackStateMembers[i]) == i
    ensures forall s: PlaybackState :: PlaybackStateValue(s) < |PlaybackStateMembers| && PlaybackStateMembers[PlaybackStateValue(s)] == s
  {
  }

  lemma BackgroundProcessStatusNumbering()
    ensures |BackgroundProcessStatusMembers| == 4
    ensures forall i | 0 <= i < |BackgroundProcessStatusMembers| :: BackgroundProcessStatusValue(BackgroundProcessStatusMembers[i]) == i
    ensures forall s: BackgroundProcessStatus :: BackgroundProcessStatusValue(s) < |BackgroundProcessStatusMembers| && BackgroundProcessStatusMembers[BackgroundProcessStatusValue(s)] == s
  {
  }

  /** A tag byte read back names the member it was written from. */
  lemma TagRoundTrips()
    ensures forall t: PacketType :: PacketTypeOf(PacketTypeValue(t)) == Some(t)
    ensures forall t: McApiPacketType :: McApiPacketTypeOf(McApiPacketTypeValue(t)) == Some(t)
    ensures forall t: EffectType :: EffectTypeOf(EffectTypeValue(t)) == Some(t)
  {
  }
}
