/** The entity and world data model: VoiceCraftEntity, the two
    VoiceCraftNetworkEntity variants (VoiceCraft.Core and VoiceCraft.Server),
    the client's VoiceCraftClientEntity and VoiceCraftClientNetworkEntity, and
    VoiceCraftWorld.

    One `Entity` class stands for the whole class hierarchy; its `kind` says
    which class the object was built as and so which overrides apply. Events are
    logged in ghost `events` sequences at the point where the source invokes
    them; who is subscribed is the `subscribers` set, and the components that
    react to an event (the world's RemoveEntity, the server's event handlers)
    are called by the code that raised it. */
module Entities {
  import opened Wrappers
  import opened Wire
  import opened Enums
  import opened DotNet
  import opened Net
  import opened Jitter

  datatype EntityKind =
    | ServerEntity          // VoiceCraftEntity itself
    | CoreNetworkEntity     // VoiceCraft.Core.VoiceCraftNetworkEntity
    | ServerNetworkEntity   // VoiceCraft.Server.Data.VoiceCraftNetworkEntity
    | ClientEntity          // VoiceCraftClientEntity
    | ClientNetworkEntity   // VoiceCraftClientNetworkEntity

  /** The classes that carry a NetPeer. */
  predicate HasPeer(kind: EntityKind)
  {
    kind.CoreNetworkEntity? || kind.ServerNetworkEntity?
  }

  /** The client-side classes, with an output buffer, a jitter buffer and a decoder. */
  predicate IsClientKind(kind: EntityKind)
  {
    kind.ClientEntity? || kind.ClientNetworkEntity?
  }

  /** The classes whose Serialize/Deserialize put UserGuid before the base fields. */
  predicate CarriesGuid(kind: EntityKind)
  {
    kind.ServerNetworkEntity? || kind.ClientNetworkEntity?
  }

  /** The `EntityType` property: Network for the two classes that override it.
      The Core network entity does not override it and reports Server. */
  function EntityTypeOf(kind: EntityKind): (t: EntityType)
    ensures t == EntityNetwork <==> CarriesGuid(kind)
    ensures t == EntityServer <==> !CarriesGuid(kind)
  {
    match kind
    case ServerEntity => EntityServer
    case CoreNetworkEntity => EntityServer
    case ServerNetworkEntity => EntityNetwork
    case ClientEntity => EntityServer
    case ClientNetworkEntity => EntityNetwork
  }

  const DefaultName: string := "New Entity"
  const ClientName: string := "New Client"
  /** The jitter buffer of a client entity holds frames back for 160 ms. */
  const ClientJitterDelayMs: int := 160
  /** `DateTime.MinValue`, the origin of the millisecond clock. */
  const MinTime: int := 0

  /** Who listens to an entity's events. `WorldRemover` is the RemoveEntity
      handler of the entity's own world (a world subscribes only entities whose
      World it is); `ServerEvents` is the server's EventHandlerSystem. */
  datatype Subscriber = WorldRemover | ServerEvents

  datatype EntityEvent =
    | WorldIdUpdated(worldId: string)
    | NameUpdated(name: string)
    | MuteUpdated(muted: bool)
    | DeafenUpdated(deafened: bool)
    | TalkBitmaskUpdated(talkBitmask: UInt64)
    | ListenBitmaskUpdated(listenBitmask: UInt64)
    | PositionUpdated(position: Vector3)
    | RotationUpdated(rotation: Quaternion)
    | VisibleEntityAdded(added: Entity)
    | VisibleEntityRemoved(removed: Entity)
    | AudioReceived(data: seq<Byte>, timestamp: UInt32, frameLoudness: Float32)
    | Destroyed
    | IsVisibleUpdated(isVisible: bool)
    | VolumeUpdated(volume: real)
    | UserMutedUpdated(userMuted: bool)
    | StartedSpeaking
    | StoppedSpeaking

  datatype WorldEvent = OnEntityCreated(created: Entity) | OnEntityDestroyed(destroyed: Entity)

  /** The one event a setter raises when the value changes. */
  function Change<T(==)>(before: T, after: T, event: EntityEvent): seq<EntityEvent>
  {
    if before == after then [] else [event]
  }

  /** The fields an entity writes to the wire. */
  datatype EntityFields = EntityFields(userGuid: Guid, name: string, muted: bool, deafened: bool)

  /** VoiceCraftEntity.Serialize: Name (bounded), Muted, Deafened. */
  function EncodeBase(f: EntityFields, maxLength: nat): seq<Byte>
    requires maxLength <= MaxWireString
  {
    PutString(f.name, maxLength) + PutBool(f.muted) + PutBool(f.deafened)
  }

  /** The network overrides put UserGuid in front of the base fields. */
  function EncodeEntity(kind: EntityKind, f: EntityFields, maxLength: nat): seq<Byte>
    requires maxLength <= MaxWireString
  {
    if CarriesGuid(kind) then PutGuid(f.userGuid) + EncodeBase(f, maxLength) else EncodeBase(f, maxLength)
  }

  /** VoiceCraftEntity.Deserialize reads all three fields before assigning any. */
  function DecodeBase(userGuid: Guid, bs: seq<Byte>, maxLength: nat): Option<(EntityFields, seq<Byte>)>
  {
    var name :- GetString(bs, maxLength);
    var muted :- GetBool(name.1);
    var deafened :- GetBool(muted.1);
    Some((EntityFields(userGuid, name.0, muted.0, deafened.0), deafened.1))
  }

  /** The network overrides read the guid, then the base fields; the guid is
      assigned only once the base has been read, so a failure assigns nothing. */
  function DecodeEntity(kind: EntityKind, userGuid: Guid, bs: seq<Byte>, maxLength: nat): Option<(EntityFields, seq<Byte>)>
  {
    if CarriesGuid(kind) then
      var g :- GetGuid(bs);
      var b :- DecodeBase(g.0, g.1, maxLength);
      Some(b)
    else DecodeBase(userGuid, bs, maxLength)
  }

  /** Serialize then Deserialize restores the guid (where written), Muted and
      Deafened, and Name cut to the bound; the rest of the data stays unread. */
  lemma EntityRoundTrip(kind: EntityKind, f: EntityFields, maxLength: nat, rest: seq<Byte>)
    requires maxLength <= MaxWireString
    ensures DecodeEntity(kind, f.userGuid, EncodeEntity(kind, f, maxLength) + rest, maxLength)
      == Some((f.(name := Bounded(f.name, maxLength)), rest))
    ensures DecodeEntity(kind, f.userGuid, EncodeEntity(kind, f, maxLength) + rest, maxLength) == Some((f, rest))
      <==> |f.name| <= maxLength
  {
    var t2 := PutBool(f.deafened) + rest;
    var t1 := PutBool(f.muted) + t2;
    assert EncodeBase(f, maxLength) + rest == PutString(f.name, maxLength) + t1;
    StringRoundTrip(f.name, maxLength, t1);
    BoolRoundTrip(f.muted, t2);
    BoolRoundTrip(f.deafened, rest);
    if CarriesGuid(kind) {
      assert EncodeEntity(kind, f, maxLength) + rest == PutGuid(f.userGuid) + (EncodeBase(f, maxLength) + rest);
      GuidRoundTrip(f.userGuid, EncodeBase(f, maxLength) + rest);
    }
    StringRoundTripExact(f.name, maxLength, t1);
  }

  /** Writing the guid first means a network entity's bytes are the guid
      followed by exactly what a plain entity with the same fields writes. */
  lemma GuidFirst(f: EntityFields, maxLength: nat)
    requires maxLength <= MaxWireString
    ensures EncodeEntity(ServerNetworkEntity, f, maxLength)[..16] == f.userGuid
    ensures EncodeEntity(ServerNetworkEntity, f, maxLength)[16..] == EncodeEntity(ServerEntity, f, maxLength)
    ensures EncodeEntity(ClientNetworkEntity, f, maxLength) == EncodeEntity(ServerNetworkEntity, f, maxLength)
    ensures EncodeEntity(CoreNetworkEntity, f, maxLength) == EncodeEntity(ServerEntity, f, maxLength)
  {
  }

  class Entity {
    const id: Int32
    const world: World
    const kind: EntityKind
    /** The NetPeer of the two network classes, null otherwise. */
    const peer: Peer?
    const serverUserGuid: Guid
    const locale: string
    const positioningType: PositioningType
    var userGuid: Guid

    var name: string
    var worldId: string
    var muted: bool
    var deafened: bool
    var talkBitmask: UInt64
    var listenBitmask: UInt64
    var position: Vector3
    var rotation: Quaternion
    var loudness: Float32
    var lastSpoke: int
    var destroyed: bool
    /** `_visibleEntities`, keyed by the visible entity's id. */
    var visible: map<int, Entity>
    var subscribers: set<Subscriber>
    ghost var events: seq<EntityEvent>

    // VoiceCraftClientEntity state.
    var isVisible: bool
    var volume: real
    var userMuted: bool
    var isReading: bool
    var lastPacket: int
    /** The samples waiting in the output buffer, oldest first. */
    var output: seq<Int16>
    var decoderDisposed: bool
    /** The jitter buffer of the client classes, null otherwise. */
    const jitter: JitterBuffer?

    /** The base fields as a freshly constructed VoiceCraftEntity has them,
        apart from the name, the visible set and the event log. */
    predicate Pristine()
      reads this
    {
      worldId == "" && !muted && !deafened
      && talkBitmask == UInt64Max && listenBitmask == UInt64Max
      && position == Vector3Zero && rotation == QuaternionZero
      && loudness == ZeroFloat && lastSpoke == MinTime && !destroyed && subscribers == {}
      && !isVisible && volume == 1.0 && !userMuted && !isReading && lastPacket == MinTime
      && output == [] && !decoderDisposed
    }

    /** The kind-specific shape set up by the constructors. */
    predicate WellFormed()
      reads this
    {
      (HasPeer(kind) <==> peer != null)
      && (IsClientKind(kind) <==> jitter != null)
      && (kind.ServerNetworkEntity? ==> id == peer.id)
    }

    /** `new VoiceCraftEntity(id, world)`. */
    constructor Plain(id: Int32, world: World)
      ensures this.id == id && this.world == world && kind == ServerEntity && WellFormed()
      ensures Pristine() && name == DefaultName && visible == map[] && events == []
      ensures userGuid == EmptyGuid
    {
      this.id := id;
      this.world := world;
      kind := ServerEntity;
      peer := null;
      serverUserGuid := EmptyGuid;
      locale := "";
      positioningType := PositioningUnknown;
      jitter := null;
      userGuid := EmptyGuid;
      name := DefaultName;
      worldId := "";
      muted := false;
      deafened := false;
      talkBitmask := UInt64Max;
      listenBitmask := UInt64Max;
      position := Vector3Zero;
      rotation := QuaternionZero;
      loudness := ZeroFloat;
      lastSpoke := MinTime;
      destroyed := false;
      visible := map[];
      subscribers := {};
      events := [];
      isVisible := false;
      volume := 1.0;
      userMuted := false;
      isReading := false;
      lastPacket := MinTime;
      output := [];
      decoderDisposed := false;
    }

    /** The VoiceCraft.Core network entity: the id is passed in. The name is
        set through its setter (so within the bound), and the entity makes
        itself visible to itself, raising both events. */
    constructor CoreNetwork(netPeer: Peer, id: Int32, userGuid: Guid, serverUserGuid: Guid, locale: string,
                            positioningType: PositioningType, world: World, maxLength: nat)
      requires |ClientName| <= maxLength
      ensures this.id == id && this.world == world && kind == CoreNetworkEntity && peer == netPeer && WellFormed()
      ensures this.userGuid == userGuid && this.serverUserGuid == serverUserGuid
      ensures this.locale == locale && this.positioningType == positioningType
      ensures Pristine() && name == ClientName && visible == map[id := this]
      ensures events == [NameUpdated(ClientName), VisibleEntityAdded(this)]
    {
      this.id := id;
      this.world := world;
      kind := CoreNetworkEntity;
      peer := netPeer;
      this.serverUserGuid := serverUserGuid;
      this.locale := locale;
      this.positioningType := positioningType;
      jitter := null;
      this.userGuid := userGuid;
      name := ClientName;
      worldId := "";
      muted := false;
      deafened := false;
      talkBitmask := UInt64Max;
      listenBitmask := UInt64Max;
      position := Vector3Zero;
      rotation := QuaternionZero;
      loudness := ZeroFloat;
      lastSpoke := MinTime;
      destroyed := false;
      subscribers := {};
      isVisible := false;
      volume := 1.0;
      userMuted := false;
      isReading := false;
      lastPacket := MinTime;
      output := [];
      decoderDisposed := false;
      new;
      visible := map[id := this];
      events := [NameUpdated(ClientName), VisibleEntityAdded(this)];
    }

    /** The server's network entity: its id is the peer's id. */
    constructor ServerNetwork(netPeer: Peer, userGuid: Guid, serverUserGuid: Guid, locale: string,
                              positioningType: PositioningType, world: World, maxLength: nat)
      requires |ClientName| <= maxLength
      ensures id == netPeer.id && this.world == world && kind == ServerNetworkEntity && peer == netPeer && WellFormed()
      ensures this.userGuid == userGuid && this.serverUserGuid == serverUserGuid
      ensures this.locale == locale && this.positioningType == positioningType
      ensures Pristine() && name == ClientName && visible == map[id := this]
      ensures events == [NameUpdated(ClientName), VisibleEntityAdded(this)]
    {
      id := netPeer.id;
      this.world := world;
      kind := ServerNetworkEntity;
      peer := netPeer;
      this.serverUserGuid := serverUserGuid;
      this.locale := locale;
      this.positioningType := positioningType;
      jitter := null;
      this.userGuid := userGuid;
      name := ClientName;
      worldId := "";
      muted := false;
      deafened := false;
      talkBitmask := UInt64Max;
      listenBitmask := UInt64Max;
      position := Vector3Zero;
      rotation := QuaternionZero;
      loudness := ZeroFloat;
      lastSpoke := MinTime;
      destroyed := false;
      subscribers := {};
      isVisible := false;
      volume := 1.0;
      userMuted := false;
      isReading := false;
      lastPacket := MinTime;
      output := [];
      decoderDisposed := false;
      new;
      visible := map[id := this];
      events := [NameUpdated(ClientName), VisibleEntityAdded(this)];
    }

    /** `new VoiceCraftClientEntity(id, world)` and, with `network`,
        `new VoiceCraftClientNetworkEntity(id, world)` (UserGuid empty). The
        volume starts at 1 and the jitter buffer holds frames for 160 ms. */
    constructor Client(id: Int32, world: World, network: bool)
      ensures this.id == id && this.world == world && WellFormed()
      ensures kind == if network then ClientNetworkEntity else ClientEntity
      ensures Pristine() && name == DefaultName && visible == map[] && events == [] && userGuid == EmptyGuid
      ensures fresh(jitter) && jitter.data == [] && jitter.cursor == None && jitter.maxDropOutTime == ClientJitterDelayMs
    {
      this.id := id;
      this.world := world;
      kind := if network then ClientNetworkEntity else ClientEntity;
      peer := null;
      serverUserGuid := EmptyGuid;
      locale := "";
      positioningType := PositioningUnknown;
      userGuid := EmptyGuid;
      name := DefaultName;
      worldId := "";
      muted := false;
      deafened := false;
      talkBitmask := UInt64Max;
      listenBitmask := UInt64Max;
      position := Vector3Zero;
      rotation := QuaternionZero;
      loudness := ZeroFloat;
      lastSpoke := MinTime;
      destroyed := false;
      visible := map[];
      subscribers := {};
      events := [];
      isVisible := false;
      volume := 1.0;
      userMuted := false;
      isReading := false;
      lastPacket := MinTime;
      output := [];
      decoderDisposed := false;
      var j := new JitterBuffer(ClientJitterDelayMs);
      jitter := j;
    }

    function EntityType(): (t: EntityType)
      ensures t == EntityTypeOf(kind)
    {
      EntityTypeOf(kind)
    }

    /** `IsSpeaking`: audio arrived less than the silence threshold ago. */
    predicate IsSpeaking(now: int, silenceThresholdMs: int)
      reads this
    {
      now - lastSpoke < silenceThresholdMs
    }

    /** `Loudness`: the last frame's loudness while speaking, zero otherwise. */
    function Loudness(now: int, silenceThresholdMs: int): (l: Float32)
      reads this
      ensures !IsSpeaking(now, silenceThresholdMs) ==> l == ZeroFloat
      ensures IsSpeaking(now, silenceThresholdMs) ==> l == loudness
    {
      if IsSpeaking(now, silenceThresholdMs) then loudness else ZeroFloat
    }

    // -------------------------------------------------------------------------
    // Property setters: an unchanged value returns at once, without an event.

    method SetWorldId(value: string, maxLength: nat) returns (r: Result<bool>)
      modifies this`worldId, this`events
      ensures old(worldId) == value ==> r == Ok(false) && worldId == value && events == old(events)
      ensures old(worldId) != value && |value| > maxLength ==>
        r == Err(ArgumentOutOfRange) && worldId == old(worldId) && events == old(events)
      ensures old(worldId) != value && |value| <= maxLength ==>
        r == Ok(true) && worldId == value && events == old(events) + [WorldIdUpdated(value)]
    {
      if worldId == value {
        return Ok(false);
      }
      if |value| > maxLength {
        return Err(ArgumentOutOfRange);
      }
      worldId := value;
      events := events + [WorldIdUpdated(value)];
      r := Ok(true);
    }

    method SetName(value: string, maxLength: nat) returns (r: Result<bool>)
      modifies this`name, this`events
      ensures old(name) == value ==> r == Ok(false) && name == value && events == old(events)
      ensures old(name) != value && |value| > maxLength ==>
        r == Err(ArgumentOutOfRange) && name == old(name) && events == old(events)
      ensures old(name) != value && |value| <= maxLength ==>
        r == Ok(true) && name == value && events == old(events) + [NameUpdated(value)]
    {
      if name == value {
        return Ok(false);
      }
      if |value| > maxLength {
        return Err(ArgumentOutOfRange);
      }
      name := value;
      events := events + [NameUpdated(value)];
      r := Ok(true);
    }

    method SetMuted(value: bool) returns (raised: bool)
      modifies this`muted, this`events
      ensures muted == value && raised == (old(muted) != value)
      ensures events == old(events) + Change(old(muted), value, MuteUpdated(value))
    {
      raised := muted != value;
      if !raised {
        return;
      }
      muted := value;
      events := events + [MuteUpdated(value)];
    }

    method SetDeafened(value: bool) returns (raised: bool)
      modifies this`deafened, this`events
      ensures deafened == value && raised == (old(deafened) != value)
      ensures events == old(events) + Change(old(deafened), value, DeafenUpdated(value))
    {
      raised := deafened != value;
      if !raised {
        return;
      }
      deafened := value;
      events := events + [DeafenUpdated(value)];
    }

    /** As written, a new talk bitmask raises the listen-bitmask event. */
    method SetTalkBitmask(value: UInt64) returns (raised: bool)
      modifies this`talkBitmask, this`events
      ensures talkBitmask == value && raised == (old(talkBitmask) != value)
      ensures events == old(events) + Change(old(talkBitmask), value, ListenBitmaskUpdated(value))
    {
      raised := talkBitmask != value;
      if !raised {
        return;
      }
      talkBitmask := value;
      events := events + [ListenBitmaskUpdated(value)];
    }

    /** As written, a new listen bitmask raises the talk-bitmask event. */
    method SetListenBitmask(value: UInt64) returns (raised: bool)
      modifies this`listenBitmask, this`events
      ensures listenBitmask == value && raised == (old(listenBitmask) != value)
      ensures events == old(events) + Change(old(listenBitmask), value, TalkBitmaskUpdated(value))
    {
      raised := listenBitmask != value;
      if !raised {
        return;
      }
      listenBitmask := value;
      events := events + [TalkBitmaskUpdated(value)];
    }

    method SetPosition(value: Vector3) returns (raised: bool)
      modifies this`position, this`events
      ensures position == value && raised == (old(position) != value)
      ensures events == old(events) + Change(old(position), value, PositionUpdated(value))
    {
      raised := position != value;
      if !raised {
        return;
      }
      position := value;
      events := events + [PositionUpdated(value)];
    }

    method SetRotation(value: Quaternion) returns (raised: bool)
      modifies this`rotation, this`events
      ensures rotation == value && raised == (old(rotation) != value)
      ensures events == old(events) + Change(old(rotation), value, RotationUpdated(value))
    {
      raised := rotation != value;
      if !raised {
        return;
      }
      rotation := value;
      events := events + [RotationUpdated(value)];
    }

    // -------------------------------------------------------------------------
    // The visible set.

    /** TryAdd keyed by the other entity's id: a present id changes nothing. */
    method AddVisibleEntity(other: Entity) returns (raised: bool)
      modifies this`visible, this`events
      ensures raised <==> other.id !in old(visible)
      ensures visible == if raised then old(visible)[other.id := other] else old(visible)
      ensures events == old(events) + (if raised then [VisibleEntityAdded(other)] else [])
    {
      if other.id in visible {
        return false;
      }
      visible := visible[other.id := other];
      events := events + [VisibleEntityAdded(other)];
      raised := true;
    }

    /** Remove by the other entity's id, whatever entity is stored there. */
    method RemoveVisibleEntity(other: Entity) returns (raised: bool)
      modifies this`visible, this`events
      ensures raised <==> other.id in old(visible)
      ensures visible == old(visible) - {other.id}
      ensures events == old(events) + (if raised then [VisibleEntityRemoved(other)] else [])
    {
      if other.id !in visible {
        return false;
      }
      visible := visible - {other.id};
      events := events + [VisibleEntityRemoved(other)];
      raised := true;
    }

    /** Removes exactly the entries whose entity is destroyed, without events. */
    method TrimVisibleDeadEntities()
      modifies this`visible
      ensures forall k :: k in visible <==> k in old(visible) && !old(visible)[k].destroyed
      ensures forall k | k in visible :: visible[k] == old(visible)[k]
    {
      var dead := set k | k in visible && visible[k].destroyed :: (k, visible[k]);
      var remaining := dead;
      ghost var removedKeys: set<int> := {};
      while remaining != {}
        invariant remaining <= dead
        invariant removedKeys == set p | p in dead - remaining :: p.0
        invariant visible == old(visible) - removedKeys
        decreases |remaining|
      {
        var entry :| entry in remaining;
        visible := visible - {entry.0};
        removedKeys := removedKeys + {entry.0};
        remaining := remaining - {entry};
      }
      forall k | k in old(visible) && old(visible)[k].destroyed
        ensures k in removedKeys
      {
        assert (k, old(visible)[k]) in dead;
      }
    }

    /** Two entities in the same, non-blank world, where this one talks on a
        channel the other listens on. */
    predicate VisibleTo(other: Entity)
      reads this, other
    {
      !IsNullOrWhiteSpace(worldId) && !IsNullOrWhiteSpace(other.worldId) && worldId == other.worldId
      && And(talkBitmask, other.listenBitmask) != 0
    }

    // -------------------------------------------------------------------------
    // Audio, destruction, reset and the codec.

    /** The client classes queue the frame in the jitter buffer first; then the
        base records the loudness and the time and raises the event. */
    method ReceiveAudio(data: seq<Byte>, timestamp: UInt32, frameLoudness: Float32, now: int)
      modifies this`loudness, this`lastSpoke, this`events, jitter
      ensures loudness == frameLoudness && lastSpoke == now
      ensures events == old(events) + [AudioReceived(data, timestamp, frameLoudness)]
      ensures jitter != null ==>
        jitter.data == AddSpec(old(jitter.data), old(jitter.cursor), JitterPacket(timestamp, now, data))
        && jitter.cursor == old(jitter.cursor)
    {
      if jitter != null {
        jitter.Add(JitterPacket(timestamp, now, data));
      }
      loudness := frameLoudness;
      lastSpoke := now;
      events := events + [AudioReceived(data, timestamp, frameLoudness)];
    }

    /** The first call marks the entity destroyed, raises OnDestroyed (which runs
        its world's RemoveEntity when that is subscribed) and drops every
        subscriber; later calls do nothing. The client classes dispose their
        decoder on every call. `removed` says whether the world raised its
        OnEntityDestroyed. */
    method Destroy() returns (removed: bool)
      modifies this`destroyed, this`subscribers, this`events, this`decoderDisposed, world`entities, world`events
      ensures destroyed
      ensures decoderDisposed == (old(decoderDisposed) || IsClientKind(kind))
      ensures old(destroyed) ==>
        !removed && subscribers == old(subscribers) && events == old(events)
        && world.entities == old(world.entities) && world.events == old(world.events)
      ensures !old(destroyed) ==>
        subscribers == {} && events == old(events) + [Destroyed]
        && removed == (WorldRemover in old(subscribers) && id in old(world.entities))
        && world.entities == (if WorldRemover in old(subscribers) then old(world.entities) - {id} else old(world.entities))
        && world.events == old(world.events) + (if removed then [OnEntityDestroyed(this)] else [])
    {
      if IsClientKind(kind) {
        decoderDisposed := true;
      }
      removed := false;
      if destroyed {
        return;
      }
      destroyed := true;
      events := events + [Destroyed];
      if WorldRemover in subscribers {
        removed := world.RemoveEntity(this);
      }
      subscribers := {};
    }

    /** The name-change events the three base setters raise when Deserialize
        assigns `f`. */
    ghost function FieldEvents(f: EntityFields): seq<EntityEvent>
      reads this
    {
      Change(name, f.name, NameUpdated(f.name)) + Change(muted, f.muted, MuteUpdated(f.muted))
      + Change(deafened, f.deafened, DeafenUpdated(f.deafened))
    }

    function Fields(): EntityFields
      reads this
    {
      EntityFields(userGuid, name, muted, deafened)
    }

    function Serialize(maxLength: nat): seq<Byte>
      requires maxLength <= MaxWireString
      reads this
    {
      EncodeEntity(kind, Fields(), maxLength)
    }

    /** Deserialize: everything is read first, then assigned through the
        setters (so with their events); a short read assigns nothing. */
    method Deserialize(bs: seq<Byte>, maxLength: nat) returns (rest: Option<seq<Byte>>)
      modifies this`userGuid, this`name, this`muted, this`deafened, this`events
      ensures DecodeEntity(kind, old(userGuid), bs, maxLength).None? ==>
        rest == None && Fields() == old(Fields()) && events == old(events)
      ensures DecodeEntity(kind, old(userGuid), bs, maxLength).Some? ==>
        var (f, r) := DecodeEntity(kind, old(userGuid), bs, maxLength).value;
        rest == Some(r) && Fields() == f && events == old(events) + old(FieldEvents(f))
    {
      var d := DecodeEntity(kind, userGuid, bs, maxLength);
      if d.None? {
        return None;
      }
      var f := d.value.0;
      ghost var expected := FieldEvents(f);
      GetStringBound(bs, kind, userGuid, maxLength);
      ghost var nameEvent := Change(name, f.name, NameUpdated(f.name));
      ghost var muteEvent := Change(muted, f.muted, MuteUpdated(f.muted));
      var n := SetName(f.name, maxLength);
      var m := SetMuted(f.muted);
      Regroup(old(events), nameEvent, muteEvent);
      var df := SetDeafened(f.deafened);
      Regroup(old(events), nameEvent + muteEvent, Change(old(deafened), f.deafened, DeafenUpdated(f.deafened)));
      userGuid := f.userGuid;
      rest := Some(d.value.1);
    }

    /** Whatever Deserialize decodes as the name fits the bound. */
    static lemma GetStringBound(bs: seq<Byte>, kind: EntityKind, userGuid: Guid, maxLength: nat)
      ensures DecodeEntity(kind, userGuid, bs, maxLength).Some? ==>
        |DecodeEntity(kind, userGuid, bs, maxLength).value.0.name| <= maxLength
    {
    }

    /** VoiceCraftEntity.Reset destroys. The network classes instead restore
        their login state through the setters: the Core class writes the 32-bit
        all-ones mask into the 64-bit bitmasks, the Server class the 64-bit one.
        The Core class assigns `Vector2.Zero` to the quaternion Rotation; that
        is modelled as the zero quaternion. Identity fields are not touched. */
    method Reset(maxLength: nat) returns (removed: bool)
      requires |ClientName| <= maxLength
      modifies this`name, this`worldId, this`position, this`rotation, this`talkBitmask, this`listenBitmask
      modifies this`destroyed, this`subscribers, this`events, this`decoderDisposed, world`entities, world`events
      ensures HasPeer(kind) ==>
        (!removed && world.entities == old(world.entities) && world.events == old(world.events)
        && destroyed == old(destroyed) && subscribers == old(subscribers) && decoderDisposed == old(decoderDisposed)
        && LoginState(ResetBitmask(kind)) && events == old(events) + old(ResetEvents(ResetBitmask(kind))))
      ensures !HasPeer(kind) ==>
        (destroyed && name == old(name) && worldId == old(worldId)
        && (old(destroyed) ==> !removed && events == old(events))
        && (!old(destroyed) ==> subscribers == {} && events == old(events) + [Destroyed]))
    {
      if !HasPeer(kind) {
        removed := Destroy();
        return;
      }
      removed := false;
      RestoreLoginState(maxLength, ResetBitmask(kind));
    }

    /** The state a network entity logs in with, as far as Reset restores it. */
    predicate LoginState(bitmask: UInt64)
      reads this
    {
      name == ClientName && worldId == "" && position == Vector3Zero && rotation == QuaternionZero
      && talkBitmask == bitmask && listenBitmask == bitmask
    }

    /** The six setters of a network Reset, in their order. */
    method RestoreLoginState(maxLength: nat, bitmask: UInt64)
      requires |ClientName| <= maxLength
      modifies this`name, this`worldId, this`position, this`rotation, this`talkBitmask, this`listenBitmask, this`events
      ensures LoginState(bitmask) && events == old(events) + old(ResetEvents(bitmask))
    {
      ghost var first := Change(name, ClientName, NameUpdated(ClientName)) + Change(worldId, "", WorldIdUpdated(""))
        + Change(position, Vector3Zero, PositionUpdated(Vector3Zero));
      RestoreName(maxLength);
      ghost var second := Change(rotation, QuaternionZero, RotationUpdated(QuaternionZero))
        + Change(talkBitmask, bitmask, ListenBitmaskUpdated(bitmask))
        + Change(listenBitmask, bitmask, TalkBitmaskUpdated(bitmask));
      RestoreOrientation(bitmask);
      assert old(ResetEvents(bitmask)) == first + second;
    }

    /** The first three setters of a network Reset. */
    method RestoreName(maxLength: nat)
      requires |ClientName| <= maxLength
      modifies this`name, this`worldId, this`position, this`events
      ensures name == ClientName && worldId == "" && position == Vector3Zero
      ensures events == old(events) + Change(old(name), ClientName, NameUpdated(ClientName))
        + Change(old(worldId), "", WorldIdUpdated("")) + Change(old(position), Vector3Zero, PositionUpdated(Vector3Zero))
    {
      var r1 := SetName(ClientName, maxLength);
      var r2 := SetWorldId("", maxLength);
      var r3 := SetPosition(Vector3Zero);
    }

    /** The last three setters of a network Reset. */
    method RestoreOrientation(bitmask: UInt64)
      modifies this`rotation, this`talkBitmask, this`listenBitmask, this`events
      ensures rotation == QuaternionZero && talkBitmask == bitmask && listenBitmask == bitmask
      ensures events == old(events) + Change(old(rotation), QuaternionZero, RotationUpdated(QuaternionZero))
        + Change(old(talkBitmask), bitmask, ListenBitmaskUpdated(bitmask))
        + Change(old(listenBitmask), bitmask, TalkBitmaskUpdated(bitmask))
    {
      var r4 := SetRotation(QuaternionZero);
      var r5 := SetTalkBitmask(bitmask);
      var r6 := SetListenBitmask(bitmask);
    }

    /** The events of a network Reset, in the order its setters run. */
    ghost function ResetEvents(bitmask: UInt64): seq<EntityEvent>
      reads this
    {
      Change(name, ClientName, NameUpdated(ClientName)) + Change(worldId, "", WorldIdUpdated(""))
      + Change(position, Vector3Zero, PositionUpdated(Vector3Zero))
      + Change(rotation, QuaternionZero, RotationUpdated(QuaternionZero))
      + Change(talkBitmask, bitmask, ListenBitmaskUpdated(bitmask))
      + Change(listenBitmask, bitmask, TalkBitmaskUpdated(bitmask))
    }

    // -------------------------------------------------------------------------
    // VoiceCraftClientEntity.

    method SetIsVisible(value: bool) returns (raised: bool)
      modifies this`isVisible, this`events
      ensures isVisible == value && raised == (old(isVisible) != value)
      ensures events == old(events) + Change(old(isVisible), value, IsVisibleUpdated(value))
    {
      raised := isVisible != value;
      if !raised {
        return;
      }
      isVisible := value;
      events := events + [IsVisibleUpdated(value)];
    }

    /** A volume within `tolerance` of the current one is no change. */
    method SetVolume(value: real, tolerance: real) returns (raised: bool)
      modifies this`volume, this`events
      ensures raised <==> !(Distance(old(volume), value) < tolerance)
      ensures volume == if raised then value else old(volume)
      ensures events == old(events) + (if raised then [VolumeUpdated(value)] else [])
    {
      if Distance(volume, value) < tolerance {
        return false;
      }
      volume := value;
      events := events + [VolumeUpdated(value)];
      raised := true;
    }

    method SetUserMuted(value: bool) returns (raised: bool)
      modifies this`userMuted, this`events
      ensures userMuted == value && raised == (old(userMuted) != value)
      ensures events == old(events) + Change(old(userMuted), value, UserMutedUpdated(value))
    {
      raised := userMuted != value;
      if !raised {
        return;
      }
      userMuted := value;
      events := events + [UserMutedUpdated(value)];
    }

    /** Empties the output buffer and resets the jitter buffer. */
    method ClearBuffer()
      requires jitter != null
      modifies this`output, jitter
      ensures output == [] && jitter.data == [] && jitter.cursor == None
    {
      output := [];
      jitter.Reset();
    }

    /** The read state machine. While user-muted the output is discarded and
        nothing is read; an empty output ends speech; a successful read starts
        it. The begin and end of speech are each raised once, on the transition
        only. The output buffer hands out min(count, buffered) samples, oldest
        first. When speech ends on an empty output, the decoder first conceals
        the lost frame into the buffer; `concealed` is the frame its loss
        concealment produces (the decoder is not part of this model). */
    method Read(buffer: array<Int16>, count: int, concealed: seq<Int16>) returns (read: int)
      requires 0 <= count <= buffer.Length
      modifies buffer, this`output, this`isReading, this`events
      ensures old(userMuted) ==>
        read == 0 && output == [] && !isReading && buffer[..] == old(buffer[..])
        && events == old(events) + (if old(isReading) then [StoppedSpeaking] else [])
      ensures !old(userMuted) && (count == 0 || old(output) == []) ==>
        read == 0 && output == old(output) && !isReading
        && buffer[..] == (if old(isReading) then Overlaid(old(buffer[..]), concealed) else old(buffer[..]))
        && events == old(events) + (if old(isReading) then [StoppedSpeaking] else [])
      ensures !old(userMuted) && count > 0 && old(output) != [] ==>
        read == DotNet.Min(count, |old(output)|) && output == old(output)[read..] && isReading
        && buffer[..read] == old(output)[..read] && buffer[read..] == old(buffer[read..])
        && events == old(events) + (if old(isReading) then [] else [StartedSpeaking])
    {
      if userMuted {
        output := [];
        if !isReading {
          return 0;
        }
        isReading := false;
        events := events + [StoppedSpeaking];
        return 0;
      }
      read := DotNet.Min(count, |output|);
      if read <= 0 {
        if !isReading {
          return 0;
        }
        Conceal(buffer, concealed);
        isReading := false;
        events := events + [StoppedSpeaking];
        return 0;
      }
      var i := 0;
      while i < read
        invariant 0 <= i <= read
        invariant output == old(output) && isReading == old(isReading) && events == old(events)
        invariant buffer[..i] == output[..i]
        invariant buffer[i..] == old(buffer[i..])
      {
        buffer[i] := output[i];
        i := i + 1;
      }
      output := output[read..];
      if isReading {
        return;
      }
      events := events + [StartedSpeaking];
      isReading := true;
    }

    /** The decoder's loss concealment written over the start of `buffer`. */
    static method Conceal(buffer: array<Int16>, concealed: seq<Int16>)
      modifies buffer
      ensures buffer[..] == Overlaid(old(buffer[..]), concealed)
    {
      var w := DotNet.Min(|concealed|, buffer.Length);
      forall i | 0 <= i < w {
        buffer[i] := concealed[i];
      }
      assert buffer[..] == concealed[..w] + old(buffer[..])[w..];
    }

    /** The next decoded frame, or 0. A buffer shorter than one frame yields 0
        untouched. Otherwise the jitter buffer is asked for a frame: with none,
        the decoder conceals a loss unless the last frame is older than the
        silence threshold; with one, it is decoded and its time recorded. The
        decoder is a parameter: None for an exception, which yields 0, as does a
        throwing jitter buffer. */
    method GetNextPacket(bufferLength: int, now: int, bytesPerFrame: int, silenceThresholdMs: int,
                         decode: Option<seq<Byte>> -> Option<int>) returns (n: int)
      requires jitter != null
      modifies this`lastPacket, jitter
      ensures bufferLength * 2 < bytesPerFrame ==>
        n == 0 && lastPacket == old(lastPacket) && jitter.data == old(jitter.data) && jitter.cursor == old(jitter.cursor)
      ensures bufferLength * 2 >= bytesPerFrame ==>
        var step := GetSpec(old(jitter.data), old(jitter.cursor), jitter.maxDropOutTime, now);
        jitter.data == step.data && jitter.cursor == step.cursor
        && (step.result.Err? ==> n == 0 && lastPacket == old(lastPacket))
        && (step.result == Ok(None) ==>
              lastPacket == old(lastPacket)
              && n == if now - old(lastPacket) > silenceThresholdMs then 0 else Decoded(decode(None)))
        && (step.result.Ok? && step.result.value.Some? ==>
              lastPacket == now && n == Decoded(decode(Some(step.result.value.value.data))))
    {
      if bufferLength * 2 < bytesPerFrame {
        return 0;
      }
      var r := jitter.Get(now);
      if r.Err? {
        return 0;
      }
      if r.value.None? {
        n := if now - lastPacket > silenceThresholdMs then 0 else Decoded(decode(None));
        return;
      }
      lastPacket := now;
      n := Decoded(decode(Some(r.value.value.data)));
    }
  }

  /** `Math.Abs(a - b)`. */
  function Distance(a: real, b: real): real
  {
    if a >= b then a - b else b - a
  }

  /** `b` with its first samples replaced by those of `c`, as far as `b`
      reaches. */
  function Overlaid(b: seq<Int16>, c: seq<Int16>): (r: seq<Int16>)
    ensures |r| == |b|
    ensures forall i | 0 <= i < |r| :: r[i] == if i < |c| then c[i] else b[i]
  {
    var w := DotNet.Min(|c|, |b|);
    c[..w] + b[w..]
  }

  /** A decoder exception is caught and yields 0. */
  function Decoded(o: Option<int>): int
  {
    if o.Some? then o.value else 0
  }

  /** The bitmask a network Reset writes: `uint.MaxValue` in the Core class,
      `ulong.MaxValue` in the Server class. */
  function ResetBitmask(kind: EntityKind): (b: UInt64)
    ensures kind.CoreNetworkEntity? ==> b == UInt32Max
    ensures !kind.CoreNetworkEntity? ==> b == UInt64Max
  {
    if kind.CoreNetworkEntity? then UInt32Max else UInt64Max
  }

  // ---------------------------------------------------------------------------
  // VoiceCraftWorld

  const CreateFailedMessage: string := "Failed to create entity!"
  const DuplicateIdMessage: string := "Failed to add entity! An entity with the same id already exists!"
  const ForeignWorldMessage: string := "Failed to add entity! The entity is not associated with this world!"
  const NotFoundMessage: string := "Failed to destroy entity! Entity not found!"
  const NoIdMessage: string := "Could not find an available id!"

  /** `i` is the smallest id from 0 up that `keys` does not use. */
  predicate LowestFree(keys: set<int>, i: int)
  {
    0 <= i < Int32Max && i !in keys && forall j | 0 <= j < i :: j in keys
  }

  /** Every id GetLowestAvailableId tries is taken. */
  predicate AllIdsTaken(keys: set<int>)
  {
    forall j | 0 <= j < Int32Max :: j in keys
  }

  class World {
    var entities: map<int, Entity>
    ghost var events: seq<WorldEvent>

    /** Every entity is stored under its own id. */
    ghost predicate Valid()
      reads this, entities.Values
    {
      forall k | k in entities :: entities[k].id == k
    }

    constructor()
      ensures entities == map[] && events == [] && Valid()
    {
      entities := map[];
      events := [];
    }

    /** The first id from 0 up that no entity uses, trying 0 .. int.MaxValue - 1. */
    method GetLowestAvailableId() returns (r: Result<Int32>)
      ensures r.Ok? ==> LowestFree(entities.Keys, r.value)
      ensures r.Err? <==> AllIdsTaken(entities.Keys)
      ensures r.Err? ==> r.error == InvalidOperation(NoIdMessage)
    {
      var i := 0;
      while i < Int32Max
        invariant 0 <= i <= Int32Max
        invariant forall j | 0 <= j < i :: j in entities
      {
        if i !in entities {
          return Ok(i);
        }
        i := i + 1;
      }
      return Err(InvalidOperation(NoIdMessage));
    }

    /** A new plain entity under the lowest free id, subscribed to by this
        world, with OnEntityCreated raised once. */
    method CreateEntity() returns (r: Result<Entity>)
      modifies this
      ensures r.Err? ==>
        AllIdsTaken(old(entities).Keys) && r.error == InvalidOperation(NoIdMessage)
        && entities == old(entities) && events == old(events)
      ensures r.Ok? ==>
        fresh(r.value) && LowestFree(old(entities).Keys, r.value.id)
        && r.value.world == this && r.value.kind == ServerEntity && r.value.WellFormed()
        && r.value.subscribers == {WorldRemover}
        && r.value.name == DefaultName && r.value.visible == map[] && r.value.events == []
        && entities == old(entities)[r.value.id := r.value]
        && events == old(events) + [OnEntityCreated(r.value)]
      ensures old(Valid()) ==> Valid()
    {
      var id :- GetLowestAvailableId();
      var entity := new Entity.Plain(id, this);
      entities := entities[id := entity];
      entity.subscribers := entity.subscribers + {WorldRemover};
      events := events + [OnEntityCreated(entity)];
      r := Ok(entity);
    }

    /** TryAdd under the entity's id, and only then the world check: an entity
        of another world stays in the map although the call throws. */
    method AddEntity(e: Entity) returns (o: Outcome)
      modifies this, e`subscribers
      ensures e.id in old(entities) ==>
        o == Threw(InvalidOperation(DuplicateIdMessage))
        && entities == old(entities) && events == old(events) && e.subscribers == old(e.subscribers)
      ensures e.id !in old(entities) ==> entities == old(entities)[e.id := e]
      ensures e.id !in old(entities) && e.world != this ==>
        o == Threw(InvalidOperation(ForeignWorldMessage))
        && events == old(events) && e.subscribers == old(e.subscribers)
      ensures e.id !in old(entities) && e.world == this ==>
        o == Done
        && events == old(events) + [OnEntityCreated(e)] && e.subscribers == old(e.subscribers) + {WorldRemover}
      ensures old(Valid()) ==> Valid()
    {
      if e.id in entities {
        return Threw(InvalidOperation(DuplicateIdMessage));
      }
      entities := entities[e.id := e];
      if e.world != this {
        return Threw(InvalidOperation(ForeignWorldMessage));
      }
      e.subscribers := e.subscribers + {WorldRemover};
      events := events + [OnEntityCreated(e)];
      o := Done;
    }

    /** The entity stored under `id`, or null. */
    function GetEntity(id: int): (r: Option<Entity>)
      reads this
      ensures r.Some? <==> id in entities
      ensures r.Some? ==> r.value == entities[id]
    {
      if id in entities then Some(entities[id]) else None
    }

    /** Removes `id`, unsubscribes this world and destroys the entity, then
        raises OnEntityDestroyed once. An absent id throws and changes nothing. */
    method DestroyEntity(id: int) returns (o: Outcome)
      modifies this, if id in entities then {entities[id]} else {}, if id in entities then {entities[id].world} else {}
      ensures id !in old(entities) ==>
        o == Threw(InvalidOperation(NotFoundMessage))
        && entities == old(entities) && events == old(events)
      ensures id in old(entities) ==>
        o == Done && old(entities[id]).destroyed
        && entities == old(entities) - {id}
        && events == old(events) + [OnEntityDestroyed(old(entities[id]))]
      ensures id in old(entities) && !old(entities[id].destroyed) ==>
        old(entities[id]).subscribers == {} && old(entities[id]).events == old(entities[id].events) + [Destroyed]
      ensures old(Valid()) ==> Valid()
    {
      if id !in entities {
        return Threw(InvalidOperation(NotFoundMessage));
      }
      var e := entities[id];
      entities := entities - {id};
      if e.world == this {
        e.subscribers := e.subscribers - {WorldRemover};
      }
      var _ := e.Destroy();
      events := events + [OnEntityDestroyed(e)];
      o := Done;
    }

    /** Empties the map, then destroys every former entity after unsubscribing
        this world, so that no OnEntityDestroyed is raised here. */
    method ClearEntities()
      modifies this, entities.Values, set e | e in entities.Values :: e.world
      ensures entities == map[] && events == old(events)
      ensures forall e | e in old(entities).Values :: e.destroyed
      ensures Valid()
    {
      var remaining := entities.Values;
      ghost var former := remaining;
      entities := map[];
      while remaining != {}
        invariant remaining <= former
        invariant entities == map[] && events == old(events)
        invariant forall e | e in former - remaining :: e.destroyed
        decreases |remaining|
      {
        var e :| e in remaining;
        if e.world == this {
          e.subscribers := e.subscribers - {WorldRemover};
        }
        var _ := e.Destroy();
        remaining := remaining - {e};
      }
    }

    /** The OnDestroyed handler: removes whatever is stored under the entity's
        id and raises OnEntityDestroyed only if something was there. */
    method RemoveEntity(e: Entity) returns (raised: bool)
      requires e.world == this
      modifies this`entities, this`events
      ensures raised <==> e.id in old(entities)
      ensures entities == old(entities) - {e.id}
      ensures events == old(events) + (if raised then [OnEntityDestroyed(e)] else [])
    {
      raised := e.id in entities;
      if raised {
        entities := entities - {e.id};
        events := events + [OnEntityDestroyed(e)];
      }
    }
  }

  // ---------------------------------------------------------------------------
  // Properties

  /** The integers 0 .. n - 1. */
  function Range(n: nat): (r: set<int>)
    ensures forall i :: i in r <==> 0 <= i < n
  {
    if n == 0 then {} else Range(n - 1) + {n - 1}
  }

  /** There are exactly n of them. */
  lemma {:induction false} RangeSize(n: nat)
    ensures |Range(n)| == n
  {
    if n > 0 {
      RangeSize(n - 1);
      assert n - 1 !in Range(n - 1);
    }
  }

  /** Fewer than int.MaxValue entities leave an id for GetLowestAvailableId. */
  lemma FreeIdExists(keys: set<int>)
    requires |keys| < Int32Max
    ensures !AllIdsTaken(keys)
  {
    if AllIdsTaken(keys) {
      RangeSize(Int32Max);
      SubsetSize(Range(Int32Max), keys);
    }
  }

  /** The lowest free id is unique. */
  lemma LowestFreeUnique(keys: set<int>, i: int, j: int)
    requires LowestFree(keys, i) && LowestFree(keys, j)
    ensures i == j
  {
  }
}
