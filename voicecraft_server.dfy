/** VoiceCraftServer (VoiceCraftServer.cs) apart from its send half: the
    answer to a connection request (version, then capacity, then accept), the
    handlers for the packets a connected peer sends, and the clean-up when a
    peer disconnects. LoginPacket.cs is not part of this model: a login is
    taken as already decoded, or as undecodable. Events raised on the way are
    handed to the EventHandlerSystem the server was built with. */
module VoiceServer {
  import opened Wrappers
  import opened Wire
  import opened Net
  import opened Enums
  import opened Entities
  import opened ServerNet
  import opened EventHandlers
  import opened Effects
  import opened AudioEffects
  import opened DotNet

  datatype Version = Version(major: int, minor: int, build: int)

  /** `VoiceCraftServer.Version`. */
  const ServerVersion: Version := Version(1, 1, 0)

  datatype LoginPacket = LoginPacket(version: Version, userGuid: Guid, serverUserGuid: Guid, locale: string,
                                     positioningType: PositioningType)

  const IncompatibleVersionReason: string := "VoiceCraft.DisconnectReason.IncompatibleVersion"
  const ServerFullReason: string := "VoiceCraft.DisconnectReason.ServerFull"
  const ErrorReason: string := "VoiceCraft.DisconnectReason.Error"

  /** The data of a connection request: null, not a login, or a login. */
  datatype RequestData = NullData | Undecodable | LoginData(packet: LoginPacket)

  /** How a connection request is answered; a rejection carries its reason
      bytes, or none for the bare `Reject()`. */
  datatype Answer = Rejected(reason: Option<string>) | Accepted

  /** Major and minor must match; the build number is not compared. */
  predicate Compatible(v: Version)
  {
    v.major == ServerVersion.major && v.minor == ServerVersion.minor
  }

  /** OnConnectionRequest and HandleLoginPacket as a decision. */
  function Admission(data: RequestData, connectedPeers: int, maxClients: int): Answer
  {
    match data
    case NullData => Rejected(None)
    case Undecodable => Rejected(Some(ErrorReason))
    case LoginData(p) =>
      if !Compatible(p.version) then Rejected(Some(IncompatibleVersionReason))
      else if connectedPeers >= maxClients then Rejected(Some(ServerFullReason))
      else Accepted
  }

  /** A request is accepted exactly when it is a login of a compatible
      version and the server has room. */
  lemma AdmissionAccepts(data: RequestData, connectedPeers: int, maxClients: int)
    ensures Admission(data, connectedPeers, maxClients) == Accepted <==>
      data.LoginData? && Compatible(data.packet.version) && connectedPeers < maxClients
  {
  }

  /** The version is checked before the capacity: an incompatible login is
      told so even by a full server. */
  lemma VersionBeforeCapacity(p: LoginPacket, connectedPeers: int, maxClients: int)
    requires !Compatible(p.version) && connectedPeers >= maxClients
    ensures Admission(LoginData(p), connectedPeers, maxClients) == Rejected(Some(IncompatibleVersionReason))
  {
  }

  /** The build number never changes the answer. */
  lemma BuildIgnored(p: LoginPacket, build: int, connectedPeers: int, maxClients: int)
    ensures Admission(LoginData(p), connectedPeers, maxClients)
         == Admission(LoginData(p.(version := p.version.(build := build))), connectedPeers, maxClients)
  {
  }

  /** Fewer connected peers never turn an acceptance into a rejection. */
  lemma AdmissionMonotone(data: RequestData, fewer: int, more: int, maxClients: int)
    requires fewer <= more && Admission(data, more, maxClients) == Accepted
    ensures Admission(data, fewer, maxClients) == Accepted
  {
  }

  /** The server entity a peer's packets act on: the world's entity under the
      peer's id, when it is a server network entity. */
  function Target(w: World, peer: Peer): (r: Option<Entity>)
    reads w
    ensures r.Some? <==> peer.id in w.entities && w.entities[peer.id].kind == ServerNetworkEntity
    ensures r.Some? ==> r.value == w.entities[peer.id]
  {
    if peer.id in w.entities && w.entities[peer.id].kind == ServerNetworkEntity then Some(w.entities[peer.id]) else None
  }

  /** The objects a per-peer handler may change: the target entity. */
  function TargetSet(w: World, peer: Peer): set<Entity>
    reads w
  {
    if peer.id in w.entities then {w.entities[peer.id]} else {}
  }

  class VoiceCraftServer {
    const world: World
    const transport: Transport
    const handlers: EventHandlerSystem
    /** Config.MaxClients. */
    const maxClients: int
    /** The string bound of the wire format. */
    const maxLength: nat

    ghost predicate Valid()
      reads this
    {
      transport.world == world && handlers.server == transport && |ClientName| <= maxLength
    }

    constructor(world: World, transport: Transport, handlers: EventHandlerSystem, maxClients: int, maxLength: nat)
      requires transport.world == world && handlers.server == transport && |ClientName| <= maxLength
      ensures this.world == world && this.transport == transport && this.handlers == handlers
      ensures this.maxClients == maxClients && this.maxLength == maxLength && Valid()
    {
      this.world := world;
      this.transport := transport;
      this.handlers := handlers;
      this.maxClients := maxClients;
      this.maxLength := maxLength;
    }

    /** OnConnectionRequest: the answer is Admission's. On acceptance,
        `peer` (what `request.Accept()` returns) gets a new server network
        entity under its id, tagged and added to the world. Adding raises
        OnEntityCreated, which the event handlers serve at once; when the id is
        taken, AddEntity throws and the peer is disconnected with the Error
        reason. */
    method OnConnectionRequest(data: RequestData, connectedPeers: int, peer: Peer)
      returns (answer: Answer, entity: Entity?,
               broadcast: seq<(int, Entity)>, effectOrder: seq<(Byte, Effect)>, others: seq<(int, Entity)>)
      requires Valid()
      modifies world, peer, transport`sent
      ensures answer == Admission(data, connectedPeers, maxClients)
      ensures answer.Rejected? ==>
        entity == null && world.entities == old(world.entities) && world.events == old(world.events)
        && transport.sent == old(transport.sent) && unchanged(peer)
      ensures answer.Accepted? ==>
        entity != null && fresh(entity) && peer.tagged
        && entity.kind == ServerNetworkEntity && entity.peer == peer && entity.id == peer.id
        && entity.userGuid == data.packet.userGuid
      ensures answer.Accepted? && peer.id in old(world.entities) ==>
        world.entities == old(world.entities) && world.events == old(world.events)
        && peer.state == Disconnected && peer.disconnectReason == Some(ErrorReason)
        && transport.sent == old(transport.sent)
      ensures answer.Accepted? && peer.id !in old(world.entities) ==>
        world.entities == old(world.entities)[peer.id := entity]
        && world.events == old(world.events) + [OnEntityCreated(entity)]
        && peer.state == old(peer.state) && peer.disconnectReason == old(peer.disconnectReason)
        && entity.subscribers == {WorldRemover, ServerEvents}
        && IsOrdering(broadcast, Entries(world.entities))
        && IsOrdering(effectOrder, Entries(handlers.effects.effects))
        && IsOrdering(others, Entries(world.entities))
        && transport.sent == old(transport.sent)
          + BroadcastSends(broadcast, {peer}, CreatedPacket(entity))
          + EffectSends(peer, effectOrder) + OthersSends(peer, others, entity)
    {
      answer := Admission(data, connectedPeers, maxClients);
      if answer.Rejected? {
        return answer, null, [], [], [];
      }
      var added;
      entity, added := AddNetworkEntity(data.packet, peer);
      if !added {
        return answer, entity, [], [], [];
      }
      broadcast, effectOrder, others := handlers.OnEntityCreated(entity);
    }

    /** The try block of HandleLoginPacket up to the world's event: the new
        entity, tagged onto the peer and added to the world; when its id is
        taken, the peer is disconnected with the Error reason instead. */
    method AddNetworkEntity(p: LoginPacket, peer: Peer) returns (entity: Entity, added: bool)
      requires Valid()
      modifies world, peer
      ensures fresh(entity) && peer.tagged && entity.WellFormed()
      ensures entity.kind == ServerNetworkEntity && entity.peer == peer && entity.id == peer.id && entity.world == world
      ensures entity.userGuid == p.userGuid && entity.serverUserGuid == p.serverUserGuid
      ensures entity.locale == p.locale && entity.positioningType == p.positioningType
      ensures entity.name == ClientName && entity.visible == map[peer.id := entity]
      ensures added <==> peer.id !in old(world.entities)
      ensures !added ==>
        world.entities == old(world.entities) && world.events == old(world.events)
        && peer.state == Disconnected && peer.disconnectReason == Some(ErrorReason)
      ensures added ==>
        world.entities == old(world.entities)[peer.id := entity]
        && world.events == old(world.events) + [OnEntityCreated(entity)]
        && peer.state == old(peer.state) && peer.disconnectReason == old(peer.disconnectReason)
        && entity.subscribers == {WorldRemover}
    {
      entity := new Entity.ServerNetwork(peer, p.userGuid, p.serverUserGuid, p.locale, p.positioningType, world, maxLength);
      peer.tagged := true;
      var o := world.AddEntity(entity);
      added := o.Done?;
      if !added {
        peer.Disconnect(ErrorReason);
      }
    }

    /** HandleSetMutePacket: only the peer's own server network entity is
        muted; a change queues its broadcast. */
    method HandleSetMutePacket(peer: Peer, value: bool) returns (applied: bool)
      modifies TargetSet(world, peer), handlers`tasks
      ensures applied <==> old(Target(world, peer)).Some?
      ensures !applied ==> handlers.tasks == old(handlers.tasks)
      ensures applied ==>
        var e := world.entities[peer.id];
        e.muted == value && e.events == old(e.events) + Change(old(e.muted), value, MuteUpdated(value))
        && handlers.tasks == old(handlers.tasks)
          + (if old(e.muted) != value && ServerEvents in e.subscribers then Queued(e, MuteUpdated(value)) else [])
    {
      var target := Target(world, peer);
      applied := target.Some?;
      if !applied {
        return;
      }
      var e := target.value;
      var raised := e.SetMuted(value);
      if raised && ServerEvents in e.subscribers {
        handlers.OnEntityEvent(e, MuteUpdated(value));
      }
    }

    /** HandleSetDeafenPacket, likewise for deafen. */
    method HandleSetDeafenPacket(peer: Peer, value: bool) returns (applied: bool)
      modifies TargetSet(world, peer), handlers`tasks
      ensures applied <==> old(Target(world, peer)).Some?
      ensures !applied ==> handlers.tasks == old(handlers.tasks)
      ensures applied ==>
        var e := world.entities[peer.id];
        e.deafened == value && e.events == old(e.events) + Change(old(e.deafened), value, DeafenUpdated(value))
        && handlers.tasks == old(handlers.tasks)
          + (if old(e.deafened) != value && ServerEvents in e.subscribers then Queued(e, DeafenUpdated(value)) else [])
    {
      var target := Target(world, peer);
      applied := target.Some?;
      if !applied {
        return;
      }
      var e := target.value;
      var raised := e.SetDeafened(value);
      if raised && ServerEvents in e.subscribers {
        handlers.OnEntityEvent(e, DeafenUpdated(value));
      }
    }

    /** HandleAudioPacket: the peer's own server network entity receives the
        frame (at time `now`), and its audio event queues the forwarding. */
    method HandleAudioPacket(peer: Peer, data: seq<Byte>, timestamp: UInt32, frameLoudness: Float32, now: int)
      returns (applied: bool)
      requires forall e | e in TargetSet(world, peer) :: e.WellFormed()
      modifies TargetSet(world, peer), handlers`tasks
      ensures applied <==> old(Target(world, peer)).Some?
      ensures !applied ==> handlers.tasks == old(handlers.tasks)
      ensures applied ==>
        var e := world.entities[peer.id];
        e.loudness == frameLoudness && e.lastSpoke == now
        && e.events == old(e.events) + [AudioReceived(data, timestamp, frameLoudness)]
        && handlers.tasks == old(handlers.tasks)
          + (if ServerEvents in e.subscribers then Queued(e, AudioReceived(data, timestamp, frameLoudness)) else [])
    {
      var target := Target(world, peer);
      applied := target.Some?;
      if !applied {
        return;
      }
      var e := target.value;
      e.ReceiveAudio(data, timestamp, frameLoudness, now);
      if ServerEvents in e.subscribers {
        handlers.OnEntityEvent(e, AudioReceived(data, timestamp, frameLoudness));
      }
    }

    /** OnPeerDisconnectedEvent: a peer tagged with a network entity has the
        entity under its id destroyed through the world (which throws when
        there is none); the world's OnEntityDestroyed then reaches the event
        handlers. An untagged peer changes nothing. */
    method OnPeerDisconnected(peer: Peer) returns (o: Outcome, broadcast: seq<(int, Entity)>)
      requires Valid()
      modifies world, TargetSet(world, peer), set e | e in TargetSet(world, peer) :: e.world,
               set e | e in TargetSet(world, peer) :: e.peer, transport`sent
      ensures !old(peer.tagged) ==>
        o == Done && world.entities == old(world.entities) && world.events == old(world.events)
        && transport.sent == old(transport.sent)
      ensures old(peer.tagged) && peer.id !in old(world.entities) ==>
        o == Threw(InvalidOperation(NotFoundMessage))
        && world.entities == old(world.entities) && transport.sent == old(transport.sent)
      ensures old(peer.tagged) && peer.id in old(world.entities) ==>
        var e := old(world.entities[peer.id]);
        o == Done && e.destroyed && ServerEvents !in e.subscribers
        && world.entities == old(world.entities) - {peer.id}
        && world.events == old(world.events) + [OnEntityDestroyed(e)]
        && (IsNetwork(e) ==> e.peer.state == Disconnected)
        && IsOrdering(broadcast, Entries(world.entities))
        && transport.sent == old(transport.sent) + BroadcastSends(broadcast, {}, EntityDestroyedOut(e.id))
    {
      broadcast := [];
      if !peer.tagged {
        return Done, broadcast;
      }
      if peer.id !in world.entities {
        o := world.DestroyEntity(peer.id);
        return;
      }
      var e := world.entities[peer.id];
      o := world.DestroyEntity(peer.id);
      broadcast := handlers.OnEntityDestroyed(e);
    }
  }
}
