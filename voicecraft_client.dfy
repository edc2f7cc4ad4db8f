/** The voice client (VoiceCraftClient.cs): the guard on connecting, the
    speaking state derived from microphone peaks, the gate on outgoing audio,
    the handling of a server disconnect, and the handlers of the packets the
    server sends. The client is itself an entity: `self` holds the entity
    state it inherits (name, mute, deafen, masks, position, rotation), while
    the id the server assigns is kept apart in `id`, as the class overrides
    `Id`. The network library is seen through `Peer`: the peer a connect
    attempt returns is a parameter. */
module VoiceClient {
  import opened Wrappers
  import opened Wire
  import opened DotNet
  import opened Net
  import opened Jitter
  import opened Effects
  import opened Packets
  import opened Entities
  import opened ClientAudio
  import Enums
  import Extensions
  import VoiceServer

  /** `VoiceCraftClient.Version`. */
  const ClientVersion: VoiceServer.Version := VoiceServer.Version(1, 1, 0)

  const AlreadyConnectingMessage: string := "This client is already connected or is connecting to a server!"
  const AwaitingRequestMessage: string := "A connection request is awaiting!"

  /** `_id` before the server assigns one, and after a disconnect. */
  const NoId: int := -1

  /** The client's version passes the server's version check. */
  lemma ClientVersionAccepted()
    ensures VoiceServer.Compatible(ClientVersion)
  {
  }

  /** The login data handed to `NetManager.Connect`. */
  datatype ConnectRequest = ConnectRequest(
    ip: string, port: int, userGuid: Guid, serverUserGuid: Guid, locale: string, version: VoiceServer.Version)

  /** The packets the client sends on its connection. */
  datatype OutPacket = AudioOut(id: Int32, timestamp: UInt32, frameLoudness: real, data: seq<Byte>)

  /** The events the client raises. */
  datatype ClientEvent =
    | ConnectedRaised
    | DisconnectedRaised(reason: string)
    | TitleRaised(title: string)
    | DescriptionRaised(description: string)
    | SpeakingRaised(speaking: bool)

  // ---------------------------------------------------------------------------
  // The speaking state

  /** Update's switch, `elapsed` ms after the last loud frame: the new
      speaking state and the OnSpeakingUpdated it raises. */
  function SpeakingStep(speaking: bool, elapsed: int, threshold: int): (r: (bool, seq<ClientEvent>))
    ensures r.0 <==> elapsed <= threshold
    ensures r.1 == if r.0 == speaking then [] else [SpeakingRaised(r.0)]
  {
    if !speaking && elapsed <= threshold then (true, [SpeakingRaised(true)])
    else if speaking && elapsed > threshold then (false, [SpeakingRaised(false)])
    else (speaking, [])
  }

  /** A run of Updates at the given elapsed times: the final state and every
      event raised, in order. */
  function SpeakingRun(speaking: bool, elapsed: seq<int>, threshold: int): (bool, seq<ClientEvent>)
  {
    if elapsed == [] then (speaking, [])
    else
      var before := SpeakingRun(speaking, elapsed[..|elapsed| - 1], threshold);
      var step := SpeakingStep(before.0, elapsed[|elapsed| - 1], threshold);
      (step.0, before.1 + step.1)
  }

  /** The raised values alternate, the first being the opposite of `start`. */
  predicate Alternating(start: bool, events: seq<ClientEvent>)
  {
    forall k | 0 <= k < |events| :: events[k] == SpeakingRaised(if k % 2 == 0 then !start else start)
  }

  /** Listeners see every change once: the raised values alternate, and the
      state is the start flipped once per event. */
  lemma {:induction false} SpeakingFlipsAlternate(speaking: bool, elapsed: seq<int>, threshold: int)
    ensures Alternating(speaking, SpeakingRun(speaking, elapsed, threshold).1)
    ensures SpeakingRun(speaking, elapsed, threshold).0
      == if |SpeakingRun(speaking, elapsed, threshold).1| % 2 == 0 then speaking else !speaking
    decreases |elapsed|
  {
    if elapsed != [] {
      var init := elapsed[..|elapsed| - 1];
      SpeakingFlipsAlternate(speaking, init, threshold);
      var before := SpeakingRun(speaking, init, threshold);
      var step := SpeakingStep(before.0, elapsed[|elapsed| - 1], threshold);
      var all := before.1 + step.1;
      forall k | 0 <= k < |all|
        ensures all[k] == SpeakingRaised(if k % 2 == 0 then !speaking else speaking)
      {
        if k < |before.1| {
          assert all[k] == before.1[k];
        }
      }
    }
  }

  // ---------------------------------------------------------------------------
  // The send timestamp

  const TimestampModulus: int := 0x1_0000_0000

  /** `_sendTimestamp += 1` on a uint, unchecked: it wraps to 0. */
  function NextTimestamp(t: UInt32): UInt32
  {
    (t + 1) % TimestampModulus
  }

  /** The timestamp after `n` writes. */
  function Advanced(t: UInt32, n: nat): UInt32
  {
    if n == 0 then t else NextTimestamp(Advanced(t, n - 1))
  }

  lemma ModSucc(x: nat)
    ensures (x % TimestampModulus + 1) % TimestampModulus == (x + 1) % TimestampModulus
  {
    var q := x / TimestampModulus;
    var r := x % TimestampModulus;
    assert x == q * TimestampModulus + r;
    if r + 1 == TimestampModulus {
      assert x + 1 == (q + 1) * TimestampModulus;
    } else {
      assert x + 1 == q * TimestampModulus + (r + 1);
    }
  }

  /** Every write counts, sent or not: `n` writes advance the timestamp by
      `n`, modulo 2^32. */
  lemma {:induction false} AdvancedWraps(t: UInt32, n: nat)
    ensures Advanced(t, n) == (t + n) % TimestampModulus
    decreases n
  {
    if n > 0 {
      AdvancedWraps(t, n - 1);
      ModSucc(t + n - 1);
    }
  }

  // ---------------------------------------------------------------------------
  // Disconnects and effects

  /** The reason OnDisconnected carries: the Logout packet's reason when the
      disconnect data holds one, the library's reason when there is no data
      or it cannot be read. */
  function DisconnectReason(data: Option<seq<Byte>>, libraryReason: string, maxLength: nat): string
  {
    match data
    case None => libraryReason
    case Some(bs) =>
      match DeserializeLogout(bs, maxLength)
      case None => libraryReason
      case Some((p, _)) => p.reason
  }

  /** A server that disconnects the client with a Logout packet gets its
      reason across, cut to the string bound. */
  lemma LogoutReasonArrives(p: LogoutPacket, maxLength: nat, rest: seq<Byte>, libraryReason: string)
    requires maxLength <= MaxWireString
    ensures DisconnectReason(Some(SerializeLogout(p, maxLength) + rest), libraryReason, maxLength)
      == Bounded(p.reason, maxLength)
    ensures |p.reason| <= maxLength ==>
      DisconnectReason(Some(SerializeLogout(p, maxLength) + rest), libraryReason, maxLength) == p.reason
  {
    LogoutRoundTrip(p, maxLength, rest);
  }

  /** The entry stored at `index`, None for a missing or null one. */
  function Stored(m: map<Byte, Option<Effect>>, index: Byte): Option<Effect>
  {
    if index in m then m[index] else None
  }

  /** What HandleSetEffectPacket does with one entry: the entry afterwards,
      whether it is written, the rest of the payload (None when reading it
      throws), and whether OnEffectSet is raised. */
  datatype EffectUpdate = EffectUpdate(entry: Option<Effect>, written: bool, rest: Option<seq<Byte>>, raised: bool)

  /** An effect of the packet's type is read in place, without OnEffectSet.
      Otherwise a proximity effect is built, read and set; any other type sets
      a null entry. EffectType declares no Visibility or Directional member,
      so the packet cannot name them. */
  function SetEffectUpdate(current: Option<Effect>, p: SetEffectPacket, payload: seq<Byte>): EffectUpdate
  {
    if current.Some? && DeclaredEffectType(current.value) == Some(p.effectType) then
      var d := DeserializeEffect(current.value, payload);
      EffectUpdate(Some(d.0), true, d.1, false)
    else
      match p.effectType
      case EffectProximity =>
        var d := DeserializeEffect(NewProximityEffect, payload);
        EffectUpdate(Some(d.0), d.1.Some?, d.1, d.1.Some?)
      case EffectUnknown => EffectUpdate(None, true, Some(payload), true)
  }

  /** A proximity effect the server sends arrives whole at the same index,
      whatever the client held there, and the reader stops right after it. */
  lemma SetEffectDelivered(e: Effect, index: Byte, current: Option<Effect>, into: SetEffectPacket, rest: seq<Byte>)
    requires e.ProximityEffect?
    ensures SerializeSetEffect(NewSetEffectPacket(index, Some(e))).Ok?
    ensures var h := DeserializeSetEffect(into, SerializeSetEffect(NewSetEffectPacket(index, Some(e))).value + rest);
      && h.Some? && h.value.0.index == index
      && var u := SetEffectUpdate(current, h.value.0, h.value.1);
      u.written && u.entry == Some(e) && u.rest == Some(rest)
  {
    var p := NewSetEffectPacket(index, Some(e));
    SetEffectRoundTrip(p, into, rest);
    if current.Some? && current.value.ProximityEffect? {
      EffectRoundTrip(current.value, e, rest);
    } else {
      EffectRoundTrip(NewProximityEffect, e, rest);
    }
  }

  /** A packet whose type byte EffectType does not define leaves a null
      entry, which TryGetEffect then does not find. */
  lemma UnknownTypeSetsNull(current: Option<Effect>, p: SetEffectPacket, payload: seq<Byte>)
    requires p.effectType == Enums.EffectUnknown
    ensures SetEffectUpdate(current, p, payload) == EffectUpdate(None, true, Some(payload), true)
  {
    if current.Some? {
      assert DeclaredEffectType(current.value) != Some(Enums.EffectUnknown);
    }
  }

  /** What the Name setter leaves: the new name and its event when it is
      unchanged or fits the bound, the old state and an exception otherwise. */
  ghost predicate NameSet(o: Outcome, before: string, beforeEvents: seq<EntityEvent>,
                          after: string, afterEvents: seq<EntityEvent>, value: string, maxLength: nat)
  {
    if before == value || |value| <= maxLength then
      o == Done && after == value && afterEvents == beforeEvents + Change(before, value, NameUpdated(value))
    else
      o == Threw(ArgumentOutOfRange) && after == before && afterEvents == beforeEvents
  }

  class VoiceCraftClient {
    const world: World
    /** The entity the client is. */
    const self: Entity
    const audio: AudioSystem
    /** `Constants.MaxStringLength` and `Constants.SilenceThresholdMs`. */
    const maxLength: nat
    const silenceThresholdMs: int

    var id: int
    var serverPeer: Peer?
    var disposed: bool
    var speaking: bool
    /** `_lastAudioPeakTime`, in ms. */
    var lastPeak: int
    var sendTimestamp: UInt32
    var microphoneSensitivity: real
    /** The connect attempts made, with their login data. */
    var requests: seq<ConnectRequest>
    /** What was sent on the server connection. */
    var sent: seq<OutPacket>
    ghost var events: seq<ClientEvent>

    /** The client entity belongs to the client's world without being one of
        its entities, and every client-side entity there has a jitter buffer. */
    ghost predicate Valid()
      reads this, world
    {
      self.world == world && audio.world == world && self !in world.entities.Values
      && forall e | e in world.entities.Values :: IsClientKind(e.kind) ==> e.jitter != null
    }

    constructor(maxLength: nat, silenceThresholdMs: int)
      ensures Valid() && fresh(world) && world.entities == map[]
      ensures this.maxLength == maxLength && this.silenceThresholdMs == silenceThresholdMs
      ensures id == NoId && serverPeer == null && !disposed && !speaking && lastPeak == MinTime
      ensures sendTimestamp == 0 && requests == [] && sent == [] && events == []
      ensures self.id == 0 && audio.effects == map[]
    {
      var w := new World();
      world := w;
      self := new Entity.Plain(0, w);
      audio := new AudioSystem(w);
      this.maxLength := maxLength;
      this.silenceThresholdMs := silenceThresholdMs;
      id := NoId;
      serverPeer := null;
      disposed := false;
      speaking := false;
      lastPeak := MinTime;
      sendTimestamp := 0;
      microphoneSensitivity := 0.0;
      requests := [];
      sent := [];
      events := [];
    }

    /** `ConnectionState`: the server peer's, Disconnected without one. */
    function State(): ConnectionState
      reads this, serverPeer
    {
      if serverPeer == null then Disconnected else serverPeer.state
    }

    /** Connect: refused when disposed, and unless disconnected; otherwise the
        speaking state is reset and the login data goes to the library, whose
        null answer throws and leaves the old peer in place. */
    method Connect(userGuid: Guid, serverUserGuid: Guid, ip: string, port: int, locale: string, attempt: Peer?)
      returns (o: Outcome)
      modifies this`speaking, this`requests, this`serverPeer
      ensures disposed ==>
        o == Threw(ObjectDisposed)
        && speaking == old(speaking) && requests == old(requests) && serverPeer == old(serverPeer)
      ensures !disposed && old(State()) != Disconnected ==>
        o == Threw(InvalidOperation(AlreadyConnectingMessage))
        && speaking == old(speaking) && requests == old(requests) && serverPeer == old(serverPeer)
      ensures !disposed && old(State()) == Disconnected ==>
        !speaking
        && requests == old(requests) + [ConnectRequest(ip, port, userGuid, serverUserGuid, locale, ClientVersion)]
        && (attempt == null ==> o == Threw(InvalidOperation(AwaitingRequestMessage)) && serverPeer == old(serverPeer))
        && (attempt != null ==> o == Done && serverPeer == attempt)
    {
      if disposed {
        return Threw(ObjectDisposed);
      }
      if State() != Disconnected {
        return Threw(InvalidOperation(AlreadyConnectingMessage));
      }
      speaking := false;
      requests := requests + [ConnectRequest(ip, port, userGuid, serverUserGuid, locale, ClientVersion)];
      if attempt == null {
        return Threw(InvalidOperation(AwaitingRequestMessage));
      }
      serverPeer := attempt;
      o := Done;
    }

    /** Update's speaking switch at time `now`. */
    method Update(now: int)
      modifies this`speaking, this`events
      ensures speaking == SpeakingStep(old(speaking), now - lastPeak, silenceThresholdMs).0
      ensures events == old(events) + SpeakingStep(old(speaking), now - lastPeak, silenceThresholdMs).1
    {
      if !speaking && now - lastPeak <= silenceThresholdMs {
        speaking := true;
        events := events + [SpeakingRaised(true)];
      } else if speaking && now - lastPeak > silenceThresholdMs {
        speaking := false;
        events := events + [SpeakingRaised(false)];
      }
    }

    /** Whether a frame written at `now` is sent: the microphone was loud
        recently, there is a connected server peer, and the client is not
        muted. */
    predicate MaySend(now: int)
      reads this, serverPeer, self
    {
      now - lastPeak <= silenceThresholdMs && serverPeer != null && State() == Connected && !self.muted
    }

    /** The peak of the frame, as GetFramePeak16 computes it. */
    function FramePeak(data: seq<Byte>, bytesRead: int): real
      requires 2 * Extensions.Rounds(bytesRead) <= |data|
    {
      Extensions.PeakAbs(data, Extensions.Rounds(bytesRead)) as real / 32768.0
    }

    /** Write: a loud enough frame records the time; the timestamp advances on
        every call; the frame is encoded (`encoded` stands for the encoder's
        output) and sent only when MaySend holds. Reading past the array throws
        before anything changes. */
    method Write(buffer: array<Byte>, bytesRead: int, now: int, encoded: seq<Byte>) returns (o: Outcome)
      modifies this`lastPeak, this`sendTimestamp, this`sent
      ensures 2 * Extensions.Rounds(bytesRead) > buffer.Length ==>
        o == Threw(IndexOutOfRange)
        && lastPeak == old(lastPeak) && sendTimestamp == old(sendTimestamp) && sent == old(sent)
      ensures 2 * Extensions.Rounds(bytesRead) <= buffer.Length ==>
        o == Done
        && lastPeak == (if FramePeak(buffer[..], bytesRead) >= microphoneSensitivity then now else old(lastPeak))
        && sendTimestamp == NextTimestamp(old(sendTimestamp))
        && sent == old(sent) + (if MaySend(now)
                                then [AudioOut(serverPeer.id, sendTimestamp, FramePeak(buffer[..], bytesRead), encoded)]
                                else [])
    {
      var peak := Extensions.GetFramePeak16(buffer, bytesRead);
      if peak.Err? {
        return Threw(peak.error);
      }
      var frameLoudness := peak.value;
      if frameLoudness >= microphoneSensitivity {
        lastPeak := now;
      }
      sendTimestamp := NextTimestamp(sendTimestamp);
      o := Done;
      if now - lastPeak > silenceThresholdMs || serverPeer == null || State() != Connected || self.muted {
        return;
      }
      var _ := SendPacket(AudioOut(serverPeer.id, sendTimestamp, frameLoudness, encoded));
    }

    /** SendPacket: nothing is sent unless connected. */
    method SendPacket(packet: OutPacket) returns (ok: bool)
      modifies this`sent
      ensures ok <==> State() == Connected
      ensures sent == old(sent) + (if ok then [packet] else [])
    {
      if State() != Connected {
        return false;
      }
      sent := sent + [packet];
      ok := true;
    }

    /** Read: the mix of `count / 2` samples into the byte buffer seen as
        16-bit samples; the result counts bytes. */
    method Read(buffer: array<Int16>, count: int, shape: (int, seq<Int16>) -> seq<Int16>, conceal: int -> seq<Int16>)
      returns (bytes: int, ghost order: seq<Entity>, ghost snaps: seq<ReadState>, ghost frames: seq<seq<Int16>>)
      requires 0 <= count && count / 2 <= buffer.Length && buffer != audio.entityBuffer && KeepsLength(shape)
      modifies audio`entityBuffer, audio.entityBuffer, buffer
      modifies Mixers(audio.world)`output, Mixers(audio.world)`isReading, Mixers(audio.world)`events
      ensures bytes == count / 2 * 2
      ensures IsOrdering(order, old(Mixers(audio.world)))
      ensures old(allocated(order)) && snaps == old(Snaps(order))
      ensures |frames| == |order|
      ensures forall k | 0 <= k < |order| ::
        frames[k] == Contribution(order[k].id, snaps[k], count / 2, shape) && |frames[k]| <= count / 2
      ensures buffer[..] == Silenced(MixFrames(old(buffer[..]), frames), Longest(frames), count / 2)
      ensures forall k | 0 <= k < |order| :: AfterRead(order[k], snaps[k], count / 2)
    {
      var read;
      read, order, snaps, frames := audio.Read(buffer, count / 2, shape, conceal);
      bytes := read * 2;
    }

    /** Disconnect: nothing when disposed or already disconnected; otherwise
        the library disconnects the server peer, without data. */
    method Disconnect()
      modifies serverPeer
      ensures serverPeer != null && (disposed || old(serverPeer.state) == Disconnected) ==> unchanged(serverPeer)
      ensures serverPeer != null && !disposed && old(serverPeer.state) != Disconnected ==>
        serverPeer.state == Disconnected && serverPeer.disconnectReason == Some("")
    {
      if disposed || State() == Disconnected {
        return;
      }
      serverPeer.Disconnect("");
    }

    /** Dispose: the first call clears the world (World.Dispose) and marks the
        client disposed; later calls do nothing. */
    method Dispose()
      requires Valid()
      modifies this`disposed, world, world.entities.Values, set e | e in world.entities.Values :: e.world
      ensures Valid() && disposed
      ensures old(disposed) ==> world.entities == old(world.entities)
      ensures !old(disposed) ==>
        world.entities == map[] && world.events == old(world.events)
        && forall e | e in old(world.entities).Values :: e.destroyed
    {
      if disposed {
        return;
      }
      world.ClearEntities();
      disposed := true;
    }

    // -------------------------------------------------------------------------
    // Connection events

    method OnConnectedEvent(peer: Peer)
      modifies this`events
      ensures events == old(events) + (if peer == serverPeer then [ConnectedRaised] else [])
    {
      if peer != serverPeer {
        return;
      }
      events := events + [ConnectedRaised];
    }

    /** A disconnect of the server peer clears the world, reports the reason
        and resets the id; any other peer's disconnect is ignored. */
    method OnDisconnectedEvent(peer: Peer, data: Option<seq<Byte>>, libraryReason: string)
      requires Valid()
      modifies this`id, this`events, world, world.entities.Values, set e | e in world.entities.Values :: e.world
      ensures Valid()
      ensures peer != serverPeer ==>
        id == old(id) && events == old(events) && world.entities == old(world.entities)
      ensures peer == serverPeer ==>
        id == NoId && world.entities == map[] && world.events == old(world.events)
        && (forall e | e in old(world.entities).Values :: e.destroyed)
        && events == old(events) + [DisconnectedRaised(DisconnectReason(data, libraryReason, maxLength))]
    {
      if peer != serverPeer {
        return;
      }
      world.ClearEntities();
      var reason := libraryReason;
      if data.Some? {
        var logout := DeserializeLogout(data.value, maxLength);
        if logout.Some? {
          reason := logout.value.0.reason;
        }
      }
      events := events + [DisconnectedRaised(reason)];
      id := NoId;
    }

    // -------------------------------------------------------------------------
    // Packet handlers

    /** The world's entity under `pid`, as a set. */
    function WorldTarget(pid: int): set<Entity>
      reads this, world
    {
      if pid in world.entities then {world.entities[pid]} else {}
    }

    /** The entity a routed packet updates: the client itself for its own id,
        else the world's entity under that id, if any. */
    function Routed(pid: int): set<Entity>
      reads this, world
    {
      if pid == id then {self} else WorldTarget(pid)
    }

    method HandleSetId(p: SetIdPacket)
      modifies this`id
      ensures id == p.id
    {
      id := p.id;
    }

    method HandleSetTitle(value: string)
      modifies this`events
      ensures events == old(events) + [TitleRaised(value)]
    {
      events := events + [TitleRaised(value)];
    }

    method HandleSetDescription(value: string)
      modifies this`events
      ensures events == old(events) + [DescriptionRaised(value)]
    {
      events := events + [DescriptionRaised(value)];
    }

    /** SetEffect: see SetEffectUpdate. */
    method HandleSetEffect(p: SetEffectPacket, payload: seq<Byte>) returns (rest: Option<seq<Byte>>)
      modifies audio`effects, audio`events
      ensures var u := SetEffectUpdate(Stored(old(audio.effects), p.index), p, payload);
        && rest == u.rest
        && audio.effects == (if u.written then old(audio.effects)[p.index := u.entry] else old(audio.effects))
        && audio.events == old(audio.events) + (if u.raised then [SlotSet(p.index, u.entry)] else [])
    {
      var found, current := audio.TryGetEffect(p.index);
      if found && DeclaredEffectType(current.value) == Some(p.effectType) {
        var d := DeserializeEffect(current.value, payload);
        audio.effects := audio.effects[p.index := Some(d.0)];
        return d.1;
      }
      match p.effectType {
        case EffectProximity =>
          var d := DeserializeEffect(NewProximityEffect, payload);
          if d.1.None? {
            return None;
          }
          audio.SetEffect(p.index, Some(d.0));
          rest := d.1;
        case EffectUnknown =>
          audio.SetEffect(p.index, None);
          rest := Some(payload);
      }
    }

    /** Audio: dropped while the client is deafened or when no entity has the
        id; otherwise the entity receives the frame. */
    method HandleAudio(pid: int, data: seq<Byte>, timestamp: UInt32, frameLoudness: Float32, now: int)
      modifies WorldTarget(pid)`loudness, WorldTarget(pid)`lastSpoke, WorldTarget(pid)`events
      modifies if pid in world.entities then {world.entities[pid].jitter} else {}
      ensures self.deafened || pid !in world.entities ==> unchanged(WorldTarget(pid))
      ensures !self.deafened && pid in world.entities ==>
        var e := world.entities[pid];
        e.loudness == frameLoudness && e.lastSpoke == now
        && e.events == old(e.events) + [AudioReceived(data, timestamp, frameLoudness)]
        && (e.jitter != null ==>
              e.jitter.data == AddSpec(old(e.jitter.data), old(e.jitter.cursor), JitterPacket(timestamp, now, data))
              && e.jitter.cursor == old(e.jitter.cursor))
    {
      if self.deafened {
        return;
      }
      var entity := world.GetEntity(pid);
      if entity.Some? {
        entity.value.ReceiveAudio(data, timestamp, frameLoudness, now);
      }
    }

    /** EntityCreated: a new client entity with the packet's name and flags,
        added to the world. A name the setter refuses throws before the add. */
    method HandleEntityCreated(p: EntityCreatedPacket) returns (o: Outcome)
      requires Valid()
      modifies world
      ensures Valid()
      ensures p.name != DefaultName && |p.name| > maxLength ==>
        o == Threw(ArgumentOutOfRange) && world.entities == old(world.entities) && world.events == old(world.events)
      ensures (p.name == DefaultName || |p.name| <= maxLength) && p.id in old(world.entities) ==>
        o == Threw(InvalidOperation(DuplicateIdMessage))
        && world.entities == old(world.entities) && world.events == old(world.events)
      ensures (p.name == DefaultName || |p.name| <= maxLength) && p.id !in old(world.entities) ==>
        o == Done && p.id in world.entities
        && var e := world.entities[p.id];
        fresh(e) && world.entities == old(world.entities)[p.id := e]
        && e.kind == ClientEntity && e.name == p.name && e.muted == p.muted && e.deafened == p.deafened
        && world.events == old(world.events) + [OnEntityCreated(e)]
    {
      var e := new Entity.Client(p.id, world, false);
      var r := e.SetName(p.name, maxLength);
      if r.Err? {
        return Threw(r.error);
      }
      var _ := e.SetMuted(p.muted);
      var _ := e.SetDeafened(p.deafened);
      o := world.AddEntity(e);
    }

    /** NetworkEntityCreated: the client's own id updates the client's name
        and flags and adds nothing; any other id adds a new client network
        entity carrying the packet's user guid. */
    method HandleNetworkEntityCreated(p: NetworkEntityCreatedPacket) returns (o: Outcome)
      requires Valid()
      modifies world, self`name, self`muted, self`deafened, self`events
      ensures Valid()
      ensures p.base.id == id ==>
        world.entities == old(world.entities) && world.events == old(world.events)
        && (p.base.name != DefaultName && p.base.name != old(self.name) && |p.base.name| > maxLength ==>
              o == Threw(ArgumentOutOfRange) && unchanged(self))
        && (p.base.name == old(self.name) || |p.base.name| <= maxLength ==>
              o == Done && self.name == p.base.name && self.muted == p.base.muted && self.deafened == p.base.deafened)
      ensures p.base.id != id ==> unchanged(self)
      ensures p.base.id != id && p.base.name != DefaultName && |p.base.name| > maxLength ==>
        o == Threw(ArgumentOutOfRange) && world.entities == old(world.entities) && world.events == old(world.events)
      ensures p.base.id != id && (p.base.name == DefaultName || |p.base.name| <= maxLength) && p.base.id in old(world.entities) ==>
        o == Threw(InvalidOperation(DuplicateIdMessage))
        && world.entities == old(world.entities) && world.events == old(world.events)
      ensures p.base.id != id && (p.base.name == DefaultName || |p.base.name| <= maxLength) && p.base.id !in old(world.entities) ==>
        o == Done && p.base.id in world.entities
        && var e := world.entities[p.base.id];
        fresh(e) && world.entities == old(world.entities)[p.base.id := e]
        && e.kind == ClientNetworkEntity && e.userGuid == p.userGuid
        && e.name == p.base.name && e.muted == p.base.muted && e.deafened == p.base.deafened
        && world.events == old(world.events) + [OnEntityCreated(e)]
    {
      if p.base.id == id {
        var r := self.SetName(p.base.name, maxLength);
        if r.Err? {
          return Threw(r.error);
        }
        var _ := self.SetMuted(p.base.muted);
        var _ := self.SetDeafened(p.base.deafened);
        return Done;
      }
      var e := new Entity.Client(p.base.id, world, true);
      e.userGuid := p.userGuid;
      var r := e.SetName(p.base.name, maxLength);
      if r.Err? {
        return Threw(r.error);
      }
      var _ := e.SetMuted(p.base.muted);
      var _ := e.SetDeafened(p.base.deafened);
      o := world.AddEntity(e);
    }

    method HandleEntityDestroyed(pid: int) returns (o: Outcome)
      requires Valid()
      modifies world, WorldTarget(pid), set e | e in WorldTarget(pid) :: e.world
      ensures Valid()
      ensures pid !in old(world.entities) ==>
        o == Threw(InvalidOperation(NotFoundMessage))
        && world.entities == old(world.entities) && world.events == old(world.events)
      ensures pid in old(world.entities) ==>
        o == Done && old(world.entities[pid]).destroyed
        && world.entities == old(world.entities) - {pid}
        && world.events == old(world.events) + [OnEntityDestroyed(old(world.entities[pid]))]
    {
      o := world.DestroyEntity(pid);
    }

    /** The client entity under `pid`, as a set: empty for an unknown id or an
        entity of another class. */
    function ClientTarget(pid: int): set<Entity>
      reads this, world
    {
      set e | e in WorldTarget(pid) && IsClientKind(e.kind)
    }

    /** SetVisibility: only a client entity is updated; hiding it clears its
        output and its jitter buffer. */
    method HandleSetVisibility(pid: int, value: bool)
      requires Valid()
      modifies ClientTarget(pid)`isVisible, ClientTarget(pid)`events, ClientTarget(pid)`output
      modifies set e | e in ClientTarget(pid) :: e.jitter
      ensures unchanged(WorldTarget(pid) - ClientTarget(pid))
      ensures pid in world.entities && IsClientKind(world.entities[pid].kind) ==>
        var e := world.entities[pid];
        e.isVisible == value
        && e.events == old(e.events) + Change(old(e.isVisible), value, IsVisibleUpdated(value))
        && (value ==> e.output == old(e.output) && unchanged(e.jitter))
        && (!value ==> e.output == [] && e.jitter.data == [] && e.jitter.cursor == None)
    {
      var entity := world.GetEntity(pid);
      if entity.None? || !IsClientKind(entity.value.kind) {
        return;
      }
      var e := entity.value;
      var _ := e.SetIsVisible(value);
      if value {
        return;
      }
      e.ClearBuffer();
    }

    /** SetName: routed to the client itself for its own id. */
    method HandleSetName(pid: int, value: string) returns (o: Outcome)
      requires Valid()
      modifies Routed(pid)`name, Routed(pid)`events
      ensures pid != id ==> unchanged(self)
      ensures pid == id ==> unchanged(world.entities.Values)
      ensures pid == id ==> NameSet(o, old(self.name), old(self.events), self.name, self.events, value, maxLength)
      ensures pid != id && pid in world.entities ==>
        var e := world.entities[pid];
        NameSet(o, old(e.name), old(e.events), e.name, e.events, value, maxLength)
      ensures pid != id && pid !in world.entities ==> o == Done
    {
      var target: Entity;
      if pid == id {
        target := self;
      } else {
        var entity := world.GetEntity(pid);
        if entity.None? {
          return Done;
        }
        target := entity.value;
      }
      var r := target.SetName(value, maxLength);
      o := if r.Err? then Threw(r.error) else Done;
    }

    /** SetMute: the world's entity only, with no own-id check. */
    method HandleSetMute(pid: int, value: bool)
      requires Valid()
      modifies WorldTarget(pid)`muted, WorldTarget(pid)`events
      ensures unchanged(self)
      ensures pid in world.entities ==>
        var e := world.entities[pid];
        e.muted == value && e.events == old(e.events) + Change(old(e.muted), value, MuteUpdated(value))
    {
      var entity := world.GetEntity(pid);
      if entity.None? {
        return;
      }
      var _ := entity.value.SetMuted(value);
    }

    /** SetDeafen: the world's entity only, with no own-id check. */
    method HandleSetDeafen(pid: int, value: bool)
      requires Valid()
      modifies WorldTarget(pid)`deafened, WorldTarget(pid)`events
      ensures unchanged(self)
      ensures pid in world.entities ==>
        var e := world.entities[pid];
        e.deafened == value && e.events == old(e.events) + Change(old(e.deafened), value, DeafenUpdated(value))
    {
      var entity := world.GetEntity(pid);
      if entity.None? {
        return;
      }
      var _ := entity.value.SetDeafened(value);
    }

    /** The entity a routed packet updates, when there is one. */
    function RoutedEntity(pid: int): Entity
      requires pid == id || pid in world.entities
      reads this, world
    {
      if pid == id then self else world.entities[pid]
    }

    method HandleSetTalkBitmask(p: SetTalkBitmaskPacket)
      requires Valid()
      modifies Routed(p.id)`talkBitmask, Routed(p.id)`events
      ensures p.id != id ==> unchanged(self)
      ensures p.id == id ==> unchanged(world.entities.Values)
      ensures p.id == id || p.id in world.entities ==>
        var e := RoutedEntity(p.id);
        e.talkBitmask == p.value
        && e.events == old(e.events) + Change(old(e.talkBitmask), p.value, ListenBitmaskUpdated(p.value))
    {
      var target: Entity;
      if p.id == id {
        target := self;
      } else {
        var entity := world.GetEntity(p.id);
        if entity.None? {
          return;
        }
        target := entity.value;
      }
      var _ := target.SetTalkBitmask(p.value);
    }

    /** The 32-bit value widens to the 64-bit mask. */
    method HandleSetListenBitmask(p: SetListenBitmaskPacket)
      requires Valid()
      modifies Routed(p.id)`listenBitmask, Routed(p.id)`events
      ensures p.id != id ==> unchanged(self)
      ensures p.id == id ==> unchanged(world.entities.Values)
      ensures p.id == id || p.id in world.entities ==>
        var e := RoutedEntity(p.id);
        e.listenBitmask == p.value as UInt64
        && e.events == old(e.events) + Change(old(e.listenBitmask), p.value as UInt64, TalkBitmaskUpdated(p.value as UInt64))
    {
      var target: Entity;
      if p.id == id {
        target := self;
      } else {
        var entity := world.GetEntity(p.id);
        if entity.None? {
          return;
        }
        target := entity.value;
      }
      var _ := target.SetListenBitmask(p.value as UInt64);
    }

    method HandleSetPosition(pid: int, value: Vector3)
      requires Valid()
      modifies Routed(pid)`position, Routed(pid)`events
      ensures pid != id ==> unchanged(self)
      ensures pid == id ==> unchanged(world.entities.Values)
      ensures pid == id || pid in world.entities ==>
        var e := RoutedEntity(pid);
        e.position == value && e.events == old(e.events) + Change(old(e.position), value, PositionUpdated(value))
    {
      var target: Entity;
      if pid == id {
        target := self;
      } else {
        var entity := world.GetEntity(pid);
        if entity.None? {
          return;
        }
        target := entity.value;
      }
      var _ := target.SetPosition(value);
    }

    method HandleSetRotation(p: SetRotationPacket)
      requires Valid()
      modifies Routed(p.id)`rotation, Routed(p.id)`events
      ensures p.id != id ==> unchanged(self)
      ensures p.id == id ==> unchanged(world.entities.Values)
      ensures p.id == id || p.id in world.entities ==>
        var e := RoutedEntity(p.id);
        e.rotation == p.value && e.events == old(e.events) + Change(old(e.rotation), p.value, RotationUpdated(p.value))
    {
      var target: Entity;
      if p.id == id {
        target := self;
      } else {
        var entity := world.GetEntity(p.id);
        if entity.None? {
          return;
        }
        target := entity.value;
      }
      var _ := target.SetRotation(p.value);
    }
  }
}
