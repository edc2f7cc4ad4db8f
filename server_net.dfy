/** The send half of VoiceCraftServer: SendPacket to one peer, SendPacket to
    an array of peers, and Broadcast to every network entity of the world. A
    send is recorded as a (peer, packet) pair appended to `sent`; the bytes a
    packet turns into are the codecs of the packet modules. */
module ServerNet {
  import opened Wrappers
  import opened Wire
  import opened Net
  import opened Packets
  import opened Entities
  import opened DotNet
  import opened Effects

  /** The packets the server sends. The packet classes that have a codec in
      this model are carried as those values. */
  datatype OutPacket =
    | EntityCreatedOut(created: EntityCreatedPacket)
    | EntityDestroyedOut(id: Int32)
    /** `new SetEffectPacket(index, effect)`, or `new SetEffectPacket(index)`
        for a removal; the type byte it writes is NewSetEffectPacket's. */
    | SetEffectOut(index: Byte, effect: Option<Effect>)
    | SetNameOut(id: Int32, name: string)
    | SetMuteOut(id: Int32, muted: bool)
    | SetDeafenOut(id: Int32, deafened: bool)
    | SetTalkBitmaskOut(talk: SetTalkBitmaskPacket)
    /** The server's handler builds this packet from the 64-bit listen
        bitmask, although the shown packet class has a 32-bit field. */
    | SetListenBitmaskOut(id: Int32, value: UInt64)
    | SetPositionOut(id: Int32, position: Vector3)
    | SetRotationOut(rotation: SetRotationPacket)
    | SetVisibilityOut(id: Int32, visible: bool)
    | AudioOut(id: Int32, timestamp: UInt32, frameLoudness: Float32, length: nat, data: seq<Byte>)

  datatype Sent = Sent(to: Peer, packet: OutPacket)

  /** Whether `packet.Serialize(writer)` returns. A SetEffectPacket built
      without an effect (the removal form) passes null to `writer.Put(Effect)`,
      which throws a NullReferenceException; every other packet writes its
      fields. */
  predicate Serializes(packet: OutPacket)
  {
    !(packet.SetEffectOut? && packet.effect.None?)
  }

  /** The SetEffect case agrees with the packet's own codec: it serializes
      exactly when SerializeSetEffect succeeds. */
  lemma SerializesAsCodec(index: Byte, effect: Option<Effect>)
    requires HasDeclaredType(effect)
    ensures Serializes(SetEffectOut(index, effect)) <==> SerializeSetEffect(NewSetEffectPacket(index, effect)).Ok?
  {
  }

  /** The network entities, as `OfType<VoiceCraftNetworkEntity>()` sees them:
      instances of the server's own network class, the class the server
      creates for a peer. */
  predicate IsNetwork(e: Entity)
  {
    e.kind.ServerNetworkEntity? && e.peer != null
  }

  /** What Broadcast sends for one entry: the packet, to the entity's peer, if
      the entity is a network entity whose peer is not excluded. The peer's
      connection state is not looked at. A packet that does not serialize
      throws before any entry is reached, so it is sent to none. */
  function BroadcastOne(x: (int, Entity), excludes: set<Peer>, packet: OutPacket): seq<Sent>
  {
    if Serializes(packet) && IsNetwork(x.1) && x.1.peer !in excludes then [Sent(x.1.peer, packet)] else []
  }

  /** The sends of a Broadcast that enumerates the entities in `order`. */
  function BroadcastSends(order: seq<(int, Entity)>, excludes: set<Peer>, packet: OutPacket): seq<Sent>
  {
    if order == [] then []
    else BroadcastSends(order[..|order| - 1], excludes, packet) + BroadcastOne(order[|order| - 1], excludes, packet)
  }

  /** SendPacket to one peer: nothing unless the peer is connected, and
      nothing when the packet then fails to serialize. */
  function SendTo(p: Peer, packet: OutPacket): seq<Sent>
    reads p
  {
    if p.state == Connected && Serializes(packet) then [Sent(p, packet)] else []
  }

  /** Whether SendPacket to `p` throws: the peer is connected, so the packet
      is serialized, and it does not serialize. */
  predicate SendThrows(p: Peer, packet: OutPacket)
    reads p
  {
    p.state == Connected && !Serializes(packet)
  }

  /** What a send loop over an entity's visible entries sends for one entry:
      the packet, through SendPacket, to each visible network entity other than
      `except`. */
  function VisibleOne(x: (int, Entity), except: Entity?, packet: OutPacket): seq<Sent>
    reads x.1.peer
  {
    if IsNetwork(x.1) && x.1 != except then SendTo(x.1.peer, packet) else []
  }

  /** The peers of the entries in `order`, for reads clauses. */
  function PeersOf(order: seq<(int, Entity)>): set<Peer?>
  {
    set x | x in order :: x.1.peer
  }

  /** Whether a visible-set send loop throws: some entry it sends to is
      connected and the packet does not serialize. The loop stops there, and
      nothing was sent before, since every earlier SendPacket skipped a
      disconnected peer. */
  predicate VisibleThrows(order: seq<(int, Entity)>, except: Entity?, packet: OutPacket)
    reads PeersOf(order)
  {
    exists x | x in order :: IsNetwork(x.1) && x.1 != except && SendThrows(x.1.peer, packet)
  }

  function VisibleSends(order: seq<(int, Entity)>, except: Entity?, packet: OutPacket): seq<Sent>
    reads PeersOf(order)
  {
    if order == [] then []
    else VisibleSends(order[..|order| - 1], except, packet) + VisibleOne(order[|order| - 1], except, packet)
  }

  /** The sends of the array SendPacket, in the array's order. */
  function ConnectedSends(peers: seq<Peer>, packet: OutPacket): seq<Sent>
    reads set p | p in peers
  {
    if peers == [] then []
    else ConnectedSends(peers[..|peers| - 1], packet) + SendTo(peers[|peers| - 1], packet)
  }

  // ---------------------------------------------------------------------------
  // What the fan-out functions reach

  /** A Broadcast reaches a peer exactly when some enumerated network entity
      has that peer and the peer is not excluded; it sends nothing else. */
  lemma {:induction false} BroadcastReaches(order: seq<(int, Entity)>, excludes: set<Peer>, packet: OutPacket, s: Sent)
    ensures s in BroadcastSends(order, excludes, packet) <==>
      Serializes(packet) && s.packet == packet && s.to !in excludes
      && exists x | x in order :: IsNetwork(x.1) && x.1.peer == s.to
  {
    if order != [] {
      var init := order[..|order| - 1];
      BroadcastReaches(init, excludes, packet, s);
      assert forall x :: x in order <==> x in init || x == order[|order| - 1];
    }
  }

  /** A packet that serializes reaches every recipient entry once: one send
      per network entity whose peer is not excluded. One that does not
      serialize is sent to none. */
  lemma {:induction false} BroadcastCount(order: seq<(int, Entity)>, excludes: set<Peer>, packet: OutPacket)
    ensures |BroadcastSends(order, excludes, packet)| ==
      if Serializes(packet) then |BroadcastRecipients(order, excludes)| else 0
  {
    if order != [] {
      BroadcastCount(order[..|order| - 1], excludes, packet);
    }
  }

  /** The enumerated entries a Broadcast sends to, in order. */
  function BroadcastRecipients(order: seq<(int, Entity)>, excludes: set<Peer>): seq<(int, Entity)>
  {
    if order == [] then []
    else
      var last := order[|order| - 1];
      BroadcastRecipients(order[..|order| - 1], excludes) + (if IsNetwork(last.1) && last.1.peer !in excludes then [last] else [])
  }

  /** A visible-set send loop reaches a peer exactly when some enumerated
      visible network entity other than `except` has that peer, connected. */
  lemma {:induction false} VisibleReaches(order: seq<(int, Entity)>, except: Entity?, packet: OutPacket, s: Sent)
    ensures s in VisibleSends(order, except, packet) <==>
      Serializes(packet) && s.packet == packet && s.to.state == Connected
      && exists x | x in order :: IsNetwork(x.1) && x.1 != except && x.1.peer == s.to
  {
    if order != [] {
      var init := order[..|order| - 1];
      VisibleReaches(init, except, packet, s);
      assert forall x :: x in order <==> x in init || x == order[|order| - 1];
    }
  }

  /** The array SendPacket reaches exactly the connected peers of the array. */
  lemma {:induction false} ConnectedReaches(peers: seq<Peer>, packet: OutPacket, s: Sent)
    ensures s in ConnectedSends(peers, packet) <==>
      Serializes(packet) && s.packet == packet && s.to in peers && s.to.state == Connected
  {
    if peers != [] {
      var init := peers[..|peers| - 1];
      ConnectedReaches(init, packet, s);
      assert forall p :: p in peers <==> p in init || p == peers[|peers| - 1];
    }
  }

  /** A packet that does not serialize is sent to no peer of an array. */
  lemma {:induction false} NoConnectedSends(peers: seq<Peer>, packet: OutPacket)
    requires !Serializes(packet)
    ensures ConnectedSends(peers, packet) == []
  {
    if peers != [] {
      NoConnectedSends(peers[..|peers| - 1], packet);
    }
  }

  /** A packet that does not serialize is sent to no visible entity. */
  lemma {:induction false} NoVisibleSends(order: seq<(int, Entity)>, except: Entity?, packet: OutPacket)
    requires !Serializes(packet)
    ensures VisibleSends(order, except, packet) == []
  {
    if order != [] {
      NoVisibleSends(order[..|order| - 1], except, packet);
    }
  }

  class Transport {
    /** The world whose network entities Broadcast enumerates. */
    const world: World
    var sent: seq<Sent>

    constructor(world: World)
      ensures this.world == world && sent == []
    {
      this.world := world;
      sent := [];
    }

    /** SendPacket(peer, packet): false, sending nothing, unless the peer is
        connected; then the packet is serialized (which throws for one that
        does not serialize) and sent, and the answer is true. */
    method SendPacket(peer: Peer, packet: OutPacket) returns (r: Result<bool>)
      modifies this`sent
      ensures r.Err? <==> SendThrows(peer, packet)
      ensures r.Err? ==> r.error == NullReference
      ensures r.Ok? ==> (r.value <==> peer.state == Connected)
      ensures sent == old(sent) + SendTo(peer, packet)
    {
      if peer.state != Connected {
        return Ok(false);
      }
      if !Serializes(packet) {
        return Err(NullReference);
      }
      sent := sent + [Sent(peer, packet)];
      r := Ok(true);
    }

    /** SendPacket(peers, packet): the packet is serialized first (throwing,
        with nothing sent, for one that does not serialize), then sent to
        every connected peer in array order; the status is true exactly when
        every peer was connected. */
    method SendPacketAll(peers: seq<Peer>, packet: OutPacket) returns (r: Result<bool>)
      modifies this`sent
      ensures r.Err? <==> !Serializes(packet)
      ensures r.Err? ==> r.error == NullReference
      ensures r.Ok? ==> (r.value <==> forall i | 0 <= i < |peers| :: peers[i].state == Connected)
      ensures sent == old(sent) + ConnectedSends(peers, packet)
    {
      if !Serializes(packet) {
        NoConnectedSends(peers, packet);
        return Err(NullReference);
      }
      var status := SendConnected(peers, packet);
      r := Ok(status);
    }

    /** The loop of SendPacketAll, once the packet is serialized. */
    method SendConnected(peers: seq<Peer>, packet: OutPacket) returns (status: bool)
      requires Serializes(packet)
      modifies this`sent
      ensures status <==> forall i | 0 <= i < |peers| :: peers[i].state == Connected
      ensures sent == old(sent) + ConnectedSends(peers, packet)
    {
      status := true;
      ghost var base := sent;
      var i := 0;
      while i < |peers|
        invariant 0 <= i <= |peers|
        invariant status <==> forall j | 0 <= j < i :: peers[j].state == Connected
        invariant sent == base + ConnectedSends(peers[..i], packet)
      {
        assert peers[..i + 1] == peers[..i] + [peers[i]];
        label before:
        var connected := SendToPeer(base, peers[..i], peers[i], packet);
        assert forall j | 0 <= j <= i :: peers[j].state == old@before(peers[j].state);
        status := status && connected;
        i := i + 1;
      }
      assert peers[..|peers|] == peers;
    }

    /** One step of SendPacketAll: the send to `p`, after those to `done`. */
    method SendToPeer(ghost base: seq<Sent>, ghost done: seq<Peer>, p: Peer, packet: OutPacket) returns (connected: bool)
      requires Serializes(packet)
      modifies this`sent
      requires sent == base + ConnectedSends(done, packet)
      ensures connected <==> p.state == Connected
      ensures sent == base + ConnectedSends(done + [p], packet)
    {
      assert (done + [p])[..|done|] == done;
      assert (this as object) !in (set q | q in done + [p]);
      Regroup(base, ConnectedSends(done, packet), SendTo(p, packet));
      connected := p.state == Connected;
      if connected {
        sent := sent + [Sent(p, packet)];
      }
    }

    /** Broadcast(packet, excludes): the query over the world's network
        entities is set up, the packet is serialized (throwing, with nothing
        sent, for one that does not serialize), and every network entity whose
        peer is not excluded is sent the packet, connected or not, in the
        world's (unspecified) enumeration order. */
    method Broadcast(packet: OutPacket, excludes: set<Peer>) returns (order: seq<(int, Entity)>, o: Outcome)
      modifies this`sent
      ensures IsOrdering(order, Entries(world.entities))
      ensures o == if Serializes(packet) then Done else Threw(NullReference)
      ensures sent == old(sent) + BroadcastSends(order, excludes, packet)
    {
      order := Enumerate(Entries(world.entities));
      if !Serializes(packet) {
        BroadcastCount(order, excludes, packet);
        return order, Threw(NullReference);
      }
      for i := 0 to |order|
        invariant sent == old(sent) + BroadcastSends(order[..i], excludes, packet)
      {
        var x := order[i];
        assert order[..i + 1][..i] == order[..i];
        Regroup(old(sent), BroadcastSends(order[..i], excludes, packet), BroadcastOne(x, excludes, packet));
        if IsNetwork(x.1) && x.1.peer !in excludes {
          sent := sent + [Sent(x.1.peer, packet)];
        }
      }
      assert order[..|order|] == order;
      o := Done;
    }

    /** The send loop over an entity's visible network entities (all but
        `except`), each through SendPacket; the first SendPacket that throws
        ends the loop. */
    method SendToVisible(e: Entity, except: Entity?, packet: OutPacket) returns (order: seq<(int, Entity)>, o: Outcome)
      modifies this`sent
      ensures IsOrdering(order, Entries(e.visible))
      ensures o == if VisibleThrows(order, except, packet) then Threw(NullReference) else Done
      ensures sent == old(sent) + VisibleSends(order, except, packet)
    {
      order := Enumerate(Entries(e.visible));
      ghost var base := sent;
      for i := 0 to |order|
        invariant sent == base + VisibleSends(order[..i], except, packet)
        invariant !VisibleThrows(order[..i], except, packet)
      {
        assert order[..i + 1] == order[..i] + [order[i]];
        var threw := SendToEntry(base, order[..i], order[i], except, packet);
        if threw {
          assert order[i] in order;
          NoVisibleSends(order, except, packet);
          NoVisibleSends(order[..i + 1], except, packet);
          return order, Threw(NullReference);
        }
        assert !VisibleThrows(order[..i + 1], except, packet) by {
          forall x | x in order[..i + 1]
            ensures !(IsNetwork(x.1) && x.1 != except && SendThrows(x.1.peer, packet))
          {
            if x != order[i] {
              assert x in order[..i];
            }
          }
        }
      }
      assert order[..|order|] == order;
      o := Done;
    }

    /** One step of SendToVisible: the send for `x`, after those for `done`;
        true when its SendPacket throws. */
    method SendToEntry(ghost base: seq<Sent>, ghost done: seq<(int, Entity)>, x: (int, Entity), except: Entity?, packet: OutPacket)
      returns (threw: bool)
      modifies this`sent
      requires sent == base + VisibleSends(done, except, packet)
      ensures threw <==> IsNetwork(x.1) && x.1 != except && SendThrows(x.1.peer, packet)
      ensures sent == base + VisibleSends(done + [x], except, packet)
    {
      assert (done + [x])[..|done|] == done;
      assert (this as object) !in PeersOf(done + [x]);
      Regroup(base, VisibleSends(done, except, packet), VisibleOne(x, except, packet));
      threw := false;
      if IsNetwork(x.1) && x.1 != except {
        var r := SendPacket(x.1.peer, packet);
        threw := r.Err?;
      }
    }
  }
}
