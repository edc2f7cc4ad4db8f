/** The server's EventHandlerSystem (EventHandlerSystem.cs): it turns world,
    entity and effect events into packets. Entity creation and destruction
    send at once; every other event queues a task, and Update runs the queued
    tasks and empties the queue, unless a task throws: then the queue is kept
    and runs again on the next Update. A task reads the state it needs (a visible
    set, an entity's bitmasks and pose) when it runs, not when it is queued. */
module EventHandlers {
  import opened Wrappers
  import opened Wire
  import opened Net
  import opened Packets
  import opened Effects
  import opened Entities
  import opened DotNet
  import opened AudioEffects
  import opened ServerNet

  /** A queued closure, by what it does when it runs. */
  datatype Task =
    /** `_server.Broadcast(packet, excludes)`. */
    | BroadcastTask(packet: OutPacket, excludes: set<Peer>)
    /** A SendPacket to each network entity in `origin`'s visible set other
        than `except`. */
    | VisibleTask(origin: Entity, except: Entity?, packet: OutPacket)
    /** The five packets that describe `origin` to a peer that just came
        into its visible set. */
    | BootstrapTask(origin: Entity, to: Peer)
    /** One SendPacket. */
    | PeerTask(to: Peer, packet: OutPacket)

  /** The peers a Broadcast about `e` leaves out: its own, for a network entity. */
  function OwnPeer(e: Entity): set<Peer>
  {
    if IsNetwork(e) then {e.peer} else {}
  }

  /** The packets that tell a peer about `e`, in the order they are sent:
      visibility, talk and listen bitmasks, position and rotation. */
  function BootstrapPackets(e: Entity): (r: seq<OutPacket>)
    reads e
    ensures forall i | 0 <= i < |r| :: Serializes(r[i])
  {
    [ SetVisibilityOut(e.id, true)
    , SetTalkBitmaskOut(SetTalkBitmaskPacket(e.id, e.talkBitmask))
    , SetListenBitmaskOut(e.id, e.listenBitmask)
    , SetPositionOut(e.id, e.position)
    , SetRotationOut(SetRotationPacket(e.id, e.rotation)) ]
  }

  /** What the handler of an entity event queues. The events raised by the
      talk-bitmask setter reach the listen handler and the other way round
      (see Entity.SetTalkBitmask). Events without a handler queue nothing. */
  function Queued(e: Entity, ev: EntityEvent): seq<Task>
  {
    match ev
    case NameUpdated(name) => [BroadcastTask(SetNameOut(e.id, name), {})]
    case MuteUpdated(muted) => [BroadcastTask(SetMuteOut(e.id, muted), OwnPeer(e))]
    case DeafenUpdated(deafened) => [BroadcastTask(SetDeafenOut(e.id, deafened), OwnPeer(e))]
    case TalkBitmaskUpdated(b) => [VisibleTask(e, null, SetTalkBitmaskOut(SetTalkBitmaskPacket(e.id, b)))]
    case ListenBitmaskUpdated(b) => [VisibleTask(e, null, SetListenBitmaskOut(e.id, b))]
    case PositionUpdated(p) => [VisibleTask(e, null, SetPositionOut(e.id, p))]
    case RotationUpdated(r) => [VisibleTask(e, null, SetRotationOut(SetRotationPacket(e.id, r)))]
    case VisibleEntityAdded(added) => if IsNetwork(added) then [BootstrapTask(e, added.peer)] else []
    case VisibleEntityRemoved(removed) =>
      if IsNetwork(removed) then [PeerTask(removed.peer, SetVisibilityOut(e.id, false))] else []
    case AudioReceived(data, timestamp, frameLoudness) =>
      [VisibleTask(e, e, AudioOut(e.id, timestamp, frameLoudness, |data|, data))]
    case _ => []
  }

  /** What the handler of an effect-table event queues: a broadcast of the
      new effect, or of the bare index for a removal (a packet that does not
      serialize, see EffectRemovalThrows). */
  function QueuedForEffect(ev: EffectEvent): seq<Task>
  {
    match ev
    case EffectSetRaised(index, effect) => [BroadcastTask(SetEffectOut(index, Some(effect)), {})]
    case EffectRemovedRaised(index, _) => [BroadcastTask(SetEffectOut(index, None), {})]
    case EffectDisposed(_, _) => []
  }

  // ---------------------------------------------------------------------------
  // What a task sends when it runs

  /** The entities and the peers a task reads when it runs, besides the
      enumerated entities. */
  function TaskEntities(t: Task): set<Entity>
  {
    match t
    case VisibleTask(origin, _, _) => {origin}
    case BootstrapTask(origin, _) => {origin}
    case _ => {}
  }

  function TaskPeers(t: Task): set<Peer>
  {
    match t
    case BootstrapTask(_, to) => {to}
    case PeerTask(to, _) => {to}
    case _ => {}
  }

  /** SendPacket of each packet in turn to one peer. */
  function PeerSends(p: Peer, packets: seq<OutPacket>): seq<Sent>
    reads p
  {
    if packets == [] then []
    else PeerSends(p, packets[..|packets| - 1]) + SendTo(p, packets[|packets| - 1])
  }

  /** The sends of a task that enumerates `order` (the world's entries for a
      broadcast, the origin's visible entries for a visible-set loop). */
  function Sends(t: Task, order: seq<(int, Entity)>): seq<Sent>
    reads TaskEntities(t), TaskPeers(t), PeersOf(order)
  {
    match t
    case BroadcastTask(packet, excludes) => BroadcastSends(order, excludes, packet)
    case VisibleTask(_, except, packet) => VisibleSends(order, except, packet)
    case BootstrapTask(origin, to) => PeerSends(to, BootstrapPackets(origin))
    case PeerTask(to, packet) => SendTo(to, packet)
  }

  /** What a task enumerates when it runs: the world's entries for a
      broadcast, the origin's visible entries for a visible-set loop. */
  function Enumerated(world: World, t: Task): set<(int, Entity)>
    reads world, TaskEntities(t)
  {
    match t
    case BroadcastTask(_, _) => Entries(world.entities)
    case VisibleTask(origin, _, _) => Entries(origin.visible)
    case _ => {}
  }

  function TasksEntities(tasks: seq<Task>): set<Entity>
  {
    set t, e | t in tasks && e in TaskEntities(t) :: e
  }

  function TasksPeers(tasks: seq<Task>): set<Peer>
  {
    set t, p | t in tasks && p in TaskPeers(t) :: p
  }

  function OrdersPeers(orders: seq<seq<(int, Entity)>>): set<Peer>
  {
    set order, x | order in orders && x in order && x.1.peer != null :: x.1.peer
  }

  /** Everything a run of `tasks` reads, besides the world. */
  function QueueReads(tasks: seq<Task>, orders: seq<seq<(int, Entity)>>): set<object>
  {
    TasksEntities(tasks) + TasksPeers(tasks) + OrdersPeers(orders)
  }

  /** Each task of the queue enumerated what it finds when it runs. */
  predicate AllEnumerated(world: World, tasks: seq<Task>, orders: seq<seq<(int, Entity)>>)
    requires |tasks| == |orders|
    reads world, TasksEntities(tasks)
  {
    if tasks == [] then true
    else
      AllEnumerated(world, tasks[..|tasks| - 1], orders[..|orders| - 1])
      && IsOrdering(orders[|orders| - 1], Enumerated(world, tasks[|tasks| - 1]))
  }

  /** Extending a run by the next task of the queue and its enumeration. */
  lemma Snoc(world: World, queue: seq<Task>, i: nat, orders: seq<seq<(int, Entity)>>, order: seq<(int, Entity)>)
    requires i < |queue| && |orders| == i
    ensures AllEnumerated(world, queue[..i + 1], orders + [order]) ==
      (AllEnumerated(world, queue[..i], orders) && IsOrdering(order, Enumerated(world, queue[i])))
    ensures AllSends(queue[..i + 1], orders + [order]) == AllSends(queue[..i], orders) + Sends(queue[i], order)
    ensures NoneThrow(queue[..i + 1], orders + [order]) == (NoneThrow(queue[..i], orders) && !Throws(queue[i], order))
  {
    assert queue[..i + 1][..i] == queue[..i];
    assert (orders + [order])[..i] == orders;
  }

  /** The sends of a queue of tasks run one after the other. */
  function AllSends(tasks: seq<Task>, orders: seq<seq<(int, Entity)>>): seq<Sent>
    requires |tasks| == |orders|
    reads QueueReads(tasks, orders)
  {
    if tasks == [] then []
    else AllSends(tasks[..|tasks| - 1], orders[..|orders| - 1]) + Sends(tasks[|tasks| - 1], orders[|orders| - 1])
  }

  /** An independent statement of whom a task reaches and with what. */
  predicate Reaches(t: Task, order: seq<(int, Entity)>, s: Sent)
    reads TaskEntities(t), TaskPeers(t), s.to
  {
    match t
    case BroadcastTask(packet, excludes) =>
      Serializes(packet) && s.packet == packet && s.to !in excludes
      && exists x | x in order :: IsNetwork(x.1) && x.1.peer == s.to
    case VisibleTask(_, except, packet) =>
      Serializes(packet) && s.packet == packet && s.to.state == Connected
      && exists x | x in order :: IsNetwork(x.1) && x.1 != except && x.1.peer == s.to
    case BootstrapTask(origin, to) =>
      s.to == to && to.state == Connected && s.packet in BootstrapPackets(origin)
    case PeerTask(to, packet) =>
      Serializes(packet) && s == Sent(to, packet) && to.state == Connected
  }

  /** Whether a task throws when it runs: a broadcast of a packet that does
      not serialize, a send loop or a single send that reaches a connected
      peer with such a packet. The five packets of a bootstrap all
      serialize. */
  predicate Throws(t: Task, order: seq<(int, Entity)>)
    reads TaskPeers(t), PeersOf(order)
  {
    match t
    case BroadcastTask(packet, _) => !Serializes(packet)
    case VisibleTask(_, except, packet) => VisibleThrows(order, except, packet)
    case BootstrapTask(_, _) => false
    case PeerTask(to, packet) => SendThrows(to, packet)
  }

  /** No task of a run threw. */
  predicate NoneThrow(tasks: seq<Task>, orders: seq<seq<(int, Entity)>>)
    requires |tasks| == |orders|
    reads QueueReads(tasks, orders)
  {
    tasks == []
    || (NoneThrow(tasks[..|tasks| - 1], orders[..|orders| - 1]) && !Throws(tasks[|tasks| - 1], orders[|orders| - 1]))
  }

  /** In a run where no task threw, no single task threw. */
  lemma {:induction false} NoneThrowAt(tasks: seq<Task>, orders: seq<seq<(int, Entity)>>, k: nat)
    requires |tasks| == |orders| && k < |tasks|
    requires NoneThrow(tasks, orders)
    ensures !Throws(tasks[k], orders[k])
  {
    var n := |tasks| - 1;
    if k < n {
      NoneThrowAt(tasks[..n], orders[..n], k);
    }
  }

  // ---------------------------------------------------------------------------
  // Properties of the sends

  /** A peer is sent every packet, in order, when it is connected, and
      nothing otherwise. */
  lemma {:induction false} PeerSendsAll(p: Peer, packets: seq<OutPacket>)
    requires forall i | 0 <= i < |packets| :: Serializes(packets[i])
    ensures p.state == Connected ==> PeerSends(p, packets) == seq(|packets|, i requires 0 <= i < |packets| => Sent(p, packets[i]))
    ensures p.state != Connected ==> PeerSends(p, packets) == []
  {
    if packets != [] {
      PeerSendsAll(p, packets[..|packets| - 1]);
    }
  }

  /** A task sends exactly what Reaches describes. */
  lemma SendsReach(t: Task, order: seq<(int, Entity)>, s: Sent)
    ensures s in Sends(t, order) <==> Reaches(t, order, s)
  {
    match t
    case BroadcastTask(packet, excludes) => BroadcastReaches(order, excludes, packet, s);
    case VisibleTask(_, except, packet) => VisibleReaches(order, except, packet, s);
    case BootstrapTask(origin, to) =>
      var packets := BootstrapPackets(origin);
      PeerSendsAll(to, packets);
      if to.state == Connected && s.to == to && s.packet in packets {
        var i :| 0 <= i < |packets| && packets[i] == s.packet;
        assert PeerSends(to, packets)[i] == s;
      }
    case PeerTask(to, packet) =>
  }

  /** A task that throws has sent nothing. */
  lemma ThrowsSendsNothing(t: Task, order: seq<(int, Entity)>)
    requires Throws(t, order)
    ensures Sends(t, order) == []
  {
    match t
    case BroadcastTask(packet, excludes) => BroadcastCount(order, excludes, packet);
    case VisibleTask(_, except, packet) => NoVisibleSends(order, except, packet);
    case PeerTask(_, _) =>
  }

  /** Removing an effect queues a broadcast of the bare index, which does not
      serialize: the task throws whatever the world holds, and sends nothing. */
  lemma EffectRemovalThrows(index: Byte, effect: Effect, order: seq<(int, Entity)>)
    ensures |QueuedForEffect(EffectRemovedRaised(index, effect))| == 1
    ensures Throws(QueuedForEffect(EffectRemovedRaised(index, effect))[0], order)
    ensures Sends(QueuedForEffect(EffectRemovedRaised(index, effect))[0], order) == []
  {
    ThrowsSendsNothing(QueuedForEffect(EffectRemovedRaised(index, effect))[0], order);
  }

  /** Setting an effect broadcasts it, without a throw, to every network
      entity of the world, connected or not. */
  lemma EffectSetFanOut(world: World, index: Byte, effect: Effect, order: seq<(int, Entity)>, s: Sent)
    requires IsOrdering(order, Entries(world.entities))
    ensures !Throws(QueuedForEffect(EffectSetRaised(index, effect))[0], order)
    ensures s in Sends(QueuedForEffect(EffectSetRaised(index, effect))[0], order) <==>
      s.packet == SetEffectOut(index, Some(effect))
      && exists k | k in world.entities :: IsNetwork(world.entities[k]) && world.entities[k].peer == s.to
  {
    SendsReach(QueuedForEffect(EffectSetRaised(index, effect))[0], order, s);
    OrderedEntries(world.entities, order, null, s.to);
  }

  /** A run of the queue sends exactly what its tasks send. */
  lemma {:induction false} AllSendsReach(tasks: seq<Task>, orders: seq<seq<(int, Entity)>>, s: Sent)
    requires |tasks| == |orders|
    ensures s in AllSends(tasks, orders) <==> exists i | 0 <= i < |tasks| :: s in Sends(tasks[i], orders[i])
  {
    if tasks != [] {
      var n := |tasks| - 1;
      var done, doneOrders := tasks[..n], orders[..n];
      var last := Sends(tasks[n], orders[n]);
      assert AllSends(tasks, orders) == AllSends(done, doneOrders) + last;
      AllSendsReach(done, doneOrders, s);
      if s in AllSends(tasks, orders) {
        if s in last {
          assert s in Sends(tasks[n], orders[n]);
        } else {
          var i :| 0 <= i < n && s in Sends(done[i], doneOrders[i]);
          assert done[i] == tasks[i] && doneOrders[i] == orders[i];
          assert s in Sends(tasks[i], orders[i]);
        }
      }
      if i :| 0 <= i < |tasks| && s in Sends(tasks[i], orders[i]) {
        if i < n {
          assert done[i] == tasks[i] && doneOrders[i] == orders[i];
          assert s in AllSends(done, doneOrders);
        } else {
          assert i == n;
        }
        assert s in AllSends(tasks, orders);
      }
    }
  }

  /** A name change reaches every network entity of the world, connected or not. */
  lemma NameFanOut(world: World, e: Entity, name: string, order: seq<(int, Entity)>, s: Sent)
    requires IsOrdering(order, Entries(world.entities))
    ensures s in Sends(Queued(e, NameUpdated(name))[0], order) <==>
      s.packet == SetNameOut(e.id, name)
      && exists k | k in world.entities :: IsNetwork(world.entities[k]) && world.entities[k].peer == s.to
  {
    SendsReach(Queued(e, NameUpdated(name))[0], order, s);
    OrderedEntries(world.entities, order, null, s.to);
  }

  /** A mute or deafen change reaches every network entity of the world
      except through the origin's own peer. */
  lemma MuteDeafenFanOut(world: World, e: Entity, ev: EntityEvent, order: seq<(int, Entity)>, s: Sent)
    requires ev.MuteUpdated? || ev.DeafenUpdated?
    requires IsOrdering(order, Entries(world.entities))
    ensures s in Sends(Queued(e, ev)[0], order) <==>
      s.packet == (if ev.MuteUpdated? then SetMuteOut(e.id, ev.muted) else SetDeafenOut(e.id, ev.deafened))
      && (IsNetwork(e) ==> s.to != e.peer)
      && exists k | k in world.entities :: IsNetwork(world.entities[k]) && world.entities[k].peer == s.to
  {
    SendsReach(Queued(e, ev)[0], order, s);
    OrderedEntries(world.entities, order, null, s.to);
  }

  /** Talk, listen, position and rotation changes reach only the connected
      network entities in the origin's visible set, the origin included
      when it sees itself. */
  lemma PoseFanOut(e: Entity, ev: EntityEvent, order: seq<(int, Entity)>, s: Sent)
    requires ev.TalkBitmaskUpdated? || ev.ListenBitmaskUpdated? || ev.PositionUpdated? || ev.RotationUpdated?
    requires IsOrdering(order, Entries(e.visible))
    ensures s in Sends(Queued(e, ev)[0], order) <==>
      s.to.state == Connected
      && (exists k | k in e.visible :: IsNetwork(e.visible[k]) && e.visible[k].peer == s.to)
      && s.packet == match ev
        case TalkBitmaskUpdated(b) => SetTalkBitmaskOut(SetTalkBitmaskPacket(e.id, b))
        case ListenBitmaskUpdated(b) => SetListenBitmaskOut(e.id, b)
        case PositionUpdated(p) => SetPositionOut(e.id, p)
        case RotationUpdated(r) => SetRotationOut(SetRotationPacket(e.id, r))
  {
    SendsReach(Queued(e, ev)[0], order, s);
    OrderedEntries(e.visible, order, null, s.to);
  }

  /** Audio reaches the connected network entities in the sender's visible
      set, never the sender itself. */
  lemma AudioFanOut(e: Entity, data: seq<Byte>, timestamp: UInt32, frameLoudness: Float32,
                    order: seq<(int, Entity)>, s: Sent)
    requires IsOrdering(order, Entries(e.visible))
    ensures s in Sends(Queued(e, AudioReceived(data, timestamp, frameLoudness))[0], order) <==>
      s.packet == AudioOut(e.id, timestamp, frameLoudness, |data|, data) && s.to.state == Connected
      && exists k | k in e.visible :: IsNetwork(e.visible[k]) && e.visible[k] != e && e.visible[k].peer == s.to
  {
    SendsReach(Queued(e, AudioReceived(data, timestamp, frameLoudness))[0], order, s);
    OrderedEntries(e.visible, order, e, s.to);
  }

  /** An entity coming into view queues work only when it is a network
      entity; its peer, when connected, is then sent the five packets that
      describe the observing entity, in order. */
  lemma VisibleAddedFanOut(e: Entity, added: Entity)
    ensures !IsNetwork(added) ==> Queued(e, VisibleEntityAdded(added)) == []
    ensures IsNetwork(added) ==>
      |Queued(e, VisibleEntityAdded(added))| == 1
      && Sends(Queued(e, VisibleEntityAdded(added))[0], []) ==
        (if added.peer.state == Connected
         then [ Sent(added.peer, SetVisibilityOut(e.id, true))
              , Sent(added.peer, SetTalkBitmaskOut(SetTalkBitmaskPacket(e.id, e.talkBitmask)))
              , Sent(added.peer, SetListenBitmaskOut(e.id, e.listenBitmask))
              , Sent(added.peer, SetPositionOut(e.id, e.position))
              , Sent(added.peer, SetRotationOut(SetRotationPacket(e.id, e.rotation))) ]
         else [])
  {
    if IsNetwork(added) {
      PeerSendsAll(added.peer, BootstrapPackets(e));
    }
  }

  /** An entity leaving view is told, when it is a connected network entity,
      that the observing entity is no longer visible. */
  lemma VisibleRemovedFanOut(e: Entity, removed: Entity)
    ensures !IsNetwork(removed) ==> Queued(e, VisibleEntityRemoved(removed)) == []
    ensures IsNetwork(removed) ==>
      |Queued(e, VisibleEntityRemoved(removed))| == 1
      && Sends(Queued(e, VisibleEntityRemoved(removed))[0], []) ==
        (if removed.peer.state == Connected then [Sent(removed.peer, SetVisibilityOut(e.id, false))] else [])
  {
  }

  /** Since the talk setter raises the listen event, a new talk bitmask is
      sent out as a SetListenBitmask packet, and a new listen bitmask as a
      SetTalkBitmask packet. */
  lemma SwappedBitmaskPackets(e: Entity, b: UInt64)
    ensures Queued(e, ListenBitmaskUpdated(b))[0].packet == SetListenBitmaskOut(e.id, b)
    ensures Queued(e, TalkBitmaskUpdated(b))[0].packet == SetTalkBitmaskOut(SetTalkBitmaskPacket(e.id, b))
  {
  }

  /** The network entities an enumeration lists, other than `except`, are
      those of the map. */
  lemma OrderedEntries(m: map<int, Entity>, order: seq<(int, Entity)>, except: Entity?, to: Peer)
    requires IsOrdering(order, Entries(m))
    ensures (exists x | x in order :: IsNetwork(x.1) && x.1 != except && x.1.peer == to) <==>
      exists k | k in m :: IsNetwork(m[k]) && m[k] != except && m[k].peer == to
  {
    if exists k | k in m :: IsNetwork(m[k]) && m[k] != except && m[k].peer == to {
      var k :| k in m && IsNetwork(m[k]) && m[k] != except && m[k].peer == to;
      assert (k, m[k]) in order;
    }
    if exists x | x in order :: IsNetwork(x.1) && x.1 != except && x.1.peer == to {
      var x :| x in order && IsNetwork(x.1) && x.1 != except && x.1.peer == to;
      assert x in Entries(m);
    }
  }

  // ---------------------------------------------------------------------------
  // Entity creation: the sends made at once

  /** `new EntityCreatedPacket(entity.Id, entity)`. */
  function CreatedPacket(e: Entity): OutPacket
    reads e`name, e`muted, e`deafened
  {
    EntityCreatedOut(EntityCreatedPacket(e.id, e.name, e.muted, e.deafened))
  }

  function EntitiesOf(order: seq<(int, Entity)>): set<Entity>
  {
    set x | x in order :: x.1
  }

  /** One SetEffectPacket per table entry, to one peer. */
  function EffectSends(p: Peer, order: seq<(Byte, Effect)>): seq<Sent>
    reads p
  {
    if order == [] then []
    else
      var last := order[|order| - 1];
      EffectSends(p, order[..|order| - 1]) + SendTo(p, SetEffectOut(last.0, Some(last.1)))
  }

  /** One EntityCreatedPacket per entity other than `newEntity`, to one peer. */
  function OthersSends(p: Peer, order: seq<(int, Entity)>, newEntity: Entity): seq<Sent>
    reads p, EntitiesOf(order)`name, EntitiesOf(order)`muted, EntitiesOf(order)`deafened
  {
    if order == [] then []
    else
      var last := order[|order| - 1];
      OthersSends(p, order[..|order| - 1], newEntity)
      + (if last.1 == newEntity then [] else SendTo(p, CreatedPacket(last.1)))
  }

  /** A connected new peer is sent every effect of the table. */
  lemma {:induction false} EffectSendsReach(p: Peer, order: seq<(Byte, Effect)>, s: Sent)
    ensures s in EffectSends(p, order) <==>
      s.to == p && p.state == Connected && exists x | x in order :: s.packet == SetEffectOut(x.0, Some(x.1))
  {
    if order != [] {
      var init := order[..|order| - 1];
      EffectSendsReach(p, init, s);
      assert forall x :: x in order <==> x in init || x == order[|order| - 1];
    }
  }

  /** A connected new peer is told about every other entity. */
  lemma {:induction false} OthersSendsReach(p: Peer, order: seq<(int, Entity)>, newEntity: Entity, s: Sent)
    ensures s in OthersSends(p, order, newEntity) <==>
      s.to == p && p.state == Connected && exists x | x in order :: x.1 != newEntity && s.packet == CreatedPacket(x.1)
  {
    if order != [] {
      var init := order[..|order| - 1];
      OthersSendsReach(p, init, newEntity, s);
      assert forall x :: x in order <==> x in init || x == order[|order| - 1];
    }
  }

  class EventHandlerSystem {
    /** The server whose SendPacket and Broadcast the handlers call; its
        world is the world whose events are handled. */
    const server: Transport
    const effects: AudioEffectSystem
    var tasks: seq<Task>

    constructor(server: Transport, effects: AudioEffectSystem)
      ensures this.server == server && this.effects == effects && tasks == []
    {
      this.server := server;
      this.effects := effects;
      tasks := [];
    }

    /** OnEntityCreated: the creation is broadcast at once to every network
        entity but the new one; a new network entity's peer is then sent
        every effect and every other entity; finally the handlers subscribe
        to the new entity's events. */
    method OnEntityCreated(newEntity: Entity)
      returns (broadcast: seq<(int, Entity)>, effectOrder: seq<(Byte, Effect)>, others: seq<(int, Entity)>)
      modifies server`sent, newEntity`subscribers
      ensures IsOrdering(broadcast, Entries(server.world.entities))
      ensures IsNetwork(newEntity) ==>
        IsOrdering(effectOrder, Entries(effects.effects)) && IsOrdering(others, Entries(server.world.entities))
      ensures !IsNetwork(newEntity) ==> effectOrder == [] && others == []
      ensures server.sent == old(server.sent)
        + BroadcastSends(broadcast, OwnPeer(newEntity), CreatedPacket(newEntity))
        + (if IsNetwork(newEntity)
           then EffectSends(newEntity.peer, effectOrder) + OthersSends(newEntity.peer, others, newEntity)
           else [])
      ensures newEntity.subscribers == old(newEntity.subscribers) + {ServerEvents}
    {
      var o;
      broadcast, o := server.Broadcast(CreatedPacket(newEntity), OwnPeer(newEntity));
      ghost var announced := BroadcastSends(broadcast, OwnPeer(newEntity), CreatedPacket(newEntity));
      ghost var snapshot: seq<Sent> := [];
      if IsNetwork(newEntity) {
        effectOrder, others := SendSnapshot(newEntity);
        snapshot := EffectSends(newEntity.peer, effectOrder) + OthersSends(newEntity.peer, others, newEntity);
        Regroup(old(server.sent) + announced, EffectSends(newEntity.peer, effectOrder), OthersSends(newEntity.peer, others, newEntity));
      } else {
        effectOrder, others := [], [];
      }
      assert server.sent == old(server.sent) + announced + snapshot;
      newEntity.subscribers := newEntity.subscribers + {ServerEvents};
    }

    /** What a new network entity's peer is sent: the effects, then the
        other entities. */
    method SendSnapshot(newEntity: Entity) returns (effectOrder: seq<(Byte, Effect)>, others: seq<(int, Entity)>)
      requires IsNetwork(newEntity)
      modifies server`sent
      ensures IsOrdering(effectOrder, Entries(effects.effects)) && IsOrdering(others, Entries(server.world.entities))
      ensures server.sent == old(server.sent) + EffectSends(newEntity.peer, effectOrder) + OthersSends(newEntity.peer, others, newEntity)
    {
      effectOrder := SendEffects(newEntity.peer);
      others := SendOthers(newEntity);
    }

    method SendEffects(p: Peer) returns (order: seq<(Byte, Effect)>)
      modifies server`sent
      ensures IsOrdering(order, Entries(effects.effects))
      ensures server.sent == old(server.sent) + EffectSends(p, order)
    {
      order := Enumerate(Entries(effects.effects));
      for i := 0 to |order|
        invariant server.sent == old(server.sent) + EffectSends(p, order[..i])
      {
        assert order[..i + 1][..i] == order[..i];
        Regroup(old(server.sent), EffectSends(p, order[..i]), SendTo(p, SetEffectOut(order[i].0, Some(order[i].1))));
        var _ := server.SendPacket(p, SetEffectOut(order[i].0, Some(order[i].1)));
      }
      assert order[..|order|] == order;
    }

    method SendOthers(newEntity: Entity) returns (order: seq<(int, Entity)>)
      requires IsNetwork(newEntity)
      modifies server`sent
      ensures IsOrdering(order, Entries(server.world.entities))
      ensures server.sent == old(server.sent) + OthersSends(newEntity.peer, order, newEntity)
    {
      order := Enumerate(Entries(server.world.entities));
      for i := 0 to |order|
        invariant server.sent == old(server.sent) + OthersSends(newEntity.peer, order[..i], newEntity)
      {
        assert order[..i + 1][..i] == order[..i];
        assert (server as object) !in EntitiesOf(order[..i + 1]);
        Regroup(old(server.sent), OthersSends(newEntity.peer, order[..i], newEntity),
          if order[i].1 == newEntity then [] else SendTo(newEntity.peer, CreatedPacket(order[i].1)));
        if order[i].1 != newEntity {
          var _ := server.SendPacket(newEntity.peer, CreatedPacket(order[i].1));
        }
      }
      assert order[..|order|] == order;
    }

    /** OnEntityDestroyed: a network entity's peer is disconnected, the
        destruction is broadcast to every network entity, and the handlers
        unsubscribe. */
    method OnEntityDestroyed(entity: Entity) returns (broadcast: seq<(int, Entity)>)
      modifies server`sent, entity`subscribers, entity.peer
      ensures IsNetwork(entity) ==> entity.peer.state == Disconnected && entity.peer.disconnectReason == Some("")
      ensures IsOrdering(broadcast, Entries(server.world.entities))
      ensures server.sent == old(server.sent) + BroadcastSends(broadcast, {}, EntityDestroyedOut(entity.id))
      ensures entity.subscribers == old(entity.subscribers) - {ServerEvents}
    {
      if IsNetwork(entity) {
        entity.peer.Disconnect("");
      }
      var o;
      broadcast, o := server.Broadcast(EntityDestroyedOut(entity.id), {});
      entity.subscribers := entity.subscribers - {ServerEvents};
    }

    /** An entity event reaching the subscribed handler queues its task. */
    method OnEntityEvent(e: Entity, ev: EntityEvent)
      modifies this`tasks
      ensures tasks == old(tasks) + Queued(e, ev)
    {
      tasks := tasks + Queued(e, ev);
    }

    /** OnAudioEffectSet / OnAudioEffectRemoved queue a broadcast. */
    method OnEffectEvent(ev: EffectEvent)
      modifies this`tasks
      ensures tasks == old(tasks) + QueuedForEffect(ev)
    {
      tasks := tasks + QueuedForEffect(ev);
    }

    /** One task, run against the current state; true when it throws. */
    method RunTask(t: Task) returns (order: seq<(int, Entity)>, threw: bool)
      modifies server`sent
      ensures IsOrdering(order, Enumerated(server.world, t))
      ensures threw <==> Throws(t, order)
      ensures server.sent == old(server.sent) + Sends(t, order)
    {
      match t
      case BroadcastTask(packet, excludes) =>
        var o;
        order, o := server.Broadcast(packet, excludes);
        threw := o.Threw?;
      case VisibleTask(origin, except, packet) =>
        var o;
        order, o := server.SendToVisible(origin, except, packet);
        threw := o.Threw?;
      case BootstrapTask(origin, to) =>
        order := [];
        var packets := BootstrapPackets(origin);
        for i := 0 to |packets|
          invariant server.sent == old(server.sent) + PeerSends(to, packets[..i])
        {
          assert packets[..i + 1][..i] == packets[..i];
          Regroup(old(server.sent), PeerSends(to, packets[..i]), SendTo(to, packets[i]));
          var r := server.SendPacket(to, packets[i]);
          assert r.Ok?;
        }
        assert packets[..|packets|] == packets;
        threw := false;
      case PeerTask(to, packet) =>
        order := [];
        var r := server.SendPacket(to, packet);
        threw := r.Err?;
    }

    /** The step of Update that runs `t` once every task of `done` has run: what the
        earlier tasks sent and enumerated is left as it was. */
    method RunNext(ghost base: seq<Sent>, ghost done: seq<Task>, ghost orders: seq<seq<(int, Entity)>>, t: Task,
                   ghost reads': set<object>)
      returns (order: seq<(int, Entity)>, threw: bool)
      requires |done| == |orders| && reads' == QueueReads(done, orders)
      requires AllEnumerated(server.world, done, orders) && NoneThrow(done, orders)
      requires server.sent == base + AllSends(done, orders)
      modifies server`sent
      ensures IsOrdering(order, Enumerated(server.world, t))
      ensures threw <==> Throws(t, order)
      ensures AllEnumerated(server.world, done, orders) && NoneThrow(done, orders)
      ensures server.sent == base + AllSends(done, orders) + Sends(t, order)
    {
      assert (server as object) !in reads';
      ghost var prior := AllSends(done, orders);
      order, threw := RunTask(t);
      assert unchanged(reads');
      assert AllSends(done, orders) == prior;
    }

    /** Update: the queued tasks run, in queue order (the source runs them in
        parallel), until one throws. When none throws the queue is left empty;
        when one does, the exception leaves Update before the queue is
        cleared, so every task stays queued, the sent ones included. A queued
        effect removal therefore keeps the queue from ever being cleared. */
    method Update() returns (orders: seq<seq<(int, Entity)>>, threw: bool)
      modifies this`tasks, server`sent
      ensures |orders| <= |old(tasks)|
      ensures AllEnumerated(server.world, old(tasks)[..|orders|], orders)
      ensures server.sent == old(server.sent) + AllSends(old(tasks)[..|orders|], orders)
      ensures !threw ==> tasks == [] && |orders| == |old(tasks)| && NoneThrow(old(tasks), orders)
      ensures threw ==>
        tasks == old(tasks) && 0 < |orders|
        && NoneThrow(old(tasks)[..|orders| - 1], orders[..|orders| - 1])
        && Throws(old(tasks)[|orders| - 1], orders[|orders| - 1])
      ensures (exists k | 0 <= k < |old(tasks)| :: old(tasks)[k].BroadcastTask? && !Serializes(old(tasks)[k].packet)) ==>
        threw && tasks == old(tasks)
    {
      var queue := tasks;
      orders, threw := RunAll(queue);
      if !threw {
        assert queue[..|orders|] == queue;
        forall k | 0 <= k < |queue|
          ensures !(queue[k].BroadcastTask? && !Serializes(queue[k].packet))
        {
          NoneThrowAt(queue, orders, k);
        }
        assert (this as object) !in QueueReads(queue, orders);
        tasks := [];
      }
    }

    /** Runs the tasks of `queue` one after the other, up to and including the
        first that throws. */
    method RunAll(queue: seq<Task>) returns (orders: seq<seq<(int, Entity)>>, threw: bool)
      modifies server`sent
      ensures |orders| <= |queue|
      ensures AllEnumerated(server.world, queue[..|orders|], orders)
      ensures server.sent == old(server.sent) + AllSends(queue[..|orders|], orders)
      ensures !threw ==> |orders| == |queue| && NoneThrow(queue, orders)
      ensures threw ==>
        0 < |orders|
        && NoneThrow(queue[..|orders| - 1], orders[..|orders| - 1])
        && Throws(queue[|orders| - 1], orders[|orders| - 1])
    {
      orders := [];
      var i := 0;
      while i < |queue|
        invariant 0 <= i <= |queue| && |orders| == i
        invariant AllEnumerated(server.world, queue[..i], orders) && NoneThrow(queue[..i], orders)
        invariant server.sent == old(server.sent) + AllSends(queue[..i], orders)
      {
        var stepThrew;
        orders, stepThrew := RunStep(old(server.sent), queue, i, orders);
        if stepThrew {
          return orders, true;
        }
        i := i + 1;
      }
      assert queue[..|queue|] == queue;
      threw := false;
    }

    /** Runs `queue[i]` after every earlier task. */
    method RunStep(ghost base: seq<Sent>, queue: seq<Task>, i: nat, orders: seq<seq<(int, Entity)>>)
      returns (orders': seq<seq<(int, Entity)>>, threw: bool)
      requires i < |queue| && |orders| == i
      requires AllEnumerated(server.world, queue[..i], orders) && NoneThrow(queue[..i], orders)
      requires server.sent == base + AllSends(queue[..i], orders)
      modifies server`sent
      ensures |orders'| == i + 1 && orders'[..i] == orders
      ensures threw <==> Throws(queue[i], orders'[i])
      ensures AllEnumerated(server.world, queue[..i + 1], orders') && NoneThrow(queue[..i], orders)
      ensures !threw ==> NoneThrow(queue[..i + 1], orders')
      ensures server.sent == base + AllSends(queue[..i + 1], orders')
    {
      var order;
      order, threw := RunNext(base, queue[..i], orders, queue[i], QueueReads(queue[..i], orders));
      orders' := orders + [order];
      assert orders'[..i] == orders;
      Snoc(server.world, queue, i, orders, order);
      Regroup(base, AllSends(queue[..i], orders), Sends(queue[i], order));
    }
  }
}
