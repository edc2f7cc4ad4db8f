/** The server's visibility pass (VisibilitySystem.cs): for every entity of the
    world, drop destroyed entries from its visible set, then add each other
    network entity that passes EntityVisibility and remove each that fails it.
    The EffectBitmask that VisibilityEffect reads is declared on no entity
    class, so the pass is given one per entity (`effectBitmask`); whether a
    distance is within range is a floating-point comparison the pass is given
    too (`withinRange`). */
module Visibility {
  import opened Wire
  import opened DotNet
  import opened Effects
  import opened Entities
  import opened ServerNet
  import opened AudioEffects

  /** What the effects see of an entity. */
  function View(e: Entity, effectBitmask: Entity -> UInt32): (v: EntityView)
    reads e`talkBitmask, e`listenBitmask, e`worldId, e`position
    ensures v.talkBitmask == e.talkBitmask && v.listenBitmask == e.listenBitmask
    ensures v.worldId == e.worldId && v.position == e.position && v.effectBitmask == effectBitmask(e)
  {
    EntityView(e.talkBitmask, e.listenBitmask, effectBitmask(e), e.worldId, e.position)
  }

  /** The reference verdict: the talk and listen bitmasks share a bit, and no
      registered effect that can veto visibility does so for its key. */
  predicate Visible(effects: map<Byte, Effect>, from: EntityView, to: EntityView, withinRange: DistanceCheck)
  {
    And(from.talkBitmask, to.listenBitmask) != 0
    && forall k | k in effects :: CanVeto(effects[k]) ==> EffectAllows(effects[k], k, from, to, withinRange)
  }

  /** Entity.VisibleTo asks for more than the bitmask gate of the pass: two
      entities in one non-blank world that share a talk/listen bit pass that
      gate and every visibility effect, whatever its key. Proximity plays no
      part in VisibleTo. */
  lemma VisibleToPassesWorldGates(from: Entity, to: Entity, effectBitmask: Entity -> UInt32, key: Byte)
    ensures from.VisibleTo(to) ==>
      And(from.talkBitmask, to.listenBitmask) != 0
      && VisibilityEffectVisible(View(from, effectBitmask), View(to, effectBitmask), key)
  {
  }

  /** The entities a pass over `self` examines: the other network entities of
      the world, by key. */
  predicate Candidate(w: map<int, Entity>, selfId: int, k: int)
  {
    k in w && IsNetwork(w[k]) && k != selfId
  }

  /** A visible set without its destroyed entries. */
  function Trimmed(v: map<int, Entity>): (r: map<int, Entity>)
    reads v.Values`destroyed
    ensures forall k :: k in r <==> k in v && !v[k].destroyed
    ensures forall k | k in r :: r[k] == v[k]
  {
    map k | k in v && !v[k].destroyed :: v[k]
  }

  class VisibilitySystem {
    const world: World
    const effects: AudioEffectSystem
    const effectBitmask: Entity -> UInt32
    const withinRange: DistanceCheck

    constructor(world: World, effects: AudioEffectSystem, effectBitmask: Entity -> UInt32, withinRange: DistanceCheck)
      ensures this.world == world && this.effects == effects
      ensures this.effectBitmask == effectBitmask && this.withinRange == withinRange
    {
      this.world := world;
      this.effects := effects;
      this.effectBitmask := effectBitmask;
      this.withinRange := withinRange;
    }

    /** Whether `from` hears `to` under the registered effects. */
    predicate Hears(from: Entity, to: Entity)
      reads effects`effects, from`talkBitmask, from`listenBitmask, from`worldId, from`position
      reads to`talkBitmask, to`listenBitmask, to`worldId, to`position
    {
      Visible(effects.effects, View(from, effectBitmask), View(to, effectBitmask), withinRange)
    }

    /** EntityVisibility: false at once when the bitmasks share no bit, then
        false at the first vetoing effect; effects that cannot veto are
        skipped. */
    method EntityVisibility(from: Entity, to: Entity) returns (visible: bool)
      ensures visible <==> Hears(from, to)
    {
      var vf := View(from, effectBitmask);
      var vt := View(to, effectBitmask);
      if And(from.talkBitmask, to.listenBitmask) == 0 {
        return false;
      }
      var order := Enumerate(Entries(effects.effects));
      for i := 0 to |order|
        invariant forall j | 0 <= j < i :: CanVeto(order[j].1) ==> EffectAllows(order[j].1, order[j].0, vf, vt, withinRange)
      {
        var x := order[i];
        if CanVeto(x.1) && !EffectAllows(x.1, x.0, vf, vt, withinRange) {
          assert x in Entries(effects.effects);
          return false;
        }
      }
      forall k | k in effects.effects && CanVeto(effects.effects[k])
        ensures EffectAllows(effects.effects[k], k, vf, vt, withinRange)
      {
        assert (k, effects.effects[k]) in order;
      }
      visible := true;
    }

    /** One candidate: added when it passes, removed when it fails. */
    method Consider(e: Entity, p: Entity) returns (raised: seq<EntityEvent>)
      modifies e`visible, e`events
      ensures Hears(e, p) ==> e.visible == if p.id in old(e.visible) then old(e.visible) else old(e.visible)[p.id := p]
      ensures !Hears(e, p) ==> e.visible == old(e.visible) - {p.id}
      ensures raised ==
        if Hears(e, p) then (if p.id in old(e.visible) then [] else [VisibleEntityAdded(p)])
        else (if p.id in old(e.visible) then [VisibleEntityRemoved(p)] else [])
      ensures e.events == old(e.events) + raised
    {
      var visible := EntityVisibility(e, p);
      if !visible {
        var r := e.RemoveVisibleEntity(p);
        raised := if r then [VisibleEntityRemoved(p)] else [];
      } else {
        var r := e.AddVisibleEntity(p);
        raised := if r then [VisibleEntityAdded(p)] else [];
      }
    }

    /** The verdict on every entity of the world as a candidate for `e`. */
    function Verdicts(e: Entity): (h: map<int, bool>)
      reads this, world, effects`effects, e`talkBitmask, e`listenBitmask, e`worldId, e`position
      reads world.entities.Values`talkBitmask, world.entities.Values`listenBitmask
      reads world.entities.Values`worldId, world.entities.Values`position
    {
      map k | k in world.entities :: Hears(e, world.entities[k])
    }

    /** UpdateVisibleNetworkEntities for one entity: the pass ends with every
        key of the world examined (PassMeans spells out what that says). */
    method UpdateVisibleNetworkEntities(e: Entity) returns (raised: seq<EntityEvent>)
      requires world.Valid()
      modifies e`visible, e`events
      ensures PassSoFar(e.visible, e.id, world.entities, old(Verdicts(e)), old(Trimmed(e.visible)), world.entities.Keys, raised)
      ensures e.events == old(e.events) + raised
    {
      ghost var t := Trimmed(e.visible);
      ghost var h := Verdicts(e);
      e.TrimVisibleDeadEntities();
      assert forall k :: k in e.visible <==> k in t;
      var order := Enumerate(Entries(world.entities));
      raised := ConsiderAll(e, order, world.entities, h, t);
    }

    /** The candidate loop over an enumeration of the world's entries; `h`
        holds the verdict for each key. */
    method ConsiderAll(e: Entity, order: seq<(int, Entity)>, ghost w: map<int, Entity>, ghost h: map<int, bool>,
                       ghost t: map<int, Entity>)
      returns (raised: seq<EntityEvent>)
      requires IsOrdering(order, Entries(w)) && forall k | k in w :: w[k].id == k
      requires forall k | k in w :: k in h && h[k] == Hears(e, w[k])
      requires PassSoFar(e.visible, e.id, w, h, t, {}, [])
      modifies e`visible, e`events
      ensures PassSoFar(e.visible, e.id, w, h, t, w.Keys, raised)
      ensures e.events == old(e.events) + raised
    {
      ghost var pos := Positions(order, w);
      ghost var done;
      raised, done := ConsiderEach(e, order, pos, w, h, t);
      forall k | k in w
        ensures k in done
      {
        assert (k, w[k]) in order;
      }
      assert done == w.Keys;
    }

    /** The loop itself, over the entries in `order`, whose keys sit at the
        positions `pos` says. */
    method ConsiderEach(e: Entity, order: seq<(int, Entity)>, ghost pos: map<int, int>, ghost w: map<int, Entity>,
                        ghost h: map<int, bool>, ghost t: map<int, Entity>)
      returns (raised: seq<EntityEvent>, ghost done: set<int>)
      requires forall j | 0 <= j < |order| ::
        order[j].0 in w && w[order[j].0] == order[j].1 && order[j].1.id == order[j].0 && order[j].0 in pos && pos[order[j].0] == j
      requires forall k | k in w :: k in h && h[k] == Hears(e, w[k])
      requires PassSoFar(e.visible, e.id, w, h, t, {}, [])
      modifies e`visible, e`events
      ensures PassSoFar(e.visible, e.id, w, h, t, done, raised)
      ensures done <= w.Keys && forall j | 0 <= j < |order| :: order[j].0 in done
      ensures e.events == old(e.events) + raised
    {
      raised := [];
      done := {};
      for i := 0 to |order|
        invariant forall j | 0 <= j < i :: order[j].0 in done
        invariant forall k | k in done :: k in pos && pos[k] < i
        invariant done <= w.Keys
        invariant forall k | k in w :: k in h && h[k] == Hears(e, w[k])
        invariant PassSoFar(e.visible, e.id, w, h, t, done, raised)
        invariant e.events == old(e.events) + raised
      {
        var x := order[i];
        var r := ConsiderEntry(e, x, w, h, t, done, raised);
        raised := raised + r;
        done := done + {x.0};
      }
    }

    /** One iteration of the candidate loop: the entry `x`, skipped unless it
        is another network entity. */
    method ConsiderEntry(e: Entity, x: (int, Entity), ghost w: map<int, Entity>, ghost h: map<int, bool>,
                         ghost t: map<int, Entity>, ghost done: set<int>, ghost raised: seq<EntityEvent>)
      returns (r: seq<EntityEvent>)
      requires x.0 in w && w[x.0] == x.1 && x.1.id == x.0 && x.0 !in done
      requires x.0 in h && h[x.0] == Hears(e, x.1)
      requires PassSoFar(e.visible, e.id, w, h, t, done, raised)
      modifies e`visible, e`events
      ensures PassSoFar(e.visible, e.id, w, h, t, done + {x.0}, raised + r)
      ensures e.events == old(e.events) + r
    {
      r := [];
      if IsNetwork(x.1) && x.1.id != e.id {
        r := Consider(e, x.1);
      }
    }

    /** One iteration of Update: the pass over `e`, whose verdicts are taken
        from the views `views` of the world's entities under the effects `fx`. */
    method UpdateOne(e: Entity, ghost fx: map<Byte, Effect>, ghost views: map<Entity, EntityView>,
                     ghost t: map<int, Entity>)
      returns (raised: seq<EntityEvent>)
      requires world.Valid() && fx == effects.effects && t == Trimmed(e.visible)
      requires e in views && views[e] == View(e, effectBitmask)
      requires forall d | d in world.entities.Values :: d in views && views[d] == View(d, effectBitmask)
      modifies e`visible, e`events
      ensures VisibleSoFar(e.visible, e.id, world.entities, VerdictsFrom(fx, views[e], world.entities, views, withinRange), t,
                           world.entities.Keys)
      ensures RaisedSoFar(raised, e.id, world.entities, VerdictsFrom(fx, views[e], world.entities, views, withinRange), t,
                          world.entities.Keys)
    {
      VerdictsAgree(e, views);
      raised := UpdateVisibleNetworkEntities(e);
    }

    /** What the effects see of each entity of the world. */
    lemma ViewsOf() returns (views: map<Entity, EntityView>)
      ensures forall d | d in world.entities.Values :: d in views && views[d] == View(d, effectBitmask)
    {
      views := map d | d in world.entities.Values :: View(d, effectBitmask);
    }

    /** Each entity's verdicts, read through views that match the entities. */
    lemma VerdictsOf(views: map<Entity, EntityView>) returns (hs: map<Entity, map<int, bool>>)
      requires forall d | d in world.entities.Values :: d in views && views[d] == View(d, effectBitmask)
      ensures forall d | d in world.entities.Values ::
        d in hs && hs[d] == VerdictsFrom(effects.effects, views[d], world.entities, views, withinRange)
      ensures forall d | d in world.entities.Values :: d in hs && hs[d] == Verdicts(d)
    {
      hs := map d | d in world.entities.Values :: VerdictsFrom(effects.effects, views[d], world.entities, views, withinRange);
      forall d | d in world.entities.Values
        ensures hs[d] == Verdicts(d)
      {
        VerdictsAgree(d, views);
      }
    }

    /** Verdicts read through views that match the entities are the verdicts. */
    lemma VerdictsAgree(e: Entity, views: map<Entity, EntityView>)
      requires e in views && views[e] == View(e, effectBitmask)
      requires forall d | d in world.entities.Values :: d in views && views[d] == View(d, effectBitmask)
      ensures Verdicts(e) == VerdictsFrom(effects.effects, views[e], world.entities, views, withinRange)
    {
      var h := VerdictsFrom(effects.effects, views[e], world.entities, views, withinRange);
      assert Verdicts(e).Keys == h.Keys;
      forall k | k in h
        ensures Verdicts(e)[k] == h[k]
      {
        assert views[world.entities[k]] == View(world.entities[k], effectBitmask);
      }
    }

    /** Each entity's visible set. */
    lemma VisibleOf() returns (before: map<Entity, map<int, Entity>>)
      ensures forall d | d in world.entities.Values :: d in before && before[d] == d.visible
    {
      before := map d | d in world.entities.Values :: d.visible;
    }

    /** Each entity's visible set, trimmed. */
    lemma TrimmedOf() returns (ts: map<Entity, map<int, Entity>>)
      ensures forall d | d in world.entities.Values :: d in ts && ts[d] == Trimmed(d.visible)
    {
      ts := map d | d in world.entities.Values :: Trimmed(d.visible);
    }

    /** Update: every entity of the world, in the world's enumeration order,
        each pass leaving its entity's visible set as the pass over it
        promises; the events are tagged with the entity that raised them. */
    method Update() returns (order: seq<(int, Entity)>, raised: seq<(Entity, EntityEvent)>)
      requires world.Valid()
      modifies world.entities.Values`visible, world.entities.Values`events
      ensures IsOrdering(order, Entries(world.entities))
      ensures forall e | e in world.entities.Values ::
        VisibleSoFar(e.visible, e.id, world.entities, old(Verdicts(e)), old(Trimmed(e.visible)), world.entities.Keys)
      ensures forall x | x in raised :: x.0 in world.entities.Values
      ensures forall e, ev | e in world.entities.Values && (e, ev) in raised ::
        RaisedSoFar([ev], e.id, world.entities, old(Verdicts(e)), old(Trimmed(e.visible)), world.entities.Keys)
    {
      ghost var views := ViewsOf();
      ghost var hs := VerdictsOf(views);
      ghost var before := VisibleOf();
      ghost var ts := TrimmedOf();
      order := Enumerate(Entries(world.entities));
      ghost var pos := EntityPositions(order, world.entities);
      raised := UpdateAll(order, pos, views, hs, before, ts);
    }

    /** The loop of Update over the enumeration `order`, where each entity
        sits at the position `pos` says. */
    method UpdateAll(order: seq<(int, Entity)>, ghost pos: map<Entity, int>, ghost views: map<Entity, EntityView>, ghost hs: map<Entity, map<int, bool>>,
                     ghost before: map<Entity, map<int, Entity>>, ghost ts: map<Entity, map<int, Entity>>)
      returns (raised: seq<(Entity, EntityEvent)>)
      requires world.Valid()
      requires forall j | 0 <= j < |order| :: order[j].1 in world.entities.Values && order[j].1 in pos && pos[order[j].1] == j
      requires forall d | d in world.entities.Values :: d in pos && 0 <= pos[d] < |order| && order[pos[d]].1 == d
      requires forall d | d in world.entities.Values :: d in views && views[d] == View(d, effectBitmask)
      requires forall d | d in world.entities.Values ::
        d in hs && hs[d] == VerdictsFrom(effects.effects, views[d], world.entities, views, withinRange)
      requires forall d | d in world.entities.Values :: d in before && before[d] == d.visible
      requires forall d | d in world.entities.Values :: d in ts && ts[d] == Trimmed(d.visible)
      modifies world.entities.Values`visible, world.entities.Values`events
      ensures forall d | d in world.entities.Values :: VisibleSoFar(d.visible, d.id, world.entities, hs[d], ts[d], world.entities.Keys)
      ensures TaggedSoFar(raised, world.entities.Values, world.entities, hs, ts)
    {
      raised := [];
      ghost var finished: set<Entity> := {};
      for i := 0 to |order|
        invariant finished <= world.entities.Values
        invariant forall d | d in world.entities.Values :: d in finished <==> pos[d] < i
        invariant Fixed(views, hs, before, ts)
        invariant forall d | d in world.entities.Values ::
          if d in finished then VisibleSoFar(d.visible, d.id, world.entities, hs[d], ts[d], world.entities.Keys)
          else d.visible == before[d]
        invariant TaggedSoFar(raised, finished, world.entities, hs, ts)
      {
        var e := order[i].1;
        forall d | d in world.entities.Values
          ensures d in finished + {e} <==> pos[d] < i + 1
        {
          if pos[d] == i {
            assert order[pos[d]].1 == d;
          }
        }
        var r := UpdateEntry(e, views, hs, before, ts, finished, raised);
        raised := raised + Tagged(e, r);
        finished := finished + {e};
      }
    }

    /** What the passes of Update leave as it was: each entity's view, and
        what its visible set as Update found it trims to. */
    ghost predicate Fixed(views: map<Entity, EntityView>, hs: map<Entity, map<int, bool>>,
                          before: map<Entity, map<int, Entity>>, ts: map<Entity, map<int, Entity>>)
      reads this, world, effects`effects, world.entities.Values`talkBitmask, world.entities.Values`listenBitmask
      reads world.entities.Values`worldId, world.entities.Values`position
      reads (set d, x | d in world.entities.Values && d in before && x in before[d].Values :: x)`destroyed
    {
      forall d | d in world.entities.Values ::
        d in views && views[d] == View(d, effectBitmask)
        && d in hs && hs[d] == VerdictsFrom(effects.effects, views[d], world.entities, views, withinRange)
        && d in before && d in ts && ts[d] == Trimmed(before[d])
    }

    /** One iteration of Update's loop: the pass over `e`, which has not been
        visited yet. */
    method UpdateEntry(e: Entity, ghost views: map<Entity, EntityView>, ghost hs: map<Entity, map<int, bool>>,
                       ghost before: map<Entity, map<int, Entity>>, ghost ts: map<Entity, map<int, Entity>>,
                       ghost finished: set<Entity>, ghost raised: seq<(Entity, EntityEvent)>)
      returns (r: seq<EntityEvent>)
      requires world.Valid() && e in world.entities.Values && e !in finished
      requires Fixed(views, hs, before, ts)
      requires forall d | d in world.entities.Values ::
        if d in finished then VisibleSoFar(d.visible, d.id, world.entities, hs[d], ts[d], world.entities.Keys)
        else d.visible == before[d]
      requires TaggedSoFar(raised, finished, world.entities, hs, ts)
      modifies e`visible, e`events
      ensures Fixed(views, hs, before, ts)
      ensures forall d | d in world.entities.Values ::
        if d in finished + {e} then VisibleSoFar(d.visible, d.id, world.entities, hs[d], ts[d], world.entities.Keys)
        else d.visible == before[d]
      ensures TaggedSoFar(raised + Tagged(e, r), finished + {e}, world.entities, hs, ts)
    {
      r := UpdateOne(e, effects.effects, views, ts[e]);
      TaggedStep(raised, finished, world.entities, hs, ts, e, r);
    }
  }

  /** Every tagged event was raised by a finished entity, as its pass allows. */
  ghost predicate TaggedSoFar(raised: seq<(Entity, EntityEvent)>, finished: set<Entity>, w: map<int, Entity>,
                              hs: map<Entity, map<int, bool>>, ts: map<Entity, map<int, Entity>>)
  {
    forall x | x in raised ::
      x.0 in finished && x.0 in hs && x.0 in ts && RaisedSoFar([x.1], x.0.id, w, hs[x.0], ts[x.0], w.Keys)
  }

  /** Appending a finished pass's events, tagged, keeps TaggedSoFar. */
  lemma TaggedStep(raised: seq<(Entity, EntityEvent)>, finished: set<Entity>, w: map<int, Entity>,
                   hs: map<Entity, map<int, bool>>, ts: map<Entity, map<int, Entity>>, e: Entity, r: seq<EntityEvent>)
    requires TaggedSoFar(raised, finished, w, hs, ts) && e in hs && e in ts
    requires RaisedSoFar(r, e.id, w, hs[e], ts[e], w.Keys)
    ensures TaggedSoFar(raised + Tagged(e, r), finished + {e}, w, hs, ts)
  {
    forall x | x in raised + Tagged(e, r)
      ensures x.0 in finished + {e} && x.0 in hs && x.0 in ts && RaisedSoFar([x.1], x.0.id, w, hs[x.0], ts[x.0], w.Keys)
    {
      if x !in raised {
        var i :| 0 <= i < |r| && Tagged(e, r)[i] == x;
        assert x == (e, r[i]);
      }
    }
  }

  /** The verdicts of the pass over an entity seen as `self`, with every
      other entity seen as `views` says: a world key is heard exactly when
      the reference verdict holds between the two views. */
  function VerdictsFrom(fx: map<Byte, Effect>, self: EntityView, w: map<int, Entity>, views: map<Entity, EntityView>,
                        withinRange: DistanceCheck): (h: map<int, bool>)
  {
    map k | k in w && w[k] in views :: Visible(fx, self, views[w[k]], withinRange)
  }

  /** The first half of PassSoFar: the visible set after examining the keys
      `done`. An examined candidate is present exactly when heard; any other
      key is present exactly when it was in the trimmed set `t`; a present key
      keeps its entry from `t`, or else holds the world's entity. */
  ghost predicate VisibleSoFar(visible: map<int, Entity>, selfId: int, w: map<int, Entity>, h: map<int, bool>,
                               t: map<int, Entity>, done: set<int>)
  {
    (forall k :: k in visible <==>
      if k in done && Candidate(w, selfId, k) then k in h && h[k] else k in t)
    && (forall k | k in visible :: visible[k] == if k in t then t[k] else w[k])
  }

  /** The second half: every event raised so far is the addition of a heard
      examined candidate that was absent or the removal of an unheard one
      that was present. */
  ghost predicate RaisedSoFar(raised: seq<EntityEvent>, selfId: int, w: map<int, Entity>, h: map<int, bool>,
                              t: map<int, Entity>, done: set<int>)
  {
    forall ev | ev in raised ::
      (ev.VisibleEntityAdded? && ev.added.id in done && Candidate(w, selfId, ev.added.id) && w[ev.added.id] == ev.added
       && ev.added.id !in t && ev.added.id in h && h[ev.added.id])
      || (ev.VisibleEntityRemoved? && ev.removed.id in done && Candidate(w, selfId, ev.removed.id) && w[ev.removed.id] == ev.removed
       && ev.removed.id in t && ev.removed.id in h && !h[ev.removed.id])
  }

  /** Every addition or removal due among the examined keys has been raised. */
  ghost predicate RaisedAllDue(raised: seq<EntityEvent>, selfId: int, w: map<int, Entity>, h: map<int, bool>,
                               t: map<int, Entity>, done: set<int>)
  {
    forall k | k in done && Candidate(w, selfId, k) && k in h ::
      (k !in t && h[k] ==> VisibleEntityAdded(w[k]) in raised)
      && (k in t && !h[k] ==> VisibleEntityRemoved(w[k]) in raised)
  }

  /** Where the pass over the entity `selfId`, whose visible set is now
      `visible`, stands once the keys `done` of the world `w` have been
      examined, starting from the trimmed set `t`; `h` holds the verdicts. */
  ghost predicate PassSoFar(visible: map<int, Entity>, selfId: int, w: map<int, Entity>, h: map<int, bool>,
                            t: map<int, Entity>, done: set<int>, raised: seq<EntityEvent>)
  {
    VisibleSoFar(visible, selfId, w, h, t, done) && RaisedSoFar(raised, selfId, w, h, t, done)
    && RaisedAllDue(raised, selfId, w, h, t, done)
  }

  /** RaisedSoFar holds of each event on its own. */
  lemma RaisedEach(raised: seq<EntityEvent>, selfId: int, w: map<int, Entity>, h: map<int, bool>,
                   t: map<int, Entity>, done: set<int>)
    requires RaisedSoFar(raised, selfId, w, h, t, done)
    ensures forall i | 0 <= i < |raised| :: RaisedSoFar([raised[i]], selfId, w, h, t, done)
  {
  }

  /** When every entity is stored under its id, an ordering of a world's
      entries lists each entity once: `pos` says where. */
  lemma EntityPositions(order: seq<(int, Entity)>, m: map<int, Entity>) returns (pos: map<Entity, int>)
    requires IsOrdering(order, Entries(m))
    requires forall k | k in m :: m[k].id == k
    ensures forall j | 0 <= j < |order| :: order[j].1 in m.Values && order[j].1 in pos && pos[order[j].1] == j
    ensures forall d | d in m.Values :: d in pos && 0 <= pos[d] < |order| && order[pos[d]].1 == d
  {
    OrderKeysDistinct(order, m);
    pos := map j | 0 <= j < |order| :: order[j].1 := j;
    forall j | 0 <= j < |order|
      ensures order[j].1 in m.Values && order[j].1 in pos && pos[order[j].1] == j
    {
      assert order[j] in Entries(m);
      forall l | 0 <= l < |order| && l != j
        ensures order[l].1 != order[j].1
      {
        assert order[l] in Entries(m);
      }
    }
    forall d | d in m.Values
      ensures d in pos && 0 <= pos[d] < |order| && order[pos[d]].1 == d
    {
      var j :| 0 <= j < |order| && order[j] == (d.id, d);
      assert order[j] in Entries(m) by {
        var k :| k in m && m[k] == d;
        assert (k, m[k]) in Entries(m);
      }
    }
  }

  /** Where each key of an ordering of a map's entries sits. */
  lemma Positions(order: seq<(int, Entity)>, m: map<int, Entity>) returns (pos: map<int, int>)
    requires IsOrdering(order, Entries(m))
    ensures forall j | 0 <= j < |order| :: order[j].0 in m && m[order[j].0] == order[j].1 && order[j].0 in pos && pos[order[j].0] == j
  {
    OrderKeysDistinct(order, m);
    pos := map j | 0 <= j < |order| :: order[j].0 := j;
    forall j | 0 <= j < |order|
      ensures order[j].0 in m && m[order[j].0] == order[j].1 && order[j].0 in pos && pos[order[j].0] == j
    {
      assert order[j] in Entries(m);
    }
  }

  /** The keys of an ordering of a map's entries are distinct. */
  lemma OrderKeysDistinct(order: seq<(int, Entity)>, m: map<int, Entity>)
    requires IsOrdering(order, Entries(m))
    ensures forall j, l | 0 <= j < l < |order| :: order[j].0 != order[l].0
  {
    forall j, l | 0 <= j < l < |order|
      ensures order[j].0 != order[l].0
    {
      assert order[j] in Entries(m) && order[l] in Entries(m);
    }
  }

  function Tagged(e: Entity, evs: seq<EntityEvent>): seq<(Entity, EntityEvent)>
  {
    seq(|evs|, i requires 0 <= i < |evs| => (e, evs[i]))
  }
}
