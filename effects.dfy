/** The audio effects that gate visibility: VisibilityEffect.cs and
    ProximityEffect.cs (DirectionalEffect appears only as a kind that cannot
    veto visibility). An effect is a value; the effect tables key them by a byte. */
module Effects {
  import opened Wrappers
  import opened Wire
  import opened Enums
  import opened DotNet

  datatype Effect =
    | ProximityEffect(bitmask: UInt64, minRange: Int32, maxRange: Int32)
    | VisibilityEffect
    | DirectionalEffect

  /** `new ProximityEffect()`: ranges 0 and a Bitmask of all ones. */
  const NewProximityEffect: Effect := ProximityEffect(UInt64Max, 0, 0)

  /** The `EffectType` property, when Enums.cs declares a member for it.
      `EffectType.Visibility` and `EffectType.Directional` are not declared. */
  function DeclaredEffectType(e: Effect): (t: Option<EffectType>)
    ensures t.Some? <==> e.ProximityEffect?
    ensures t.Some? ==> t.value == EffectProximity
  {
    match e
    case ProximityEffect(_, _, _) => Some(EffectProximity)
    case VisibilityEffect => None
    case DirectionalEffect => None
  }

  /** The name of the `EffectType` member each class returns. */
  function EffectTypeMemberName(e: Effect): string
  {
    match e
    case ProximityEffect(_, _, _) => "Proximity"
    case VisibilityEffect => "Visibility"
    case DirectionalEffect => "Directional"
  }

  /** The classes that implement IVisible and so may veto visibility. */
  predicate CanVeto(e: Effect)
  {
    e.ProximityEffect? || e.VisibilityEffect?
  }

  /** What the effects read of an entity. `effectBitmask` is read by
      VisibilityEffect but declared on no entity class of this model. */
  datatype EntityView = EntityView(
    talkBitmask: UInt64,
    listenBitmask: UInt64,
    effectBitmask: UInt32,
    worldId: string,
    position: Vector3)

  /** `Vector3.Distance(from, to) <= maxRange`, a floating-point comparison the
      model takes as given. */
  type DistanceCheck = (Vector3, Vector3, Int32) -> bool

  /** VisibilityEffect.Visibility(from, to, effectBitmask). */
  function VisibilityEffectVisible(from: EntityView, to: EntityView, effectBitmask: UInt32): (visible: bool)
    ensures And(effectBitmask, And(And(And(from.talkBitmask, to.listenBitmask), from.effectBitmask), to.effectBitmask)) == 0
      ==> visible
    ensures And(effectBitmask, And(And(And(from.talkBitmask, to.listenBitmask), from.effectBitmask), to.effectBitmask)) != 0
      ==> (visible <==> !IsNullOrWhiteSpace(from.worldId) && !IsNullOrWhiteSpace(to.worldId) && from.worldId == to.worldId)
  {
    var bitmask := And(And(And(from.talkBitmask, to.listenBitmask), from.effectBitmask), to.effectBitmask);
    if And(effectBitmask, bitmask) == 0 then true
    else !IsNullOrWhiteSpace(from.worldId) && !IsNullOrWhiteSpace(to.worldId) && from.worldId == to.worldId
  }

  /** ProximityEffect.Visibility(from, to): the gate is open unless the talk,
      listen and effect bitmasks share a bit; then only distance decides. */
  function ProximityVisible(bitmask: UInt64, maxRange: Int32, from: EntityView, to: EntityView, withinRange: DistanceCheck): bool
  {
    var shared := And(from.talkBitmask, to.listenBitmask);
    if And(shared, bitmask) == 0 then true
    else withinRange(from.position, to.position, maxRange)
  }

  /** The veto an effect registered under `key` casts on `from` being heard by `to`. */
  function EffectAllows(e: Effect, key: Byte, from: EntityView, to: EntityView, withinRange: DistanceCheck): bool
  {
    match e
    case ProximityEffect(bitmask, _, maxRange) => ProximityVisible(bitmask, maxRange, from, to, withinRange)
    case VisibilityEffect => VisibilityEffectVisible(from, to, key)
    case DirectionalEffect => true
  }

  /** An effect that cannot veto never does, and neither MinRange nor the world
      ids play a part in a proximity effect's verdict. */
  lemma EffectAllowsFacts(e: Effect, key: Byte, from: EntityView, to: EntityView, withinRange: DistanceCheck, minRange: Int32, worldId: string)
    ensures !CanVeto(e) ==> EffectAllows(e, key, from, to, withinRange)
    ensures e.ProximityEffect? ==>
      EffectAllows(e.(minRange := minRange), key, from.(worldId := worldId), to, withinRange)
        == EffectAllows(e, key, from, to, withinRange)
    ensures e.ProximityEffect? && And(And(from.talkBitmask, to.listenBitmask), e.bitmask) == 0
      ==> EffectAllows(e, key, from, to, withinRange)
    ensures e.ProximityEffect? && And(And(from.talkBitmask, to.listenBitmask), e.bitmask) != 0
      ==> (EffectAllows(e, key, from, to, withinRange) <==> withinRange(from.position, to.position, e.maxRange))
  {
  }

  /** A disabled visibility effect (no shared bit with `key`) lets everyone through,
      whatever the world ids; an enabled one needs equal, non-blank world ids. */
  lemma VisibilityEffectNeedsSameWorld(from: EntityView, to: EntityView, key: Byte)
    requires !IsNullOrWhiteSpace(from.worldId) && from.worldId != to.worldId
    ensures VisibilityEffectVisible(from, to, key)
      <==> And(key, And(And(And(from.talkBitmask, to.listenBitmask), from.effectBitmask), to.effectBitmask)) == 0
  {
  }

  /** `Process` of the base ProximityEffect throws; VisibilityEffect's is empty. */
  function Process(e: Effect): (o: Outcome)
    ensures e.ProximityEffect? ==> o == Threw(NotSupported)
    ensures !e.ProximityEffect? ==> o == Done
  {
    if e.ProximityEffect? then Threw(NotSupported) else Done
  }

  /** `Serialize`: a proximity effect writes Bitmask, MinRange and MaxRange;
      the other two write nothing. */
  function SerializeEffect(e: Effect): seq<Byte>
  {
    match e
    case ProximityEffect(bitmask, minRange, maxRange) => PutULong(bitmask) + PutInt(minRange) + PutInt(maxRange)
    case VisibilityEffect => []
    case DirectionalEffect => []
  }

  /** `Deserialize` into an existing effect object: the properties are assigned
      one read at a time, so a read past the end leaves the earlier ones
      assigned. The second component is the rest of the data, or None for the
      exception. */
  function DeserializeEffect(e: Effect, bs: seq<Byte>): (Effect, Option<seq<Byte>>)
  {
    match e
    case ProximityEffect(_, _, _) =>
      (match GetULong(bs)
       case None => (e, None)
       case Some((bitmask, r1)) =>
         match GetInt(r1)
         case None => (e.(bitmask := bitmask), None)
         case Some((minRange, r2)) =>
           match GetInt(r2)
           case None => (e.(bitmask := bitmask, minRange := minRange), None)
           case Some((maxRange, r3)) => (ProximityEffect(bitmask, minRange, maxRange), Some(r3)))
    case VisibilityEffect => (e, Some(bs))
    case DirectionalEffect => (e, Some(bs))
  }

  /** Reading back what an effect of the same kind wrote restores it exactly. */
  lemma EffectRoundTrip(current: Effect, e: Effect, rest: seq<Byte>)
    requires current.ProximityEffect? == e.ProximityEffect?
    requires current.VisibilityEffect? == e.VisibilityEffect?
    ensures DeserializeEffect(current, SerializeEffect(e) + rest) == (e, Some(rest))
  {
    if e.ProximityEffect? {
      var tail := PutInt(e.maxRange) + rest;
      assert SerializeEffect(e) + rest == PutULong(e.bitmask) + (PutInt(e.minRange) + tail);
      ULongRoundTrip(e.bitmask, PutInt(e.minRange) + tail);
      IntRoundTrip(e.minRange, tail);
      IntRoundTrip(e.maxRange, rest);
    } else {
      assert SerializeEffect(e) + rest == rest;
    }
  }
}
