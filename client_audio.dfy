/** The client's AudioSystem (AudioSystem.cs): the playback mix over the
    visible client entities, and the client's own table of audio effects.
    The float stage of the mix (Pcm16ToFloat, ProcessEffects, AdjustVolume,
    PcmFloatTo16) is a `shape` parameter from an entity id and its samples to the
    samples that are mixed; the saturating 16-bit mix is modelled exactly. */
module ClientAudio {
  import opened Wrappers
  import opened Wire
  import opened DotNet
  import opened Effects
  import opened AudioEffects
  import opened Entities

  const AddFailedMessage: string := "Failed to add effect!"
  const RemoveFailedMessage: string := "Failed to remove effect!"

  // ---------------------------------------------------------------------------
  // 16-bit mixing

  /** `(short)Math.Clamp(x, short.MinValue, short.MaxValue)`. */
  function Clamp16(x: int): Int16
  {
    if x < -0x8000 then -0x8000 else if x > 0x7FFF then 0x7FFF else x
  }

  function Abs(x: int): nat
  {
    if x < 0 then -x else x
  }

  /** The clamp is the 16-bit sample nearest to the exact sum. */
  lemma ClampNearest(x: int, y: Int16)
    ensures Abs(Clamp16(x) - x) <= Abs(y - x)
    ensures -0x8000 <= x <= 0x7FFF ==> Clamp16(x) == x
  {
  }

  /** What Pcm16Mix leaves in `dst`: the first |src| samples are the clamped
      sums, the rest is untouched. */
  function Mixed(src: seq<Int16>, dst: seq<Int16>): (r: seq<Int16>)
    requires |src| <= |dst|
  {
    seq(|dst|, i requires 0 <= i < |dst| => if i < |src| then Clamp16(src[i] as int + dst[i]) else dst[i])
  }

  /** Mixing silence changes nothing. */
  lemma MixSilence(src: seq<Int16>, dst: seq<Int16>)
    requires |src| <= |dst| && forall i | 0 <= i < |src| :: src[i] == 0
    ensures Mixed(src, dst) == dst
  {
  }

  /** A sample sum that needs no clipping. */
  predicate Fits16(x: int)
  {
    -0x8000 <= x <= 0x7FFF
  }

  /** The sample of `s` at `i`, 0 past its end. */
  function At(s: seq<Int16>, i: int): int
  {
    if 0 <= i < |s| then s[i] else 0
  }

  /** Without clipping, mixing two sources does not depend on their order. */
  lemma MixCommutesWithoutClipping(a: seq<Int16>, b: seq<Int16>, dst: seq<Int16>)
    requires |a| <= |dst| && |b| <= |dst|
    requires forall i | 0 <= i < |dst| ::
      Fits16(At(a, i) + dst[i]) && Fits16(At(b, i) + dst[i]) && Fits16(At(a, i) + At(b, i) + dst[i])
    ensures Mixed(a, Mixed(b, dst)) == Mixed(b, Mixed(a, dst))
  {
    forall i | 0 <= i < |dst|
      ensures Mixed(a, Mixed(b, dst))[i] == Mixed(b, Mixed(a, dst))[i]
    {
      assert Fits16(At(a, i) + dst[i]) && Fits16(At(b, i) + dst[i]) && Fits16(At(a, i) + At(b, i) + dst[i]);
    }
  }

  /** With clipping it does: the order of the entity dictionary shows in the
      mix once a sum saturates. */
  lemma MixOrderMatters()
    ensures Mixed([-30000], Mixed([30000], [30000])) != Mixed([30000], Mixed([-30000], [30000]))
  {
    assert Mixed([30000], [30000]) == [0x7FFF];
    assert Mixed([-30000], [0x7FFF]) == [2767];
    assert Mixed([-30000], [30000]) == [0];
    assert Mixed([30000], [0]) == [30000];
  }

  /** `buffer.Slice(from, to - from).Clear()`. */
  method Silence(buffer: array<Int16>, from: nat, to: nat)
    requires from <= to <= buffer.Length
    modifies buffer
    ensures buffer[..] == Silenced(old(buffer[..]), from, to)
  {
    forall j | from <= j < to {
      buffer[j] := 0;
    }
  }

  /** Pcm16Mix: each of the first `count` samples of `dst` becomes the clamped
      sum of the two buffers. */
  method Pcm16Mix(src: array<Int16>, count: int, dst: array<Int16>)
    requires 0 <= count <= src.Length && count <= dst.Length
    modifies dst
    ensures dst[..] == Mixed(old(src[..count]), old(dst[..]))
  {
    ghost var s := src[..count];
    ghost var d := dst[..];
    for i := 0 to count
      invariant forall j | 0 <= j < i :: dst[j] == Clamp16(s[j] as int + d[j])
      invariant forall j | i <= j < dst.Length :: dst[j] == d[j]
      invariant forall j | i <= j < count :: src[j] == s[j]
    {
      var mixed := src[i] as int + dst[i];
      dst[i] := Clamp16(mixed);
    }
  }

  /** The frames mixed one after another, in enumeration order. */
  function MixFrames(dst: seq<Int16>, frames: seq<seq<Int16>>): (r: seq<Int16>)
    requires forall k | 0 <= k < |frames| :: |frames[k]| <= |dst|
    ensures |r| == |dst|
  {
    if frames == [] then dst
    else Mixed(frames[|frames| - 1], MixFrames(dst, frames[..|frames| - 1]))
  }

  /** Mixing one more frame mixes it over the frames before it. */
  lemma MixSnoc(dst: seq<Int16>, frames: seq<seq<Int16>>, frame: seq<Int16>)
    requires forall k | 0 <= k < |frames| :: |frames[k]| <= |dst|
    requires |frame| <= |dst|
    ensures (frames + [frame])[..|frames|] == frames
    ensures MixFrames(dst, frames + [frame]) == Mixed(frame, MixFrames(dst, frames))
    ensures Longest(frames + [frame]) == DotNet.Max(Longest(frames), |frame|)
  {
    assert (frames + [frame])[..|frames|] == frames;
  }

  /** The length of the longest frame, 0 for none. */
  function Longest(frames: seq<seq<Int16>>): (m: nat)
    ensures forall k | 0 <= k < |frames| :: |frames[k]| <= m
    ensures frames == [] ==> m == 0
    ensures frames != [] ==> exists k | 0 <= k < |frames| :: |frames[k]| == m
  {
    if frames == [] then 0
    else
      var m := Longest(frames[..|frames| - 1]);
      DotNet.Max(m, |frames[|frames| - 1]|)
  }

  /** The samples from `from` up to `to` set to 0. */
  function Silenced(s: seq<Int16>, from: nat, to: nat): (r: seq<Int16>)
    requires from <= to <= |s|
    ensures |r| == |s|
    ensures forall i | 0 <= i < |s| :: r[i] == if from <= i < to then 0 else s[i]
  {
    s[..from] + seq(to - from, _ => 0) + s[to..]
  }

  // ---------------------------------------------------------------------------
  // What one client entity contributes

  /** The samples a client entity's Read hands out: none while user-muted,
      otherwise up to `count` of the oldest buffered ones. */
  function Taken(userMuted: bool, output: seq<Int16>, count: nat): (r: seq<Int16>)
    ensures |r| <= count && r <= output
    ensures !userMuted && count > 0 && output != [] ==> r != []
  {
    if userMuted then [] else output[..DotNet.Min(count, |output|)]
  }

  /** What stays in its output buffer. */
  function Remaining(userMuted: bool, output: seq<Int16>, count: nat): (r: seq<Int16>)
    ensures !userMuted ==> Taken(userMuted, output, count) + r == output
    ensures userMuted ==> r == []
  {
    if userMuted then [] else output[DotNet.Min(count, |output|)..]
  }

  /** The speech events of the read state machine: raised on a change only. */
  function SpeechEvents(wasReading: bool, reading: bool): seq<EntityEvent>
  {
    if wasReading && !reading then [StoppedSpeaking]
    else if !wasReading && reading then [StartedSpeaking]
    else []
  }

  /** The visible client entities of the world, the ones the mix reads. */
  function Mixers(w: World): set<Entity>
    reads w, w.entities.Values
  {
    set e | e in w.entities.Values && IsClientKind(e.kind) && e.isVisible
  }

  /** The read state of a client entity. */
  datatype ReadState = ReadState(userMuted: bool, output: seq<Int16>, isReading: bool, events: seq<EntityEvent>)

  ghost function Snap(e: Entity): ReadState
    reads e
  {
    ReadState(e.userMuted, e.output, e.isReading, e.events)
  }

  ghost function Snaps(es: seq<Entity>): (r: seq<ReadState>)
    reads set e | e in es
    ensures |r| == |es| && forall k | 0 <= k < |es| :: r[k] == Snap(es[k])
  {
    seq(|es|, k requires 0 <= k < |es| reads set e | e in es => Snap(es[k]))
  }

  /** The entity's state after a Read of `count` from state `s`. */
  ghost predicate AfterRead(e: Entity, s: ReadState, count: nat)
    reads e
  {
    e.userMuted == s.userMuted
    && e.output == Remaining(s.userMuted, s.output, count)
    && e.isReading == (Taken(s.userMuted, s.output, count) != [])
    && e.events == s.events + SpeechEvents(s.isReading, e.isReading)
  }

  /** What an entity in state `s` adds to the mix. */
  function Contribution(id: int, s: ReadState, count: nat, shape: (int, seq<Int16>) -> seq<Int16>): seq<Int16>
  {
    shape(id, Taken(s.userMuted, s.output, count))
  }

  /** The float stage keeps the number of samples. */
  ghost predicate KeepsLength(shape: (int, seq<Int16>) -> seq<Int16>)
  {
    forall id, s :: |shape(id, s)| == |s|
  }

  // ---------------------------------------------------------------------------
  // The client's effect table holds possibly null effects.

  /** OnEffectSet (with the possibly null effect), an effect's Dispose, and
      OnEffectRemoved, in the order they happen. */
  datatype SlotEvent =
    | SlotSet(index: Byte, entry: Option<Effect>)
    | SlotDisposed(index: Byte, effect: Effect)
    | SlotRemoved(index: Byte, effect: Effect)

  /** The position of the first null entry, or the length when there is none. */
  function FirstNull(order: seq<(Byte, Option<Effect>)>): (n: nat)
    ensures n <= |order|
    ensures forall k | 0 <= k < n :: order[k].1.Some?
    ensures n < |order| ==> order[n].1.None?
  {
    if order == [] then 0
    else if order[0].1.None? then 0
    else 1 + FirstNull(order[1..])
  }

  /** Each non-null entry disposed, then announced, in order. */
  function RemovalEvents(order: seq<(Byte, Option<Effect>)>): (r: seq<SlotEvent>)
    requires forall k | 0 <= k < |order| :: order[k].1.Some?
    ensures |r| == 2 * |order|
    ensures forall k | 0 <= k < |order| ::
      r[2 * k] == SlotDisposed(order[k].0, order[k].1.value) && r[2 * k + 1] == SlotRemoved(order[k].0, order[k].1.value)
  {
    if order == [] then []
    else
      var last := order[|order| - 1];
      RemovalEvents(order[..|order| - 1]) + [SlotDisposed(last.0, last.1.value), SlotRemoved(last.0, last.1.value)]
  }

  /** One more non-null entry adds its disposal and its removal. */
  lemma RemovalSnoc(order: seq<(Byte, Option<Effect>)>, i: nat)
    requires i < |order| && forall k | 0 <= k <= i :: order[k].1.Some?
    ensures RemovalEvents(order[..i + 1]) ==
      RemovalEvents(order[..i]) + [SlotDisposed(order[i].0, order[i].1.value), SlotRemoved(order[i].0, order[i].1.value)]
  {
    assert order[..i + 1][..i] == order[..i];
  }

  /** Without null entries the whole copy is disposed and announced. */
  lemma ClearWithoutNulls(m: map<Byte, Option<Effect>>, order: seq<(Byte, Option<Effect>)>)
    requires IsOrdering(order, Entries(m))
    requires forall k | k in m :: m[k].Some?
    ensures FirstNull(order) == |order|
  {
    forall k | 0 <= k < |order|
      ensures order[k].1.Some?
    {
      assert order[k] in order;
    }
  }

  class AudioSystem {
    const world: World
    /** The effect table; None stands for a null entry. */
    var effects: map<Byte, Option<Effect>>
    ghost var events: seq<SlotEvent>
    /** `_entityBuffer`, the scratch buffer entities are read into. */
    var entityBuffer: array<Int16>

    constructor(world: World)
      ensures this.world == world && effects == map[] && events == [] && entityBuffer.Length == 0
      ensures fresh(entityBuffer)
    {
      this.world := world;
      effects := map[];
      events := [];
      entityBuffer := new Int16[0];
    }

    /** Read: the scratch buffer grows to `count` when shorter; each visible
        client entity, in dictionary order, is read, passed through the float
        stage and mixed in; the rest of the first `count` samples is silenced
        and `count` is reported in every case. `frames` are the mixed
        contributions, in the order they were mixed. `shape` is the float
        stage and `conceal` the loss-concealment frame of each entity's
        decoder, by entity id. */
    method Read(buffer: array<Int16>, count: int, shape: (int, seq<Int16>) -> seq<Int16>, conceal: int -> seq<Int16>)
      returns (read: int, ghost order: seq<Entity>, ghost snaps: seq<ReadState>, ghost frames: seq<seq<Int16>>)
      requires 0 <= count <= buffer.Length && buffer != entityBuffer && KeepsLength(shape)
      modifies this`entityBuffer, entityBuffer, buffer
      modifies Mixers(world)`output, Mixers(world)`isReading, Mixers(world)`events
      ensures read == count
      ensures entityBuffer.Length == DotNet.Max(old(entityBuffer.Length), count)
      ensures IsOrdering(order, old(Mixers(world)))
      ensures old(allocated(order)) && snaps == old(Snaps(order))
      ensures |frames| == |order|
      ensures forall k | 0 <= k < |order| ::
        frames[k] == Contribution(order[k].id, snaps[k], count, shape) && |frames[k]| <= count
      ensures buffer[..] == Silenced(MixFrames(old(buffer[..]), frames), Longest(frames), count)
      ensures forall k | 0 <= k < |order| :: AfterRead(order[k], snaps[k], count)
    {
      ghost var mixSet := Mixers(world);
      assert forall e | e in mixSet :: old(allocated(e));
      var mixers := Enumerate(Mixers(world));
      assert forall k | 0 <= k < |mixers| :: mixers[k] in mixSet;
      assert old(allocated(mixers));
      snaps := old(Snaps(mixers));
      order := mixers;
      read, frames := MixInto(buffer, count, shape, conceal, mixers, mixSet, snaps);
    }

    /** Read once the entities are enumerated: the scratch buffer is grown,
        the entities mixed, and the rest silenced. */
    method MixInto(buffer: array<Int16>, count: int, shape: (int, seq<Int16>) -> seq<Int16>, conceal: int -> seq<Int16>, mixers: seq<Entity>,
                   ghost mixSet: set<Entity>, ghost snaps: seq<ReadState>)
      returns (read: int, ghost frames: seq<seq<Int16>>)
      requires |mixers| == |snaps| && IsOrdering(mixers, mixSet)
      requires 0 <= count <= buffer.Length && buffer != entityBuffer && KeepsLength(shape)
      requires forall k | 0 <= k < |mixers| :: Snap(mixers[k]) == snaps[k]
      modifies this`entityBuffer, entityBuffer, buffer, mixSet`output, mixSet`isReading, mixSet`events
      ensures read == count
      ensures entityBuffer.Length == DotNet.Max(old(entityBuffer.Length), count)
      ensures |frames| == |mixers|
      ensures forall k | 0 <= k < |mixers| ::
        frames[k] == Contribution(mixers[k].id, snaps[k], count, shape) && |frames[k]| <= count
      ensures buffer[..] == Silenced(MixFrames(old(buffer[..]), frames), Longest(frames), count)
      ensures forall k | 0 <= k < |mixers| :: AfterRead(mixers[k], snaps[k], count)
    {
      GrowScratch(count);
      read, frames := MixAll(buffer, count, shape, conceal, mixers, mixSet, snaps);
      // A full read (read == count) leaves nothing to clear.
      Silence(buffer, read, count);
      read := count;
    }

    /** The scratch buffer is replaced by a fresh one of length `count` when
        it is shorter. */
    method GrowScratch(count: int)
      modifies this`entityBuffer
      ensures entityBuffer.Length == DotNet.Max(old(entityBuffer.Length), count)
      ensures entityBuffer == old(entityBuffer) || fresh(entityBuffer)
    {
      if entityBuffer.Length < count {
        entityBuffer := new Int16[count];
      }
    }

    /** Read's loop over the visible client entities. */
    method MixAll(buffer: array<Int16>, count: int, shape: (int, seq<Int16>) -> seq<Int16>, conceal: int -> seq<Int16>, mixers: seq<Entity>,
                  ghost mixSet: set<Entity>, ghost snaps: seq<ReadState>)
      returns (read: int, ghost frames: seq<seq<Int16>>)
      requires |mixers| == |snaps| && IsOrdering(mixers, mixSet)
      requires 0 <= count <= buffer.Length && count <= entityBuffer.Length && buffer != entityBuffer && KeepsLength(shape)
      requires forall k | 0 <= k < |mixers| :: Snap(mixers[k]) == snaps[k]
      modifies entityBuffer, buffer, mixSet`output, mixSet`isReading, mixSet`events
      ensures |frames| == |mixers| && 0 <= read <= count
      ensures forall k | 0 <= k < |mixers| ::
        frames[k] == Contribution(mixers[k].id, snaps[k], count, shape) && |frames[k]| <= count
      ensures buffer[..] == MixFrames(old(buffer[..]), frames) && read == Longest(frames)
      ensures forall k | 0 <= k < |mixers| :: AfterRead(mixers[k], snaps[k], count)
    {
      frames := [];
      ghost var start := buffer[..];
      read := 0;
      for i := 0 to |mixers|
        invariant |frames| == i && 0 <= read <= count
        invariant forall k | 0 <= k < i ::
          frames[k] == Contribution(mixers[k].id, snaps[k], count, shape) && |frames[k]| <= count
        invariant buffer[..] == MixFrames(start, frames) && read == Longest(frames)
        invariant forall k | 0 <= k < i :: AfterRead(mixers[k], snaps[k], count)
        invariant forall k | i <= k < |mixers| :: Snap(mixers[k]) == snaps[k]
      {
        read, frames := MixNext(buffer, count, shape, conceal, mixers, i, mixers[i], snaps, frames, start, read);
      }
    }

    /** One turn of Read's loop: the `i`-th entity is mixed in. */
    method MixNext(buffer: array<Int16>, count: int, shape: (int, seq<Int16>) -> seq<Int16>, conceal: int -> seq<Int16>, mixers: seq<Entity>, i: nat, e: Entity,
                   ghost snaps: seq<ReadState>, ghost frames: seq<seq<Int16>>, ghost start: seq<Int16>, read: int)
      returns (read': int, ghost frames': seq<seq<Int16>>)
      requires i < |mixers| == |snaps| && e == mixers[i] && (forall k | 0 <= k < |mixers| && k != i :: mixers[k] != e)
      requires 0 <= count <= buffer.Length && count <= entityBuffer.Length && buffer != entityBuffer && KeepsLength(shape)
      requires |frames| == i && 0 <= read <= count && |start| == buffer.Length
      requires forall k | 0 <= k < i ::
        frames[k] == Contribution(mixers[k].id, snaps[k], count, shape) && |frames[k]| <= count
      requires buffer[..] == MixFrames(start, frames) && read == Longest(frames)
      requires forall k | 0 <= k < i :: AfterRead(mixers[k], snaps[k], count)
      requires forall k | i <= k < |mixers| :: Snap(mixers[k]) == snaps[k]
      modifies e`output, e`isReading, e`events, entityBuffer, buffer
      ensures |frames'| == i + 1 && 0 <= read' <= count
      ensures forall k | 0 <= k < i + 1 ::
        frames'[k] == Contribution(mixers[k].id, snaps[k], count, shape) && |frames'[k]| <= count
      ensures buffer[..] == MixFrames(start, frames') && read' == Longest(frames')
      ensures forall k | 0 <= k < i + 1 :: AfterRead(mixers[k], snaps[k], count)
      ensures forall k | i + 1 <= k < |mixers| :: Snap(mixers[k]) == snaps[k]
    {
      ghost var frame := Contribution(e.id, snaps[i], count, shape);
      frames' := frames + [frame];
      assert |frame| == |Taken(snaps[i].userMuted, snaps[i].output, count)| <= count;
      MixSnoc(start, frames, frame);
      var entityRead := MixEntity(e, buffer, count, shape, conceal);
      read' := DotNet.Max(read, entityRead);
    }

    /** One entity of the mix: its Read into the scratch buffer, the float
        stage, and Pcm16Mix into `buffer` when it read anything. */
    method MixEntity(e: Entity, buffer: array<Int16>, count: int, shape: (int, seq<Int16>) -> seq<Int16>, conceal: int -> seq<Int16>)
      returns (n: int)
      requires 0 <= count <= buffer.Length && count <= entityBuffer.Length && buffer != entityBuffer && KeepsLength(shape)
      modifies e`output, e`isReading, e`events, entityBuffer, buffer
      ensures n == |Taken(old(e.userMuted), old(e.output), count)|
      ensures buffer[..] == Mixed(Contribution(e.id, old(Snap(e)), count, shape), old(buffer[..]))
      ensures AfterRead(e, old(Snap(e)), count)
    {
      n := e.Read(entityBuffer, count, conceal(e.id));
      if n <= 0 {
        return;
      }
      var frame := shape(e.id, entityBuffer[..n]);
      forall i | 0 <= i < n {
        entityBuffer[i] := frame[i];
      }
      Pcm16Mix(entityBuffer, n, buffer);
    }

    // -------------------------------------------------------------------------
    // The effect table

    /** SetEffect: TryAdd, else overwrite; OnEffectSet is raised either way,
        also for a null effect. */
    method SetEffect(index: Byte, effect: Option<Effect>)
      modifies this`effects, this`events
      ensures effects == old(effects)[index := effect]
      ensures events == old(events) + [SlotSet(index, effect)]
    {
      effects := effects[index := effect];
      events := events + [SlotSet(index, effect)];
    }

    /** TryGetEffect: GetValueOrDefault, found when that is not null. */
    method TryGetEffect(index: Byte) returns (found: bool, effect: Option<Effect>)
      ensures effect == (if index in effects then effects[index] else None)
      ensures found <==> index in effects && effects[index].Some?
      ensures found <==> effect.Some?
    {
      effect := if index in effects then effects[index] else None;
      found := effect.Some?;
    }

    /** RemoveEffect: an absent index throws and changes nothing. A present
        entry is removed; a null one then throws on Dispose, a real effect is
        disposed and announced with OnEffectRemoved. */
    method RemoveEffect(index: Byte) returns (o: Outcome)
      modifies this`effects, this`events
      ensures index !in old(effects) ==>
        o == Threw(InvalidOperation(RemoveFailedMessage)) && effects == old(effects) && events == old(events)
      ensures index in old(effects) ==> effects == old(effects) - {index}
      ensures index in old(effects) && old(effects)[index].None? ==>
        o == Threw(NullReference) && events == old(events)
      ensures index in old(effects) && old(effects)[index].Some? ==>
        o == Done
        && events == old(events) + [SlotDisposed(index, old(effects)[index].value), SlotRemoved(index, old(effects)[index].value)]
    {
      if index !in effects {
        return Threw(InvalidOperation(RemoveFailedMessage));
      }
      var effect := effects[index];
      effects := effects - {index};
      if effect.None? {
        return Threw(NullReference);
      }
      events := events + [SlotDisposed(index, effect.value), SlotRemoved(index, effect.value)];
      o := Done;
    }

    /** ClearEffects: copies the entries and empties the table, then disposes
        and announces each copied effect in the copy's order; the first null
        entry throws and ends the loop. */
    method ClearEffects() returns (order: seq<(Byte, Option<Effect>)>, o: Outcome)
      modifies this`effects, this`events
      ensures IsOrdering(order, Entries(old(effects)))
      ensures effects == map[]
      ensures events == old(events) + RemovalEvents(order[..FirstNull(order)])
      ensures o == if FirstNull(order) < |order| then Threw(NullReference) else Done
    {
      order := Enumerate(Entries(effects));
      effects := map[];
      o := DisposeEach(order);
    }

    /** ClearEffects' loop over the copied entries. */
    method DisposeEach(order: seq<(Byte, Option<Effect>)>) returns (o: Outcome)
      modifies this`events
      ensures events == old(events) + RemovalEvents(order[..FirstNull(order)])
      ensures o == if FirstNull(order) < |order| then Threw(NullReference) else Done
    {
      for i := 0 to |order|
        invariant i <= FirstNull(order)
        invariant events == old(events) + RemovalEvents(order[..i])
      {
        var effect := order[i].1;
        if effect.None? {
          return Threw(NullReference);
        }
        RemovalSnoc(order, i);
        events := events + [SlotDisposed(order[i].0, effect.value), SlotRemoved(order[i].0, effect.value)];
      }
      assert order[..|order|] == order;
      o := Done;
    }

    /** Dispose: ClearEffects, whose removals are still announced, before the
        handlers are dropped; an exception from it propagates. */
    method Dispose() returns (order: seq<(Byte, Option<Effect>)>, o: Outcome)
      modifies this`effects, this`events
      ensures IsOrdering(order, Entries(old(effects)))
      ensures effects == map[] && events == old(events) + RemovalEvents(order[..FirstNull(order)])
      ensures o == if FirstNull(order) < |order| then Threw(NullReference) else Done
    {
      order, o := ClearEffects();
    }

    /** The first index from 0 to 254 that the table does not use; a null
        entry occupies its index. */
    method GetLowestAvailableId() returns (r: Result<Byte>)
      ensures r.Ok? ==> LowestFreeIndex(effects.Keys, r.value)
      ensures r.Err? <==> AllIndexesTaken(effects.Keys)
      ensures r.Err? ==> r.error == InvalidOperation(NoIdMessage)
    {
      for i: Byte := 0 to IndexLimit
        invariant forall j: Byte | j < i :: j in effects
      {
        if i !in effects {
          return Ok(i);
        }
      }
      return Err(InvalidOperation(NoIdMessage));
    }

    /** AddEffect as written: the TryAdd check is inverted, so an effect that
        is added under the lowest free index throws, and no event is raised. */
    method AddEffect(effect: Effect) returns (o: Outcome)
      modifies this`effects
      ensures AllIndexesTaken(old(effects).Keys) ==>
        o == Threw(InvalidOperation(NoIdMessage)) && effects == old(effects)
      ensures !AllIndexesTaken(old(effects).Keys) ==>
        o == Threw(InvalidOperation(AddFailedMessage))
        && exists i :: LowestFreeIndex(old(effects).Keys, i) && effects == old(effects)[i := Some(effect)]
    {
      var r := GetLowestAvailableId();
      if r.Err? {
        return Threw(r.error);
      }
      var id := r.value;
      if id !in effects {
        effects := effects[id := Some(effect)];
        return Threw(InvalidOperation(AddFailedMessage));
      }
      assert false;
      o := Done;
    }
  }

  /** Whatever the entities hold, a read reports the full `count`; past the
      longest contribution the buffer is silent. */
  lemma SilenceAfterLongest(dst: seq<Int16>, frames: seq<seq<Int16>>, count: nat, i: int)
    requires count <= |dst| && forall k | 0 <= k < |frames| :: |frames[k]| <= count
    requires Longest(frames) <= i < count
    ensures Silenced(MixFrames(dst, frames), Longest(frames), count)[i] == 0
  {
  }
}
