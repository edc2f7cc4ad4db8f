/** The server's registry of audio effects (AudioEffectSystem.cs): a
    Dictionary from a byte index to an effect, with OnEffectSet and
    OnEffectRemoved raised as the table changes. The raised events and the
    effects' Dispose calls are recorded in one log, in the order they happen. */
module AudioEffects {
  import opened Wrappers
  import opened Wire
  import opened DotNet
  import opened Effects

  datatype EffectEvent =
    | EffectSetRaised(index: Byte, effect: Effect)
    | EffectDisposed(index: Byte, effect: Effect)
    | EffectRemovedRaised(index: Byte, effect: Effect)

  /** The localization keys of the three exception messages. */
  const AddEffectMessage: string := "AudioEffectSystem.AddEffect"
  const RemoveEffectMessage: string := "AudioEffectSystem.RemoveEffect"
  const AvailableIdMessage: string := "AudioEffectSystem.AvailableId"

  /** The indexes GetLowestAvailableId tries: byte.MinValue up to, but not
      including, byte.MaxValue. */
  const IndexLimit: int := 255

  /** `i` is the smallest tried index that `keys` does not use. */
  predicate LowestFreeIndex(keys: set<Byte>, i: int)
  {
    0 <= i < IndexLimit && i !in keys && forall j: Byte | j < i :: j in keys
  }

  /** Every index GetLowestAvailableId tries is in use. */
  predicate AllIndexesTaken(keys: set<Byte>)
  {
    forall j: Byte | j < IndexLimit :: j in keys
  }

  /** What ClearEffects logs for the copied entries, in the copy's order:
      each effect is disposed, then OnEffectRemoved is raised for it. */
  function ClearEvents(order: seq<(Byte, Effect)>): seq<EffectEvent>
  {
    if order == [] then []
    else
      var last := order[|order| - 1];
      ClearEvents(order[..|order| - 1]) + [EffectDisposed(last.0, last.1), EffectRemovedRaised(last.0, last.1)]
  }

  class AudioEffectSystem {
    var effects: map<Byte, Effect>
    ghost var events: seq<EffectEvent>

    constructor()
      ensures effects == map[] && events == []
    {
      effects := map[];
      events := [];
    }

    /** TryAdd, else overwrite: the entry at `index` is `effect` afterwards, the
        effect it replaces is not disposed, and OnEffectSet is raised once. */
    method SetEffect(effect: Effect, index: Byte)
      modifies this
      ensures effects == old(effects)[index := effect]
      ensures events == old(events) + [EffectSetRaised(index, effect)]
    {
      effects := effects[index := effect];
      events := events + [EffectSetRaised(index, effect)];
    }

    /** An absent index throws and changes nothing; a present one is removed,
        its effect disposed, and OnEffectRemoved raised once. */
    method RemoveEffect(index: Byte) returns (o: Outcome)
      modifies this
      ensures index !in old(effects) ==>
        o == Threw(InvalidOperation(RemoveEffectMessage)) && effects == old(effects) && events == old(events)
      ensures index in old(effects) ==>
        o == Done && effects == old(effects) - {index}
        && events == old(events) + [EffectDisposed(index, old(effects)[index]), EffectRemovedRaised(index, old(effects)[index])]
    {
      if index !in effects {
        return Threw(InvalidOperation(RemoveEffectMessage));
      }
      var effect := effects[index];
      effects := effects - {index};
      events := events + [EffectDisposed(index, effect)];
      events := events + [EffectRemovedRaised(index, effect)];
      o := Done;
    }

    /** Copies the entries, empties the table, then disposes each copied effect
        and raises OnEffectRemoved for it, in the copy's order. */
    method ClearEffects() returns (order: seq<(Byte, Effect)>)
      modifies this
      ensures IsOrdering(order, Entries(old(effects)))
      ensures effects == map[]
      ensures events == old(events) + ClearEvents(order)
    {
      order := Enumerate(Entries(effects));
      effects := map[];
      for i := 0 to |order|
        invariant effects == map[]
        invariant events == old(events) + ClearEvents(order[..i])
      {
        assert order[..i + 1][..i] == order[..i];
        events := events + [EffectDisposed(order[i].0, order[i].1)];
        events := events + [EffectRemovedRaised(order[i].0, order[i].1)];
      }
      assert order[..|order|] == order;
    }

    /** Reset is ClearEffects. */
    method Reset() returns (order: seq<(Byte, Effect)>)
      modifies this
      ensures IsOrdering(order, Entries(old(effects)))
      ensures effects == map[]
      ensures events == old(events) + ClearEvents(order)
    {
      order := ClearEffects();
    }

    /** The first index from 0 to 254 that the table does not use; 255 is
        never tried, so a table using 0 .. 254 throws. */
    method GetLowestAvailableId() returns (r: Result<Byte>)
      ensures r.Ok? ==> LowestFreeIndex(effects.Keys, r.value)
      ensures r.Err? <==> AllIndexesTaken(effects.Keys)
      ensures r.Err? ==> r.error == InvalidOperation(AvailableIdMessage)
    {
      var i: Byte := 0;
      while i < IndexLimit
        invariant forall j: Byte | j < i :: j in effects
      {
        if i !in effects {
          return Ok(i);
        }
        i := i + 1;
      }
      return Err(InvalidOperation(AvailableIdMessage));
    }

    /** AddEffect as written: the check on TryAdd is inverted, so a successful
        insertion under the lowest free index throws (the effect stays in the
        table, no event is raised), and a failed one would return quietly. */
    method AddEffect(effect: Effect) returns (o: Outcome)
      modifies this`effects
      ensures AllIndexesTaken(old(effects).Keys) ==>
        o == Threw(InvalidOperation(AvailableIdMessage)) && effects == old(effects)
      ensures !AllIndexesTaken(old(effects).Keys) ==>
        o == Threw(InvalidOperation(AddEffectMessage))
        && exists i :: LowestFreeIndex(old(effects).Keys, i) && effects == old(effects)[i := effect]
    {
      var r := GetLowestAvailableId();
      if r.Err? {
        return Threw(r.error);
      }
      var id := r.value;
      if id !in effects {
        effects := effects[id := effect];
        return Threw(InvalidOperation(AddEffectMessage));
      }
      assert false;
      o := Done;
    }
  }

  // ---------------------------------------------------------------------------
  // Properties

  /** The lowest free index is unique, and it is never 255. */
  lemma LowestFreeIndexUnique(keys: set<Byte>, i: int, j: int)
    requires LowestFreeIndex(keys, i) && LowestFreeIndex(keys, j)
    ensures i == j && i != 255
  {
  }

  /** A table with fewer than 255 entries always has a free index. */
  lemma {:induction false} FreeIndexExists(keys: set<Byte>)
    requires |keys| < IndexLimit
    ensures !AllIndexesTaken(keys)
  {
    if AllIndexesTaken(keys) {
      TriedSize(IndexLimit);
      SubsetSize(TriedIndexes(IndexLimit), keys);
    }
  }

  /** The indexes 0 .. n - 1. */
  function TriedIndexes(n: nat): (r: set<Byte>)
    requires n <= 256
    ensures forall i: Byte :: i in r <==> i < n
  {
    if n == 0 then {} else TriedIndexes(n - 1) + {n - 1}
  }

  lemma {:induction false} TriedSize(n: nat)
    requires n <= 256
    ensures |TriedIndexes(n)| == n
  {
    if n > 0 {
      TriedSize(n - 1);
      assert n - 1 !in TriedIndexes(n - 1);
    }
  }

  /** ClearEffects disposes and removes each former entry and nothing else:
      an event is in its log exactly when it is the dispose or the removed
      event of an entry, and there are two events per entry, the dispose
      first. */
  lemma {:induction false} ClearEventsReach(order: seq<(Byte, Effect)>, ev: EffectEvent)
    ensures ev in ClearEvents(order) <==>
      !ev.EffectSetRaised? && (ev.index, ev.effect) in order
    ensures |ClearEvents(order)| == 2 * |order|
  {
    if order != [] {
      var init := order[..|order| - 1];
      ClearEventsReach(init, ev);
      assert forall x :: x in order <==> x in init || x == order[|order| - 1];
    }
  }

  /** The `k`-th entry's two events sit at positions 2k and 2k + 1. */
  lemma {:induction false} ClearEventsAt(order: seq<(Byte, Effect)>, k: int)
    requires 0 <= k < |order|
    ensures |ClearEvents(order)| == 2 * |order|
    ensures ClearEvents(order)[2 * k] == EffectDisposed(order[k].0, order[k].1)
    ensures ClearEvents(order)[2 * k + 1] == EffectRemovedRaised(order[k].0, order[k].1)
  {
    var init := order[..|order| - 1];
    ClearEventsReach(order, EffectDisposed(0, VisibilityEffect));
    ClearEventsReach(init, EffectDisposed(0, VisibilityEffect));
    if k < |order| - 1 {
      ClearEventsAt(init, k);
    }
  }

  /** Over a whole table, ClearEffects raises OnEffectRemoved exactly for the
      former entries. */
  lemma ClearRemovesEveryEntry(m: map<Byte, Effect>, order: seq<(Byte, Effect)>, index: Byte, effect: Effect)
    requires IsOrdering(order, Entries(m))
    ensures EffectRemovedRaised(index, effect) in ClearEvents(order) <==> index in m && m[index] == effect
    ensures |ClearEvents(order)| == 2 * |m|
  {
    ClearEventsReach(order, EffectRemovedRaised(index, effect));
    OrderingSize(order, Entries(m));
    EntriesSize(m);
  }

  /** An ordering is as long as the set it orders. */
  lemma {:induction false} OrderingSize<T>(order: seq<T>, s: set<T>)
    requires IsOrdering(order, s)
    ensures |order| == |s|
  {
    if order != [] {
      var last := order[|order| - 1];
      var init := order[..|order| - 1];
      assert last !in init;
      assert IsOrdering(init, s - {last});
      OrderingSize(init, s - {last});
    }
  }

  /** The entries of a table are those without one key, plus that key's. */
  lemma EntriesRemove(m: map<Byte, Effect>, k: Byte)
    requires k in m
    ensures Entries(m) == Entries(m - {k}) + {(k, m[k])}
    ensures (k, m[k]) !in Entries(m - {k})
  {
    var rest := m - {k};
    forall x | x in Entries(m)
      ensures x in Entries(rest) + {(k, m[k])}
    {
      if x.0 != k {
        assert x.0 in rest && rest[x.0] == x.1;
      }
    }
  }

  /** A table has as many entries as keys. */
  lemma {:induction false} EntriesSize(m: map<Byte, Effect>)
    ensures |Entries(m)| == |m|
  {
    if m != map[] {
      var k :| k in m;
      var rest := m - {k};
      EntriesSize(rest);
      EntriesRemove(m, k);
      assert |m| == |rest| + 1 by {
        assert m.Keys == rest.Keys + {k};
      }
    }
  }
}
