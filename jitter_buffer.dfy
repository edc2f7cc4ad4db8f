/** The client's per-entity reorder buffer (JitterBuffer.cs). Frames are kept
    in a list whose first node holds the highest sequence number; `Get`
    delivers from the last node. `cursor` is the 16-bit sequence number the
    buffer waits for next. The linked list is a sequence here, index 0 being
    `First`. */
module Jitter {
  import opened Wrappers
  import opened Wire

  /** A received frame; `receivedTime` is the UtcNow (ms) of its construction. */
  datatype JitterPacket = JitterPacket(sequenceId: UInt32, receivedTime: int, data: seq<Byte>)

  /** `seq > uint.MaxValue / 2 + uint.MaxValue / 4`: the quarter just before the wrap. */
  predicate IsBeforeWrapAround(sequenceId: int)
  {
    sequenceId > UInt32Max / 2 + UInt32Max / 4
  }

  /** `seq < uint.MaxValue / 4`: the quarter just after the wrap. */
  predicate IsAfterWrapAround(sequenceId: int)
  {
    sequenceId < UInt32Max / 4
  }

  /** Neither wrap zone. */
  predicate InMiddleZone(sequenceId: int)
  {
    !IsBeforeWrapAround(sequenceId) && !IsAfterWrapAround(sequenceId)
  }

  lemma WrapZoneBounds()
    ensures forall s :: IsBeforeWrapAround(s) <==> s > 3_221_225_470
    ensures forall s :: IsAfterWrapAround(s) <==> s < 1_073_741_823
  {
  }

  /** The scan of `Add` from node `i` on; `lastSeq` is the sequence number of
      `Last`. It inserts before the first node that the new frame should
      precede, stops at a node with the same number, and otherwise runs off
      the end without inserting. */
  function ScanFrom(data: seq<JitterPacket>, current: JitterPacket, i: nat, lastSeq: UInt32): seq<JitterPacket>
    requires i <= |data|
    decreases |data| - i
  {
    if i == |data| then data
    else if IsBeforeWrapAround(current.sequenceId) && IsBeforeWrapAround(lastSeq) && IsAfterWrapAround(data[i].sequenceId) then
      ScanFrom(data, current, i + 1, lastSeq)
    else if (IsBeforeWrapAround(data[i].sequenceId) && IsAfterWrapAround(current.sequenceId))
         || current.sequenceId > data[i].sequenceId then
      data[..i] + [current] + data[i..]
    else if current.sequenceId == data[i].sequenceId then data
    else ScanFrom(data, current, i + 1, lastSeq)
  }

  /** The list after `Add(current)`, given the list and cursor before. */
  function AddSpec(data: seq<JitterPacket>, cursor: Option<UInt16>, current: JitterPacket): seq<JitterPacket>
  {
    if |data| == 0 then [current]
    else
      var first := data[0];
      var last := data[|data| - 1];
      if cursor.Some? && cursor.value >= current.sequenceId
         && (last.sequenceId > cursor.value || (IsAfterWrapAround(last.sequenceId) && IsBeforeWrapAround(cursor.value))) then
        data + [current]
      else if IsBeforeWrapAround(last.sequenceId) && !IsAfterWrapAround(first.sequenceId) && IsAfterWrapAround(current.sequenceId) then
        [current] + data
      else ScanFrom(data, current, 0, last.sequenceId)
  }

  /** What `Get` does: the outcome (no frame, a frame, or the overflow of the
      checked increment), the new list and the new cursor. */
  datatype GetStep = GetStep(result: Result<Option<JitterPacket>>, data: seq<JitterPacket>, cursor: Option<UInt16>)

  function GetSpec(data: seq<JitterPacket>, cursor: Option<UInt16>, maxDropOutTime: int, now: int): GetStep
  {
    if |data| == 0 then GetStep(Ok(None), data, cursor)
    else
      var last := data[|data| - 1];
      if cursor.Some? && cursor.value != last.sequenceId && now - last.receivedTime < maxDropOutTime then
        GetStep(Ok(None), data, cursor)
      else if last.sequenceId == UInt32Max then
        GetStep(Err(Overflow), data[..|data| - 1], cursor)
      else
        GetStep(Ok(Some(last)), data[..|data| - 1], Some((last.sequenceId + 1) % 0x1_0000))
  }

  class JitterBuffer {
    const maxDropOutTime: int
    var data: seq<JitterPacket>
    var cursor: Option<UInt16>

    constructor(maxDropOutTime: int)
      ensures this.maxDropOutTime == maxDropOutTime
      ensures data == [] && cursor == None
    {
      this.maxDropOutTime := maxDropOutTime;
      data := [];
      cursor := None;
    }

    method Add(current: JitterPacket)
      modifies this
      ensures data == AddSpec(old(data), old(cursor), current)
      ensures cursor == old(cursor)
    {
      if |data| == 0 {
        data := [current];
        return;
      }
      var last := data[|data| - 1];
      if cursor.Some? && cursor.value >= current.sequenceId {
        if last.sequenceId > cursor.value || (IsAfterWrapAround(last.sequenceId) && IsBeforeWrapAround(cursor.value)) {
          data := data + [current];
          return;
        }
      }
      if IsBeforeWrapAround(last.sequenceId) && !IsAfterWrapAround(data[0].sequenceId) && IsAfterWrapAround(current.sequenceId) {
        data := [current] + data;
        return;
      }
      var i := 0;
      while i < |data|
        invariant 0 <= i <= |data| && data == old(data)
        invariant ScanFrom(data, current, 0, last.sequenceId) == ScanFrom(data, current, i, last.sequenceId)
        decreases |data| - i
      {
        var node := data[i];
        if IsBeforeWrapAround(current.sequenceId) && IsBeforeWrapAround(last.sequenceId) && IsAfterWrapAround(node.sequenceId) {
          i := i + 1;
          continue;
        }
        if (IsBeforeWrapAround(node.sequenceId) && IsAfterWrapAround(current.sequenceId)) || current.sequenceId > node.sequenceId {
          data := data[..i] + [current] + data[i..];
          return;
        }
        if current.sequenceId == node.sequenceId {
          return;
        }
        i := i + 1;
      }
    }

    method Get(now: int) returns (r: Result<Option<JitterPacket>>)
      modifies this
      ensures GetStep(r, data, cursor) == GetSpec(old(data), old(cursor), maxDropOutTime, now)
    {
      if |data| == 0 {
        return Ok(None);
      }
      var last := data[|data| - 1];
      if cursor.Some? && cursor.value != last.sequenceId {
        if now - last.receivedTime < maxDropOutTime {
          return Ok(None);
        }
      }
      data := data[..|data| - 1];
      if last.sequenceId == UInt32Max {
        return Err(Overflow);
      }
      cursor := Some((last.sequenceId + 1) % 0x1_0000);
      r := Ok(Some(last));
    }

    method Reset()
      modifies this
      ensures data == [] && cursor == None
    {
      cursor := None;
      data := [];
    }
  }

  // ---------------------------------------------------------------------------
  // Properties of Add

  predicate IsInsertion(r: seq<JitterPacket>, data: seq<JitterPacket>, current: JitterPacket)
  {
    exists k :: 0 <= k <= |data| && r == data[..k] + [current] + data[k..]
  }

  lemma {:induction false} ScanFromShape(data: seq<JitterPacket>, current: JitterPacket, i: nat, lastSeq: UInt32)
    requires i <= |data|
    ensures var r := ScanFrom(data, current, i, lastSeq); r == data || IsInsertion(r, data, current)
    decreases |data| - i
  {
    if i < |data| {
      var r := ScanFrom(data, current, i, lastSeq);
      if r != data && r == data[..i] + [current] + data[i..] {
        assert IsInsertion(r, data, current);
      } else if r != data {
        ScanFromShape(data, current, i + 1, lastSeq);
      }
    }
  }

  /** `Add` never removes a frame and adds at most the new one: the list is
      unchanged (the frame dropped) or the frame is inserted at one place. */
  lemma AddInsertsAtMostOnce(data: seq<JitterPacket>, cursor: Option<UInt16>, current: JitterPacket)
    ensures var r := AddSpec(data, cursor, current); r == data || IsInsertion(r, data, current)
    ensures |AddSpec(data, cursor, current)| <= |data| + 1
  {
    var r := AddSpec(data, cursor, current);
    if |data| == 0 {
      assert r == data[..0] + [current] + data[0..];
    } else {
      var last := data[|data| - 1];
      if r == data + [current] {
        assert r == data[..|data|] + [current] + data[|data|..];
      } else if r == [current] + data && IsBeforeWrapAround(last.sequenceId) && !IsAfterWrapAround(data[0].sequenceId) && IsAfterWrapAround(current.sequenceId) {
        assert r == data[..0] + [current] + data[0..];
      } else {
        ScanFromShape(data, current, 0, last.sequenceId);
      }
    }
  }

  /** First to Last, sequence numbers strictly decrease. */
  predicate StrictlyDescending(data: seq<JitterPacket>)
  {
    forall i, j | 0 <= i < j < |data| :: data[i].sequenceId > data[j].sequenceId
  }

  predicate AllInMiddleZone(data: seq<JitterPacket>)
  {
    forall i | 0 <= i < |data| :: InMiddleZone(data[i].sequenceId)
  }

  /** `k` is the first node whose sequence number is smaller than the new
      frame's. */
  predicate FirstSmallerAt(data: seq<JitterPacket>, current: JitterPacket, k: int)
  {
    0 <= k < |data| && data[k].sequenceId < current.sequenceId
    && forall j | 0 <= j < k :: data[j].sequenceId > current.sequenceId
  }

  /** Away from the wrap zones the scan is a plain ordered insertion: before
      the first smaller node, unless the number is present or every node is
      larger. */
  lemma {:induction false} ScanFromMiddle(data: seq<JitterPacket>, current: JitterPacket, i: nat, lastSeq: UInt32)
    requires i <= |data|
    requires StrictlyDescending(data) && AllInMiddleZone(data) && InMiddleZone(current.sequenceId)
    requires forall j | 0 <= j < i :: data[j].sequenceId > current.sequenceId
    ensures StrictlyDescending(ScanFrom(data, current, i, lastSeq))
    ensures (exists j | 0 <= j < |data| :: data[j].sequenceId == current.sequenceId) ==> ScanFrom(data, current, i, lastSeq) == data
    ensures (forall j | 0 <= j < |data| :: data[j].sequenceId > current.sequenceId) ==> ScanFrom(data, current, i, lastSeq) == data
    ensures forall k | FirstSmallerAt(data, current, k) :: ScanFrom(data, current, i, lastSeq) == data[..k] + [current] + data[k..]
    decreases |data| - i
  {
    if i < |data| {
      forall k | FirstSmallerAt(data, current, k) && k != i
        ensures k > i && data[i].sequenceId > current.sequenceId
      {
      }
      if current.sequenceId > data[i].sequenceId {
        var r := data[..i] + [current] + data[i..];
        assert forall j | 0 <= j < |r| :: r[j] == (if j < i then data[j] else if j == i then current else data[j - 1]);
        forall j | i <= j < |data| ensures data[j].sequenceId < current.sequenceId {
          if j > i {
            assert data[i].sequenceId > data[j].sequenceId;
          }
        }
      } else if current.sequenceId == data[i].sequenceId {
      } else {
        ScanFromMiddle(data, current, i + 1, lastSeq);
      }
    }
  }

  /** Away from the wrap zones and with descending contents: the list stays
      strictly descending, a frame whose number is already present is dropped,
      and so is a frame older than everything buffered, since the scan has no
      fallback append; any other frame is inserted before the first node with
      a smaller number. */
  lemma AddKeepsDescending(data: seq<JitterPacket>, cursor: Option<UInt16>, current: JitterPacket)
    requires StrictlyDescending(data) && AllInMiddleZone(data) && InMiddleZone(current.sequenceId)
    ensures StrictlyDescending(AddSpec(data, cursor, current))
    ensures (exists j | 0 <= j < |data| :: data[j].sequenceId == current.sequenceId) ==> AddSpec(data, cursor, current) == data
    ensures 0 < |data| && (forall j | 0 <= j < |data| :: data[j].sequenceId > current.sequenceId) ==> AddSpec(data, cursor, current) == data
    ensures forall k | FirstSmallerAt(data, current, k) :: AddSpec(data, cursor, current) == data[..k] + [current] + data[k..]
  {
    if |data| > 0 {
      ScanFromMiddle(data, current, 0, data[|data| - 1].sequenceId);
    }
  }

  // ---------------------------------------------------------------------------
  // Properties of Get

  /** An empty buffer yields nothing and stays as it is. */
  lemma GetEmpty(cursor: Option<UInt16>, maxDropOutTime: int, now: int)
    ensures GetSpec([], cursor, maxDropOutTime, now) == GetStep(Ok(None), [], cursor)
  {
  }

  /** A delivered frame is `Last`; it leaves the list and the cursor becomes
      its successor cut to 16 bits. A frame at uint.MaxValue is removed but the
      increment throws. A missing expected frame is waited for until the
      oldest frame is `maxDropOutTime` old. */
  lemma GetDelivers(data: seq<JitterPacket>, cursor: Option<UInt16>, maxDropOutTime: int, now: int)
    requires |data| > 0
    ensures var s := GetSpec(data, cursor, maxDropOutTime, now); var last := data[|data| - 1];
      && (s.result == Ok(None) <==> cursor.Some? && cursor.value != last.sequenceId && now - last.receivedTime < maxDropOutTime)
      && (s.result == Ok(None) ==> s.data == data && s.cursor == cursor)
      && (s.result.Ok? && s.result.value.Some? ==>
            s.result.value.value == last && s.data == data[..|data| - 1]
            && s.cursor == Some((last.sequenceId + 1) % 0x1_0000))
      && (s.result.Err? <==> !(s.result == Ok(None)) && last.sequenceId == UInt32Max)
  {
  }

  /** Because the cursor keeps only 16 bits, once sequence numbers pass 65535
      the expected number never matches, and every frame waits out the full
      drop-out time. */
  lemma HighSequenceAlwaysWaits(data: seq<JitterPacket>, c: UInt16, maxDropOutTime: int, now: int)
    requires |data| > 0 && data[|data| - 1].sequenceId > UInt16Max
    requires now - data[|data| - 1].receivedTime < maxDropOutTime
    ensures GetSpec(data, Some(c), maxDropOutTime, now).result == Ok(None)
  {
  }

  /** Frames 5, 3, 4 arriving in that order into an empty buffer: 3 and 4 are
      older than everything buffered and are dropped, so the buffer delivers
      only 5 and then nothing. */
  lemma FiveThreeFour(time: int, payload: seq<Byte>, maxDropOutTime: int, now: int)
    ensures var p5 := JitterPacket(5, time, payload);
      var d := AddSpec(AddSpec(AddSpec([], None, p5), None, JitterPacket(3, time, payload)), None, JitterPacket(4, time, payload));
      && d == [p5]
      && GetSpec(d, None, maxDropOutTime, now) == GetStep(Ok(Some(p5)), [], Some(6))
      && GetSpec([], Some(6), maxDropOutTime, now).result == Ok(None)
  {
    var p5 := JitterPacket(5, time, payload);
    var p3 := JitterPacket(3, time, payload);
    var p4 := JitterPacket(4, time, payload);
    assert AddSpec([], None, p5) == [p5];
    assert ScanFrom([p5], p3, 1, 5) == [p5];
    assert AddSpec([p5], None, p3) == [p5];
    assert ScanFrom([p5], p4, 1, 5) == [p5];
    assert AddSpec([p5], None, p4) == [p5];
    assert [p5][..0] == [];
  }
}
