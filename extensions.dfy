/** VoiceCraft.Core/Extensions.cs: string truncation for display and the peak
    level of a frame of 16-bit little-endian PCM. */
module Extensions {
  import opened Wrappers
  import opened Wire

  /** The ellipsis character used when no suffix is given. */
  const Ellipsis: string := "\U{2026}"

  /** `value.Truncate(maxLength, suffix)`: the value itself when it fits, else its
      first `maxLength` characters followed by the suffix. A negative bound makes
      the slice throw. */
  function Truncate(value: string, maxLength: int, truncationSuffix: string := Ellipsis): (r: Result<string>)
    ensures r.Err? <==> maxLength < 0
    ensures r.Ok? && |value| <= maxLength ==> r.value == value
    ensures r.Ok? && |value| > maxLength ==>
      |r.value| == maxLength + |truncationSuffix|
      && r.value[..maxLength] == value[..maxLength]
      && r.value[maxLength..] == truncationSuffix
  {
    if |value| > maxLength then
      if maxLength < 0 then Err(ArgumentOutOfRange)
      else Ok(value[..maxLength] + truncationSuffix)
    else Ok(value)
  }

  /** Truncating what was already truncated, with the same bound and suffix,
      changes nothing. */
  lemma TruncateIdempotent(value: string, maxLength: int, truncationSuffix: string)
    requires maxLength >= 0
    ensures Truncate(Truncate(value, maxLength, truncationSuffix).value, maxLength, truncationSuffix)
      == Truncate(value, maxLength, truncationSuffix)
  {
    var once := Truncate(value, maxLength, truncationSuffix).value;
    if |value| > maxLength && |once| > maxLength {
      assert once[..maxLength] == value[..maxLength];
    }
  }

  /** `(short)((hi << 8) | lo)`: the signed 16-bit sample stored little-endian. */
  function Sample16(lo: Byte, hi: Byte): (s: int)
    ensures -0x8000 <= s < 0x8000
    ensures (s + 0x1_0000) % 0x1_0000 == hi * 256 + lo
  {
    var u := hi * 256 + lo;
    if u >= 0x8000 then u - 0x1_0000 else u
  }

  function Abs(x: int): nat
  {
    if x < 0 then -x else x
  }

  /** The number of loop rounds: indices 0, 2, 4, ... below `bytesRead`. */
  function Rounds(bytesRead: int): nat
  {
    if bytesRead <= 0 then 0 else (bytesRead + 1) / 2
  }

  /** The largest |sample| among the first `rounds` samples. */
  function PeakAbs(data: seq<Byte>, rounds: nat): (m: nat)
    requires 2 * rounds <= |data|
    ensures m <= 0x8000
    ensures forall k | 0 <= k < rounds :: Abs(Sample16(data[2 * k], data[2 * k + 1])) <= m
    ensures m == 0 || exists k | 0 <= k < rounds :: m == Abs(Sample16(data[2 * k], data[2 * k + 1]))
  {
    if rounds == 0 then 0
    else
      var a := Abs(Sample16(data[2 * (rounds - 1)], data[2 * (rounds - 1) + 1]));
      var m := PeakAbs(data, rounds - 1);
      if a > m then a else m
  }

  /** One more round of the peak: the larger of the old peak and the new sample. */
  lemma PeakAbsStep(data: seq<Byte>, k: nat)
    requires 2 * k + 2 <= |data|
    ensures var a := Abs(Sample16(data[2 * k], data[2 * k + 1]));
      PeakAbs(data, k + 1) == if a > PeakAbs(data, k) then a else PeakAbs(data, k)
  {
  }

  /** How the even loop index relates to the round count. */
  lemma RoundsStep(index: nat, k: nat, bytesRead: int)
    requires index == 2 * k
    ensures index < bytesRead ==> index + 2 <= 2 * Rounds(bytesRead)
    ensures bytesRead <= index <= 2 * Rounds(bytesRead) && (k == 0 || index - 2 < bytesRead) ==> k == Rounds(bytesRead)
  {
  }

  /** `data.GetFramePeak16(bytesRead)`: the peak |sample| / 32768, so a value in
      [0, 1]. The loop reads `data[index + 1]`, so it throws when the last round
      reaches past the array. The division by 32768 is exact in binary floating
      point, so the result is modelled as a real. */
  method GetFramePeak16(data: array<Byte>, bytesRead: int) returns (r: Result<real>)
    ensures r.Ok? <==> 2 * Rounds(bytesRead) <= data.Length
    ensures r.Ok? ==> r.value == PeakAbs(data[..], Rounds(bytesRead)) as real / 32768.0
    ensures r.Ok? ==> 0.0 <= r.value <= 1.0
    ensures r.Err? ==> r.error == IndexOutOfRange
  {
    ghost var samples := data[..];
    var max: nat := 0;
    var index := 0;
    ghost var k: nat := 0;
    while index < bytesRead
      invariant index == 2 * k && index <= data.Length
      invariant k == 0 || index - 2 < bytesRead
      invariant index <= 2 * Rounds(bytesRead)
      invariant max == PeakAbs(samples, k)
    {
      RoundsStep(index, k, bytesRead);
      if index + 1 >= data.Length {
        return Err(IndexOutOfRange);
      }
      PeakAbsStep(samples, k);
      var sample := Sample16(data[index + 0], data[index + 1]);
      var magnitude := Abs(sample);
      if magnitude > max {
        max := magnitude;
      }
      index := index + 2;
      k := k + 1;
    }
    RoundsStep(index, k, bytesRead);
    assert max <= 0x8000;
    r := Ok(max as real / 32768.0);
  }
}
