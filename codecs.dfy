/** The two fallback "codecs" of the client (VoiceCraft.Client/Audio/SimplePcmCodec.cs
    and VoiceCraft.Client.iOS/Audio/iOSAudioCodec.cs): both keep every n-th byte
    of the input, with n chosen from the bit rate. */
module Codecs {
  import opened Wrappers
  import opened Wire
  import opened DotNet

  /** The bit rate both constructors start from. */
  const DefaultBitRate: Int32 := 32000

  // ---------------------------------------------------------------------------
  // Compression steps

  /** SimplePcmCodec.CalculateCompressionFactor: 128000 / max(bitRate, 8000)
      clamped to 1..8. */
  function CompressionFactor(bitRate: int): (f: int)
    ensures 1 <= f <= 8
  {
    var targetRatio := 128000 / Max(bitRate, 8000);
    Max(1, DotNet.Min(8, targetRatio))
  }

  lemma DefaultCompressionFactor()
    ensures CompressionFactor(DefaultBitRate) == 4
  {
  }

  /** Up to 16 kbit/s the factor is the largest, 8; from 128 kbit/s on it is 1. */
  lemma CompressionFactorEnds(bitRate: int)
    ensures bitRate <= 16000 ==> CompressionFactor(bitRate) == 8
    ensures bitRate >= 128000 ==> CompressionFactor(bitRate) == 1
  {
    var m := Max(bitRate, 8000);
    if bitRate <= 16000 {
      DivAtLeast(128000, m, 8);
    }
    if bitRate >= 128000 {
      DivBelow(128000, m, 2);
    }
  }

  /** Higher bit rate, less compression. */
  lemma CompressionFactorAntitone(a: int, b: int)
    requires a <= b
    ensures CompressionFactor(b) <= CompressionFactor(a)
  {
    DivAntitone(128000, Max(a, 8000), Max(b, 8000));
  }

  /** k * d <= x gives k <= x / d. */
  lemma DivAtLeast(x: nat, d: int, k: int)
    requires d > 0 && k * d <= x
    ensures k <= x / d
  {
    var q := x / d;
    assert q * d + x % d == x;
    assert (q + 1) * d == q * d + d;
    MulCancel(k, q + 1, d);
  }

  /** x < k * d gives x / d < k. */
  lemma DivBelow(x: nat, d: int, k: int)
    requires d > 0 && x < k * d
    ensures x / d < k
  {
    var q := x / d;
    assert q * d + x % d == x;
    if q >= k {
      MulMono(k, q, d);
    }
  }

  lemma MulCancel(a: int, b: int, c: int)
    requires c > 0 && a * c < b * c
    ensures a < b
  {
    assert b * c - a * c == (b - a) * c;
  }

  lemma MulMono(a: int, b: int, c: nat)
    requires a <= b
    ensures a * c <= b * c
  {
    assert b * c - a * c == (b - a) * c;
  }

  lemma DivAntitone(x: nat, a: int, b: int)
    requires 0 < a <= b
    ensures x / b <= x / a
  {
    var qb := x / b;
    assert qb * b + x % b == x;
    MulMono(a, b, qb);
    DivAtLeast(x, a, qb);
  }

  /** iOSAudioCodec.CalculateCompressionRatio: a step function of the bit rate. */
  function CompressionRatio(bitRate: int): (r: int)
    ensures r == 1 || r == 2 || r == 4 || r == 8
    ensures r == 1 <==> bitRate >= 64000
    ensures r == 8 <==> bitRate < 16000
  {
    if bitRate >= 64000 then 1
    else if bitRate >= 32000 then 2
    else if bitRate >= 16000 then 4
    else 8
  }

  lemma DefaultCompressionRatio()
    ensures CompressionRatio(DefaultBitRate) == 2
  {
  }

  /** Higher bit rate, less compression. */
  lemma CompressionRatioAntitone(a: int, b: int)
    requires a <= b
    ensures CompressionRatio(b) <= CompressionRatio(a)
  {
  }

  // ---------------------------------------------------------------------------
  // Encoded lengths

  /** SimplePcmCodec's `Math.Min(inputBuffer.Length, frameSize * _channels * 2)`,
      the product in unchecked 32-bit arithmetic. */
  function BytesToProcess(inputLength: nat, frameSize: Int32, channels: Int32): (x: int)
    ensures x <= inputLength
    ensures 0 <= frameSize * channels * 2 < 0x8000_0000 ==> x == DotNet.Min(inputLength, frameSize * channels * 2)
  {
    DotNet.Min(inputLength, Wrap32(Wrap32(frameSize * channels) * 2))
  }

  /** SimplePcmCodec's compressed size from the bytes to process, capped at
      maxLength (negative when maxLength is, or when the bytes to process are
      at least `factor` below zero). */
  function PcmEncodedLength(bytesToProcess: int, maxLength: int, factor: int): (n: int)
    requires 1 <= factor
    ensures n <= maxLength
  {
    DotNet.Min(CsDiv(bytesToProcess, factor), maxLength)
  }

  /** The compressed size is the largest count (up to maxLength) whose strided
      reads stay inside the bytes to process. */
  lemma PcmEncodedLengthFits(bytesToProcess: int, maxLength: int, factor: int)
    requires 1 <= factor
    ensures var n := PcmEncodedLength(bytesToProcess, maxLength, factor);
      (n >= 0 ==> n * factor <= Max(bytesToProcess, 0))
      && (0 <= n < maxLength ==> bytesToProcess < (n + 1) * factor)
  {
    var x := bytesToProcess;
    var n := PcmEncodedLength(x, maxLength, factor);
    if x >= 0 {
      DivParts(x, factor);
      if n >= 0 {
        MulMono(n, x / factor, factor);
      }
    } else if n >= 0 {
      assert CsDiv(x, factor) <= 0;
      assert n == 0;
    }
  }

  /** iOSAudioCodec's copied size, capped at maxLength. */
  function IosEncodedLength(inputLength: nat, maxLength: int, ratio: int): (n: int)
    requires 1 <= ratio
    ensures n <= maxLength
  {
    DotNet.Min(inputLength / ratio, maxLength)
  }

  /** The copied size is the largest count (up to maxLength) whose strided
      reads stay inside the input. */
  lemma IosEncodedLengthFits(inputLength: nat, maxLength: int, ratio: int)
    requires 1 <= ratio
    ensures var n := IosEncodedLength(inputLength, maxLength, ratio);
      (n >= 0 ==> n * ratio <= inputLength)
      && (0 <= n < maxLength ==> inputLength < (n + 1) * ratio)
  {
    var n := IosEncodedLength(inputLength, maxLength, ratio);
    DivParts(inputLength, ratio);
    if n >= 0 {
      MulMono(n, inputLength / ratio, ratio);
    }
  }

  /** Euclidean division of a non-negative number. */
  lemma DivParts(x: nat, d: int)
    requires d > 0
    ensures (x / d) * d <= x < (x / d + 1) * d
  {
    var q := x / d;
    assert q * d + x % d == x;
    assert (q + 1) * d == q * d + d;
  }

  /** With every strided read below n inside the input, the loop completes
      exactly when n fits the output. */
  lemma CompletesIffFits(n: int, outputLength: nat, factor: int, inputLength: int)
    requires 1 <= factor && (n >= 0 ==> n * factor <= inputLength)
    ensures (forall k | outputLength <= k < n :: Skipped(k, factor, inputLength)) <==> n <= outputLength
  {
    if outputLength < n {
      StrideInside(outputLength, n, factor, inputLength);
    }
  }

  /** Every strided read below an encoded length is inside the input, so the
      loop's `sourceIndex < inputBuffer.Length` guard never fails. */
  lemma StrideInside(j: int, n: int, factor: int, inputLength: int)
    requires 0 <= j < n && 1 <= factor && n * factor <= inputLength
    ensures !Skipped(j, factor, inputLength)
  {
    MulMono(j + 1, n, factor);
    assert (j + 1) * factor == j * factor + factor;
  }

  // ---------------------------------------------------------------------------
  // The shared loop

  /** Position k of the output is past the input at stride `factor`. */
  predicate Skipped(k: int, factor: int, inputLength: int)
  {
    k * factor >= inputLength
  }

  /** The loop of both Encode methods: for each i below `count`, when
      i * factor is inside the input, output[i] = input[i * factor]; a write
      past the output throws, so the loop completes exactly when every index
      from output.Length up to count is skipped. The input is read at or after
      the index being written, so an input that is the output itself gives the
      same bytes. */
  method Downsample(input: array<Byte>, output: array<Byte>, factor: int, count: int) returns (completed: bool)
    requires 1 <= factor
    modifies output
    ensures completed <==> forall k | output.Length <= k < count :: Skipped(k, factor, input.Length)
    ensures forall j | 0 <= j < output.Length ::
      output[j] == if j < count && !Skipped(j, factor, input.Length) then old(input[j * factor]) else old(output[j])
  {
    var i := 0;
    while i < count
      invariant 0 <= i && (count >= 0 ==> i <= count) && (count < 0 ==> i == 0)
      invariant forall k | output.Length <= k < i :: Skipped(k, factor, input.Length)
      invariant forall j | 0 <= j < output.Length ::
        output[j] == if j < i && !Skipped(j, factor, input.Length) then old(input[j * factor]) else old(output[j])
    {
      var sourceIndex := i * factor;
      if sourceIndex < input.Length {
        if i >= output.Length {
          assert !Skipped(i, factor, input.Length);
          return false;
        }
        MulMono(1, factor, i);
        output[i] := input[sourceIndex];
      }
      i := i + 1;
    }
    return true;
  }

  // ---------------------------------------------------------------------------
  // SimplePcmCodec

  class SimplePcmCodec {
    var sampleRate: Int32
    var channels: Int32
    var packetLossPercent: int
    var bitRate: Int32
    var disposed: bool

    constructor(sampleRate: Int32, channels: Int32, application: Int32)
      ensures this.sampleRate == sampleRate && this.channels == channels
      ensures packetLossPercent == 0 && bitRate == DefaultBitRate && !disposed
    {
      this.sampleRate := sampleRate;
      this.channels := channels;
      packetLossPercent := 0;
      bitRate := DefaultBitRate;
      disposed := false;
    }

    method SetPacketLostPercent(percent: Int32)
      modifies this`packetLossPercent
      ensures packetLossPercent == Clamp(percent, 0, 100)
    {
      packetLossPercent := Clamp(percent, 0, 100);
    }

    method SetBitRate(bitrate: Int32)
      modifies this`bitRate
      ensures bitRate == bitrate
    {
      bitRate := bitrate;
    }

    /** Encode: a disposed codec throws, a null buffer gives 0, otherwise every
        factor-th byte is copied and the count returned. */
    method Encode(input: array?<Byte>, frameSize: Int32, output: array?<Byte>, maxLength: Int32) returns (r: Result<int>)
      modifies output
      ensures disposed ==> r == Err(ObjectDisposed)
      ensures !disposed && (input == null || output == null) ==> r == Ok(0)
      ensures (disposed || input == null) && output != null ==> output[..] == old(output[..])
      ensures !disposed && input != null && output != null ==>
        var factor := CompressionFactor(bitRate);
        var n := PcmEncodedLength(BytesToProcess(input.Length, frameSize, channels), maxLength, factor);
        r == (if n <= output.Length then Ok(n) else Err(IndexOutOfRange))
        && (forall j | 0 <= j < n :: !Skipped(j, factor, input.Length))
        && forall j | 0 <= j < output.Length ::
             output[j] == if j < n && !Skipped(j, factor, input.Length) then old(input[j * factor]) else old(output[j])
    {
      if disposed {
        return Err(ObjectDisposed);
      }
      if input == null || output == null {
        return Ok(0);
      }
      var factor := CompressionFactor(bitRate);
      var bytesToProcess := BytesToProcess(input.Length, frameSize, channels);
      var compressedSize := DotNet.Min(CsDiv(bytesToProcess, factor), maxLength);
      var completed := Downsample(input, output, factor, compressedSize);
      PcmEncodedLengthFits(bytesToProcess, maxLength, factor);
      CompletesIffFits(compressedSize, output.Length, factor, input.Length);
      forall j | 0 <= j < compressedSize
        ensures !Skipped(j, factor, input.Length)
      {
        StrideInside(j, compressedSize, factor, input.Length);
      }
      r := if completed then Ok(compressedSize) else Err(IndexOutOfRange);
    }

    /** Dispose: idempotent. */
    method Dispose()
      modifies this`disposed
      ensures disposed
    {
      if disposed {
        return;
      }
      disposed := true;
    }
  }

  // ---------------------------------------------------------------------------
  // iOSAudioCodec

  class IosAudioCodec {
    var packetLossPercent: int
    var bitRate: Int32
    var disposed: bool

    constructor(sampleRate: Int32, channels: Int32, application: Int32)
      ensures packetLossPercent == 0 && bitRate == DefaultBitRate && !disposed
    {
      packetLossPercent := 0;
      bitRate := DefaultBitRate;
      disposed := false;
    }

    method SetPacketLostPercent(percent: Int32)
      modifies this`packetLossPercent
      ensures packetLossPercent == Clamp(percent, 0, 100)
    {
      packetLossPercent := Clamp(percent, 0, 100);
    }

    method SetBitRate(bitrate: Int32)
      modifies this`bitRate
      ensures bitRate == bitrate
    {
      bitRate := bitrate;
    }

    /** Encode: a disposed codec throws, a null buffer gives 0, otherwise every
        ratio-th byte is copied and the count returned. */
    method Encode(input: array?<Byte>, frameSize: Int32, output: array?<Byte>, maxLength: Int32) returns (r: Result<int>)
      modifies output
      ensures disposed ==> r == Err(ObjectDisposed)
      ensures !disposed && (input == null || output == null) ==> r == Ok(0)
      ensures (disposed || input == null) && output != null ==> output[..] == old(output[..])
      ensures !disposed && input != null && output != null ==>
        var ratio := CompressionRatio(bitRate);
        var n := IosEncodedLength(input.Length, maxLength, ratio);
        r == (if n <= output.Length then Ok(n) else Err(IndexOutOfRange))
        && (forall j | 0 <= j < n :: !Skipped(j, ratio, input.Length))
        && forall j | 0 <= j < output.Length ::
             output[j] == if j < n && !Skipped(j, ratio, input.Length) then old(input[j * ratio]) else old(output[j])
    {
      if disposed {
        return Err(ObjectDisposed);
      }
      if input == null || output == null {
        return Ok(0);
      }
      var ratio := CompressionRatio(bitRate);
      var bytesToCopy := DotNet.Min(input.Length / ratio, maxLength);
      var completed := Downsample(input, output, ratio, bytesToCopy);
      IosEncodedLengthFits(input.Length, maxLength, ratio);
      CompletesIffFits(bytesToCopy, output.Length, ratio, input.Length);
      forall j | 0 <= j < bytesToCopy
        ensures !Skipped(j, ratio, input.Length)
      {
        StrideInside(j, bytesToCopy, ratio, input.Length);
      }
      r := if completed then Ok(bytesToCopy) else Err(IndexOutOfRange);
    }

    /** Dispose: idempotent. */
    method Dispose()
      modifies this`disposed
      ensures disposed
    {
      if disposed {
        return;
      }
      disposed := true;
    }
  }
}
