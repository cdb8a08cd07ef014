/**
 * The outbound microphone frame of services/geminiService.ts (`createBlob`):
 * float samples are scaled by 32768 into an `Int16Array`, whose bytes are
 * encoded and tagged with the MIME type `audio/pcm;rate=16000`.
 *
 * A float sample is a `real`: a `Float32Array` element is an exact real
 * number and multiplying it by 32768 is exact, so the storing conversion of
 * `Int16Array` (truncation towards zero, then reduction modulo 2^16) can be
 * stated exactly. `CreateBlob` uses that conversion, `QuantizeAsWritten`, which
 * sends a full-scale sample of 1.0 as -32768. `Quantize`, which saturates at
 * 32767, is the evidently intended conversion, and the round trip is proved
 * for both: the written one on [-1, 1), the intended one on [-1, 1].
 */
module Outbound {
  import opened Wire

  /** The MIME type of every outbound frame. */
  const MicMimeType: string := "audio/pcm;rate=16000"

  /** The sample rate of the microphone capture, in Hz. */
  const MicRate: int := 16000

  /** An outbound frame: `payload` is the binary string handed to `btoa`. */
  datatype Blob = Blob(payload: seq<char>, mimeType: string)

  /** Truncation towards zero, as the storing conversion of an `Int16Array` does. */
  function Truncate(y: real): (n: int)
    ensures y >= 0.0 ==> n as real <= y < n as real + 1.0
    ensures y < 0.0 ==> n as real - 1.0 < y <= n as real
  {
    if y >= 0.0 then y.Floor else -((-y).Floor)
  }

  /** Reduction of an integer into the int16 range modulo 2^16. */
  function WrapInt16(n: int): (v: int16)
    ensures (v - n) % 65536 == 0
    ensures -32768 <= n < 32768 ==> v == n
  {
    var m := n % 65536;
    if m < 32768 then m else m - 65536
  }

  /** `int16[i] = data[i] * 32768`, as written: truncate, then wrap. The result is
      the truncated product modulo 2^16, and is that product whenever it fits. */
  function QuantizeAsWritten(x: real): (q: int16)
    ensures (q - Truncate(x * PcmScale)) % 65536 == 0
    ensures -32768 <= Truncate(x * PcmScale) < 32768 ==> q == Truncate(x * PcmScale)
  {
    WrapInt16(Truncate(x * PcmScale))
  }

  /** The float sample an int16 sample reads back as is within one step of `x`. */
  predicate WithinStep(x: real, q: int16)
  {
    -1.0 / PcmScale <= x - SampleValue(q) <= 1.0 / PcmScale
  }

  /** The evidently intended conversion: truncate, then saturate at the int16 range. */
  function Quantize(x: real): (q: int16)
    ensures -1.0 <= x <= 1.0 ==> WithinStep(x, q)
    ensures x >= 0.0 ==> q >= 0
    ensures x <= 0.0 ==> q <= 0
  {
    var t := Truncate(x * PcmScale);
    if t > 32767 then 32767 else if t < -32768 then -32768 else t
  }

  /** As written, a full-scale sample of 1.0 is sent as -32768 and reads back as
      -1.0: a sign flip, two whole units away. */
  lemma FullScaleWraps()
    ensures QuantizeAsWritten(1.0) == -32768
    ensures SampleValue(QuantizeAsWritten(1.0)) == -1.0
    ensures !WithinStep(1.0, QuantizeAsWritten(1.0))
  {
    assert Truncate(1.0 * PcmScale) == 32768;
  }

  /** On every other sample of [-1, 1] the written and the intended conversion agree. */
  lemma AsWrittenAgreesBelowFullScale(x: real)
    requires -1.0 <= x < 1.0
    ensures QuantizeAsWritten(x) == Quantize(x)
  {
    var t := Truncate(x * PcmScale);
    assert -32768 <= t < 32768;
  }

  /** The samples of `createBlob`'s `Int16Array`, as written. */
  function QuantizeAll(data: seq<real>): (r: seq<int16>)
    ensures |r| == |data|
    ensures forall i :: 0 <= i < |data| ==> r[i] == QuantizeAsWritten(data[i])
  {
    seq(|data|, i requires 0 <= i < |data| => QuantizeAsWritten(data[i]))
  }

  /** The samples the intended, saturating conversion would put in the `Int16Array`. */
  function SaturateAll(data: seq<real>): (r: seq<int16>)
    ensures |r| == |data|
    ensures forall i :: 0 <= i < |data| ==> r[i] == Quantize(data[i])
  {
    seq(|data|, i requires 0 <= i < |data| => Quantize(data[i]))
  }

  /** `createBlob`: fill an `Int16Array` sample by sample, encode its bytes and
      tag them; two bytes go out per input sample. */
  method CreateBlob(data: seq<real>) returns (blob: Blob)
    ensures blob.mimeType == MicMimeType
    ensures |blob.payload| == 2 * |data|
    ensures blob.payload == BytesToBinary(PcmBytes(QuantizeAll(data)))
  {
    var l := |data|;
    var int16 := new int16[l];
    for i := 0 to l
      invariant forall k :: 0 <= k < i ==> int16[k] == QuantizeAsWritten(data[k])
    {
      int16[i] := QuantizeAsWritten(data[i]);
    }
    assert int16[..] == QuantizeAll(data);
    var bytes := PcmBytes(int16[..]);
    var view := new byte[|bytes|](i requires 0 <= i < |bytes| => bytes[i]);
    assert view[..] == bytes;
    var payload := Encode(view);
    blob := Blob(payload, MicMimeType);
  }

  /** The samples of a one-channel frame, sent as PCM bytes and decoded as
      inbound audio is at `MicRate`, come back as a buffer of the same length
      whose sample i is sample i over 32768. */
  lemma {:induction false} MonoRoundTrip(samples: seq<int16>)
    requires |samples| > 0
    ensures var r := DecodeAudio(BinaryToBytes(BytesToBinary(PcmBytes(samples))), MicRate, 1);
      r.Ok? && r.value.length == |samples| && |r.value.channels| == 1 &&
      forall i :: 0 <= i < |samples| ==> r.value.channels[0][i] == SampleValue(samples[i])
  {
    var data := PcmBytes(samples);
    BytesRoundTrip(data);
    ViewOfPcmBytes(samples);
    MonoShape(data);
    var r := DecodeAudio(data, MicRate, 1);
    forall i | 0 <= i < |samples|
      ensures r.value.channels[0][i] == SampleValue(samples[i])
    {
      DecodedSampleAt(data, MicRate, 1, 0, i);
    }
  }

  /** Whole pairs of bytes decode as one channel of one frame per pair. */
  lemma MonoShape(data: seq<byte>)
    requires |data| % 2 == 0 && |data| >= 2
    ensures var r := DecodeAudio(data, MicRate, 1);
      r.Ok? && r.value.length == |data| / 2 && |r.value.channels| == 1
  {
  }

  /** A frame of samples in [-1, 1), sent by `createBlob` as written and then
      decoded as inbound audio is, reads back as one channel of the same length,
      each sample within one quantisation step (1/32768) of the original. A
      sample of 1.0 is excluded: `FullScaleWraps` shows it reads back as -1.0. */
  lemma {:induction false} WireRoundTrip(frame: seq<real>)
    requires |frame| > 0
    requires forall i :: 0 <= i < |frame| ==> -1.0 <= frame[i] < 1.0
    ensures var r := DecodeAudio(BinaryToBytes(BytesToBinary(PcmBytes(QuantizeAll(frame)))), MicRate, 1);
      r.Ok? && r.value.length == |frame| && |r.value.channels| == 1 &&
      forall i :: 0 <= i < |frame| ==> -1.0 / PcmScale <= frame[i] - r.value.channels[0][i] <= 1.0 / PcmScale
  {
    var samples := QuantizeAll(frame);
    MonoRoundTrip(samples);
    forall i | 0 <= i < |frame|
      ensures WithinStep(frame[i], samples[i])
    {
      AsWrittenAgreesBelowFullScale(frame[i]);
    }
  }

  /** With the intended, saturating conversion the same round trip holds on the
      whole of [-1, 1], full scale included. */
  lemma {:induction false} IntendedWireRoundTrip(frame: seq<real>)
    requires |frame| > 0
    requires forall i :: 0 <= i < |frame| ==> -1.0 <= frame[i] <= 1.0
    ensures var r := DecodeAudio(BinaryToBytes(BytesToBinary(PcmBytes(SaturateAll(frame)))), MicRate, 1);
      r.Ok? && r.value.length == |frame| && |r.value.channels| == 1 &&
      forall i :: 0 <= i < |frame| ==> -1.0 / PcmScale <= frame[i] - r.value.channels[0][i] <= 1.0 / PcmScale
  {
    var samples := SaturateAll(frame);
    MonoRoundTrip(samples);
    forall i | 0 <= i < |frame|
      ensures WithinStep(frame[i], samples[i])
    {
    }
  }
}
