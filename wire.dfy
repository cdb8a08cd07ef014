/**
 * The wire helpers of services/audioService.ts: `decode` (binary string to
 * bytes), `encode` (bytes to binary string) and `decodeAudioData` (16-bit
 * little-endian PCM bytes to per-channel float samples).
 *
 * The base64 codec around them (`atob` in `decode`, `btoa` in `encode`) is not
 * part of this model: `Decode` starts from the binary string `atob` returns
 * and `Encode` ends with the binary string that is handed to `btoa`.
 */
module Wire {
  import opened Common

  /** An element of a `Uint8Array`. */
  type byte = x: int | 0 <= x < 256

  /** An element of an `Int16Array`. */
  type int16 = x: int | -32768 <= x < 32768

  /** The divisor that maps an int16 sample to a float sample. */
  const PcmScale: real := 32768.0

  /** Why `decodeAudioData` throws. */
  datatype DecodeError =
    | RangeError         // `new Int16Array(buffer)` over an odd number of bytes
    | NotSupportedError  // `createBuffer` with zero channels or zero frames

  datatype Result<+T> = Ok(value: T) | Err(error: DecodeError)

  /** A decoded `AudioBuffer`: `length` frames per channel at `sampleRate`. */
  datatype AudioBuffer = AudioBuffer(sampleRate: pos, length: nat, channels: seq<seq<real>>)
  {
    /** `AudioBuffer.duration`, in seconds. */
    function Duration(): (d: real)
      ensures d >= 0.0
      ensures d == 0.0 <==> length == 0
    {
      length as real / sampleRate as real
    }
  }

  // ---------------------------------------------------------------------------
  // decode / encode: binary strings and bytes

  /** `charCodeAt(i)` stored into a `Uint8Array`: the code taken modulo 256. */
  function StoredByte(c: char): byte
  {
    (c as int) % 256
  }

  /** `String.fromCharCode(b)` of a byte. */
  function ByteChar(b: byte): char
  {
    b as char
  }

  /** A string every character of which is a byte, as `atob` produces. */
  predicate IsBinaryString(s: seq<char>)
  {
    forall i :: 0 <= i < |s| ==> (s[i] as int) < 256
  }

  /** The bytes `decode` writes for a binary string, one per character. */
  function BinaryToBytes(bin: seq<char>): (r: seq<byte>)
    ensures |r| == |bin|
    ensures forall i :: 0 <= i < |bin| ==> r[i] == StoredByte(bin[i])
  {
    if bin == [] then [] else [StoredByte(bin[0])] + BinaryToBytes(bin[1..])
  }

  /** The binary string `encode` builds for some bytes, one character per byte. */
  function BytesToBinary(bytes: seq<byte>): (r: seq<char>)
    ensures |r| == |bytes|
    ensures forall i :: 0 <= i < |bytes| ==> r[i] == ByteChar(bytes[i])
  {
    if bytes == [] then [] else [ByteChar(bytes[0])] + BytesToBinary(bytes[1..])
  }

  /** Every string `encode` builds is a binary string, whose character codes are the bytes. */
  lemma EncodedIsBinary(bytes: seq<byte>)
    ensures IsBinaryString(BytesToBinary(bytes))
    ensures forall i :: 0 <= i < |bytes| ==> BytesToBinary(bytes)[i] as int == bytes[i]
  {
    var s := BytesToBinary(bytes);
    forall i | 0 <= i < |bytes|
      ensures s[i] as int == bytes[i]
    {
      assert s[i] == ByteChar(bytes[i]);
    }
  }

  /** On a binary string, byte i of `decode` is the character code at i. */
  lemma DecodedAreCharCodes(bin: seq<char>)
    requires IsBinaryString(bin)
    ensures forall i :: 0 <= i < |bin| ==> BinaryToBytes(bin)[i] == bin[i] as int
  {
    forall i | 0 <= i < |bin|
      ensures BinaryToBytes(bin)[i] == bin[i] as int
    {
      StoredCharCode(bin[i]);
    }
  }

  /** A character of a binary string is stored as its own code. */
  lemma StoredCharCode(c: char)
    requires (c as int) < 256
    ensures StoredByte(c) == c as int
  {
  }

  /** `decode` after `encode` (with `atob` undoing `btoa`) gives the bytes back. */
  lemma {:induction false} BytesRoundTrip(bytes: seq<byte>)
    ensures BinaryToBytes(BytesToBinary(bytes)) == bytes
  {
    var r := BinaryToBytes(BytesToBinary(bytes));
    assert |r| == |bytes|;
    forall i | 0 <= i < |bytes|
      ensures r[i] == bytes[i]
    {
      StoredByteChar(bytes[i]);
    }
  }

  /** `encode` after `decode` gives a binary string back unchanged. */
  lemma {:induction false} BinaryRoundTrip(bin: seq<char>)
    requires IsBinaryString(bin)
    ensures BytesToBinary(BinaryToBytes(bin)) == bin
  {
    var r := BytesToBinary(BinaryToBytes(bin));
    assert |r| == |bin|;
    forall i | 0 <= i < |bin|
      ensures r[i] == bin[i]
    {
      StoredCharCode(bin[i]);
    }
  }

  /** A byte turned into a character is stored back as the same byte. */
  lemma StoredByteChar(b: byte)
    ensures StoredByte(ByteChar(b)) == b
  {
  }

  /** `decode`: fill a fresh `Uint8Array` with the character codes of the binary string. */
  method Decode(bin: seq<char>) returns (bytes: array<byte>)
    ensures bytes.Length == |bin|
    ensures bytes[..] == BinaryToBytes(bin)
  {
    bytes := new byte[|bin|];
    for i := 0 to |bin|
      invariant forall k :: 0 <= k < i ==> bytes[k] == StoredByte(bin[k])
    {
      bytes[i] := StoredByte(bin[i]);
    }
  }

  /** `encode`: append one character per byte; the result is what `btoa` receives. */
  method Encode(bytes: array<byte>) returns (binary: seq<char>)
    ensures binary == BytesToBinary(bytes[..])
  {
    binary := "";
    for i := 0 to bytes.Length
      invariant |binary| == i
      invariant forall k :: 0 <= k < i ==> binary[k] == ByteChar(bytes[k])
    {
      binary := binary + [ByteChar(bytes[i])];
    }
  }

  // ---------------------------------------------------------------------------
  // 16-bit little-endian PCM

  /** The signed 16-bit sample stored little-endian in two bytes. */
  function SampleOf(lo: byte, hi: byte): int16
  {
    var u := lo + 256 * hi;
    if u < 32768 then u else u - 65536
  }

  /** The low byte of a sample's two's-complement encoding. */
  function LowByte(v: int16): byte
  {
    v % 256
  }

  /** The high byte of a sample's two's-complement encoding. */
  function HighByte(v: int16): byte
  {
    (v % 65536) / 256
  }

  /** The two bytes of a sample decode back to the sample. */
  lemma SampleOfBytes(v: int16)
    ensures SampleOf(LowByte(v), HighByte(v)) == v
  {
    if v < 0 {
      assert v % 65536 == v + 65536;
      assert v % 256 == (v + 65536) % 256;
    }
  }

  /** `new Int16Array(bytes.buffer)` on a little-endian platform. */
  function Int16View(data: seq<byte>): (r: seq<int16>)
    requires |data| % 2 == 0
    ensures |r| == |data| / 2
    ensures forall k :: 0 <= k < |r| ==> r[k] == SampleOf(data[2 * k], data[2 * k + 1])
    decreases |data|
  {
    if data == [] then [] else [SampleOf(data[0], data[1])] + Int16View(data[2..])
  }

  /** `new Uint8Array(int16.buffer)`: the bytes of some samples, little-endian. */
  function PcmBytes(samples: seq<int16>): (r: seq<byte>)
    ensures |r| == 2 * |samples|
    ensures forall k :: 0 <= k < |samples| ==> r[2 * k] == LowByte(samples[k]) && r[2 * k + 1] == HighByte(samples[k])
  {
    if samples == [] then [] else [LowByte(samples[0]), HighByte(samples[0])] + PcmBytes(samples[1..])
  }

  /** Viewing the bytes of some samples as an `Int16Array` gives the samples back. */
  lemma {:induction false} ViewOfPcmBytes(samples: seq<int16>)
    ensures Int16View(PcmBytes(samples)) == samples
  {
    var bytes := PcmBytes(samples);
    var view := Int16View(bytes);
    forall k | 0 <= k < |samples|
      ensures view[k] == samples[k]
    {
      SampleOfBytes(samples[k]);
    }
  }

  // ---------------------------------------------------------------------------
  // decodeAudioData

  /** One int16 sample as a float sample: division by 32768, exact in `real`. */
  function SampleValue(v: int16): (x: real)
    ensures -1.0 <= x < 1.0
    ensures x * PcmScale == v as real
  {
    v as real / PcmScale
  }

  /** Frame i of channel c sits at index i * numChannels + c of the interleaved samples. */
  lemma FrameIndexBound(i: nat, c: nat, frames: nat, numChannels: nat)
    requires i < frames && c < numChannels
    ensures i * numChannels + c < frames * numChannels
  {
    assert (i + 1) * numChannels <= frames * numChannels by {
      MulMonotone(i + 1, frames, numChannels);
    }
  }

  lemma {:induction false} MulMonotone(a: nat, b: nat, n: nat)
    requires a <= b
    ensures a * n <= b * n
  {
    if a < b {
      MulMonotone(a, b - 1, n);
    }
  }

  /** Channel c of `frames` frames de-interleaved from the samples. */
  function Channel(samples: seq<int16>, numChannels: nat, c: nat, frames: nat): (r: seq<real>)
    requires c < numChannels && frames * numChannels <= |samples|
    ensures |r| == frames
    ensures forall i :: 0 <= i < frames ==>
      0 <= i * numChannels + c < |samples| && r[i] == SampleValue(samples[i * numChannels + c])
  {
    if frames == 0 then []
    else
      MulMonotone(frames - 1, frames, numChannels);
      FrameIndexBound(frames - 1, c, frames, numChannels);
      Channel(samples, numChannels, c, frames - 1) + [SampleValue(samples[(frames - 1) * numChannels + c])]
  }

  /** The number of whole frames in `n` interleaved samples: `createBuffer` truncates
      `n / numChannels`, and the writes past the end of a channel are dropped. */
  function FrameCount(n: nat, numChannels: nat): (frames: nat)
    requires numChannels >= 1
    ensures frames * numChannels <= n < (frames + 1) * numChannels
    ensures frames == 0 <==> n < numChannels
  {
    var frames := n / numChannels;
    assert frames >= 1 ==> numChannels <= n by {
      if frames >= 1 {
        MulMonotone(1, frames, numChannels);
      }
    }
    frames
  }

  /** All `numChannels` channels of `frames` frames, de-interleaved. */
  function Deinterleave(samples: seq<int16>, numChannels: nat, frames: nat): (chs: seq<seq<real>>)
    requires frames * numChannels <= |samples|
    ensures |chs| == numChannels
    ensures forall c :: 0 <= c < numChannels ==> chs[c] == Channel(samples, numChannels, c, frames)
  {
    seq(numChannels, c requires 0 <= c < numChannels => Channel(samples, numChannels, c, frames))
  }

  /** Every channel has `frames` samples, each in [-1, 1). */
  predicate WellFormed(chs: seq<seq<real>>, frames: nat)
  {
    forall c :: 0 <= c < |chs| ==>
      |chs[c]| == frames && forall i :: 0 <= i < frames ==> -1.0 <= chs[c][i] < 1.0
  }

  lemma DeinterleaveWellFormed(samples: seq<int16>, numChannels: nat, frames: nat)
    requires frames * numChannels <= |samples|
    ensures WellFormed(Deinterleave(samples, numChannels, frames), frames)
  {
    var chs := Deinterleave(samples, numChannels, frames);
    forall c | 0 <= c < numChannels
      ensures |chs[c]| == frames && forall i :: 0 <= i < frames ==> -1.0 <= chs[c][i] < 1.0
    {
      assert chs[c] == Channel(samples, numChannels, c, frames);
    }
  }

  /** What `decodeAudioData` resolves to, or the error it throws. */
  function DecodeAudio(data: seq<byte>, sampleRate: pos, numChannels: nat): (r: Result<AudioBuffer>)
    ensures r.Err? <==> |data| % 2 != 0 || numChannels == 0 || |data| / 2 < numChannels
    ensures |data| % 2 != 0 ==> r == Err(RangeError)
    ensures r.Err? && |data| % 2 == 0 ==> r.error == NotSupportedError
    ensures r.Ok? ==>
      r.value.sampleRate == sampleRate && r.value.length == |data| / 2 / numChannels &&
      |r.value.channels| == numChannels && WellFormed(r.value.channels, r.value.length)
  {
    if |data| % 2 != 0 then Err(RangeError)
    else if numChannels == 0 then Err(NotSupportedError)
    else
      var samples := Int16View(data);
      var frames := FrameCount(|samples|, numChannels);
      if frames == 0 then Err(NotSupportedError)
      else
        DeinterleaveWellFormed(samples, numChannels, frames);
        Ok(AudioBuffer(sampleRate, frames, Deinterleave(samples, numChannels, frames)))
  }

  /** Sample i of channel c of a decoded buffer is interleaved int16 sample
      i * numChannels + c over 32768. */
  lemma DecodedSampleAt(data: seq<byte>, sampleRate: pos, numChannels: nat, c: nat, i: nat)
    requires DecodeAudio(data, sampleRate, numChannels).Ok?
    requires c < numChannels && i < DecodeAudio(data, sampleRate, numChannels).value.length
    ensures i * numChannels + c < |data| / 2
    ensures DecodeAudio(data, sampleRate, numChannels).value.channels[c][i]
            == SampleValue(Int16View(data)[i * numChannels + c])
  {
    DecodedChannels(data, sampleRate, numChannels);
    var samples := Int16View(data);
    var frames := FrameCount(|samples|, numChannels);
    assert Deinterleave(samples, numChannels, frames)[c] == Channel(samples, numChannels, c, frames);
  }

  /** A decoded buffer holds the de-interleaved whole frames of the int16 view. */
  lemma DecodedChannels(data: seq<byte>, sampleRate: pos, numChannels: nat)
    requires DecodeAudio(data, sampleRate, numChannels).Ok?
    ensures |data| % 2 == 0 && numChannels >= 1
    ensures var frames := FrameCount(|data| / 2, numChannels);
      DecodeAudio(data, sampleRate, numChannels).value.length == frames &&
      DecodeAudio(data, sampleRate, numChannels).value.channels == Deinterleave(Int16View(data), numChannels, frames)
  {
  }

  /** `decodeAudioData`: view the bytes as int16 samples, then fill each channel of a
      fresh buffer in a nested loop. */
  method DecodeAudioData(data: seq<byte>, sampleRate: pos, numChannels: nat) returns (r: Result<AudioBuffer>)
    ensures r == DecodeAudio(data, sampleRate, numChannels)
  {
    if |data| % 2 != 0 {
      return Err(RangeError);
    }
    var dataInt16 := Int16View(data);
    if numChannels == 0 {
      return Err(NotSupportedError);
    }
    var frameCount := FrameCount(|dataInt16|, numChannels);
    if frameCount == 0 {
      return Err(NotSupportedError);
    }
    var channels: seq<seq<real>> := [];
    for channel := 0 to numChannels
      invariant |channels| == channel
      invariant forall c :: 0 <= c < channel ==> channels[c] == Channel(dataInt16, numChannels, c, frameCount)
    {
      ghost var expected := Channel(dataInt16, numChannels, channel, frameCount);
      var channelData := new real[frameCount];
      for i := 0 to frameCount
        invariant forall k :: 0 <= k < i ==> channelData[k] == expected[k]
      {
        assert expected[i] == SampleValue(dataInt16[i * numChannels + channel]);
        channelData[i] := SampleValue(dataInt16[i * numChannels + channel]);
      }
      assert channelData[..] == expected;
      channels := channels + [channelData[..]];
    }
    assert channels == Deinterleave(dataInt16, numChannels, frameCount);
    DecodedChannels(data, sampleRate, numChannels);
    r := Ok(AudioBuffer(sampleRate, frameCount, channels));
  }
}
