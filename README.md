# RetroWave core in Dafny

RetroWave is a browser walkie-talkie. The user powers the radio on, holds a
push-to-talk button, and talks to a voice agent over a live audio session.
This project models the sequential logic under the user interface and proves
properties of it:

- **Effects** (`effects.dfy`, services/audioService.ts `AudioService`): the
  sound-effect service. It owns the audio context and tracks:
  - whether the context exists and is suspended;
  - the oscillators it starts (clicks and frequency-switch pulses, with their
    start and stop times and ramp end points);
  - the last automation of the static-noise gain;
  - the looping white-noise source.
- **Wire** (`wire.dfy`, services/audioService.ts `decode`, `encode`,
  `decodeAudioData`):
  - the byte ↔ binary-string loops around the base64 codec;
  - the little-endian int16 view of a byte buffer;
  - the de-interleaving of PCM samples into float channels, including the
    errors `decodeAudioData` throws.
- **Outbound** (`outbound.dfy`, services/geminiService.ts `createBlob`): the
  microphone frame converted to int16, encoded and tagged
  `audio/pcm;rate=16000`. `CreateBlob` uses the conversion as written
  (`QuantizeAsWritten`), full-scale wrap-around included. The evidently
  intended, saturating conversion (`Quantize`) is modelled beside it (see
  Findings).
- **Bridge** (`bridge.dfy`, services/geminiService.ts `GeminiService`): the voice
  bridge.
  - `connect` builds the output chain, opens the session and the 16 kHz
    capture, or reports `CONNECTION FAILED`.
  - The capture handler forwards frames only while the transmit flag is set.
  - `onmessage` schedules each decoded buffer at `max(cursor, now)` and moves
    the cursor past it. A payload without `parts`, a payload `atob` rejects
    and audio `decodeAudioData` rejects each abort the handler at the point
    where the source throws.
  - An interruption stops every live source, empties the set and resets the
    cursor to 0.
  - `ended` removes a source.
  - `disconnect` releases everything behind null guards.
- **Radio** (`radio.dfy`, App.tsx and types.ts): the front panel.
  - State: power, status, frequency and the global transmit flag (which
    mirrors `status == TALKING`).
  - The push-to-talk, frequency and power handlers.
  - The mapping from the bridge's status strings to a radio status.
  - The band label.

`common.dfy` holds an `Option` type and the positive integers.

The audio context's clock (`currentTime`) is a field the environment advances.
`onmessage` receives it as the parameter `now`. The microphone permission
prompt becomes a boolean parameter of `connect`. The live session is an object
that records the frames sent to it and whether it was closed.

## Model

| member | source | states |
|---|---|---|
| Wire.Decode | services/audioService.ts:100-108 | the result has one byte per character of the binary string, byte i being its character code modulo 256 (`BinaryToBytes`) |
| Wire.Encode | services/audioService.ts:110-117 | the string handed to `btoa` has one character per byte, with code `bytes[i]` (`BytesToBinary`) |
| Wire.EncodedIsBinary | services/audioService.ts:110-117 | what `encode` builds is a binary string whose character codes are the bytes |
| Wire.DecodedAreCharCodes | services/audioService.ts:104-106 | on a binary string, byte i of `decode` is exactly the character code at i |
| Wire.BytesRoundTrip | services/audioService.ts:100-117 | decoding what `encode` built gives the bytes back |
| Wire.BinaryRoundTrip | services/audioService.ts:100-117 | encoding what `decode` produced from a binary string gives the string back |
| Wire.Int16View | services/audioService.ts:125 | an even number of bytes viewed as an `Int16Array` gives one sample per byte pair, the little-endian signed value of that pair |
| Wire.SampleOfBytes | services/audioService.ts:125 | the two little-endian bytes of an int16 read back as that int16 |
| Wire.ViewOfPcmBytes | services/audioService.ts:125 | viewing the bytes of some int16 samples as an `Int16Array` gives those samples back |
| Wire.SampleValue | services/audioService.ts:132 | a sample over 32768 lies in [-1, 1) and times 32768 is the sample again |
| Wire.FrameCount | services/audioService.ts:126-127 | the frame count is the number of whole frames in the samples, and is 0 exactly when there are fewer samples than channels |
| Wire.Channel | services/audioService.ts:129-134 | channel c has one float per frame, frame i being interleaved sample `i*numChannels + c` over 32768 |
| Wire.DeinterleaveWellFormed | services/audioService.ts:129-134 | every de-interleaved channel has the frame count's length and every value in [-1, 1) |
| Wire.DecodeAudio | services/audioService.ts:119-136 | throws exactly when the byte count is odd (`RangeError`) or there are no channels or no whole frame (`NotSupportedError`); otherwise the buffer has the given rate, `samples / numChannels` frames, `numChannels` channels, all samples in [-1, 1) |
| Wire.DecodedSampleAt | services/audioService.ts:129-134 | sample i of channel c of a decoded buffer is interleaved int16 `i*numChannels + c` over 32768 |
| Wire.DecodeAudioData | services/audioService.ts:119-136 | the nested channel and frame loops produce exactly `DecodeAudio`, including its errors |
| Effects.AudioService.Init | services/audioService.ts:7-30 | a second call changes nothing; a first call creates a running context at the device rate, the static gain at 0.005, and a looping noise source of 2·sampleRate frames started once |
| Effects.AudioService.PlayClick | services/audioService.ts:32-47 | with a running context, one square click from now to now+0.1 (150→40 Hz, gain 0.2→0.01) is added; otherwise nothing changes |
| Effects.AudioService.PlayFreqSwitch | services/audioService.ts:49-71 | with a running context, two triangle pulses at now and now+0.05, each 0.03 s long, are added and do not overlap; otherwise nothing changes |
| Effects.AudioService.SetStaticVolume | services/audioService.ts:73-77 | glides the static gain to `vol` from now with time constant 0.05; no-op before `init` |
| Effects.AudioService.Silence | services/audioService.ts:79-84 | steps the static gain to 0 now and suspends the context; no-op before `init` |
| Effects.AudioService.Resume | services/audioService.ts:86-91 | only when suspended: runs the context again and glides the static back to 0.005 |
| Wire.PcmBytes | services/geminiService.ts:117 | the `Uint8Array` over an `Int16Array`'s buffer holds two bytes per sample, low byte first |
| Outbound.Truncate | services/geminiService.ts:114 | rounds towards zero, as storing into an `Int16Array` does |
| Outbound.WrapInt16 | services/geminiService.ts:114 | reduces modulo 2^16 into the int16 range and is the identity on that range |
| Outbound.QuantizeAsWritten | services/geminiService.ts:114 | `data[i] * 32768` stored into an `Int16Array`: the truncated product modulo 2^16, equal to it whenever it fits |
| Outbound.Quantize | services/geminiService.ts:113-115 | the intended, saturating conversion of the Findings row: every sample in [-1, 1] becomes an int16 that reads back within 1/32768 of it, with its sign kept |
| Outbound.FullScaleWraps | services/geminiService.ts:114 | as written, a sample of exactly 1.0 is sent as -32768, reads back as -1.0 and is not within one step |
| Outbound.AsWrittenAgreesBelowFullScale | services/geminiService.ts:114 | on [-1, 1) the written and the saturating conversion agree |
| Outbound.QuantizeAll | services/geminiService.ts:111-115 | the `Int16Array` as written: one sample per input sample, in order, each converted by `QuantizeAsWritten` |
| Outbound.SaturateAll | services/geminiService.ts:111-115 | the `Int16Array` the intended conversion would fill: each sample converted by `Quantize` |
| Outbound.CreateBlob | services/geminiService.ts:110-120 | the blob is tagged `audio/pcm;rate=16000` and carries two bytes per input sample: the little-endian int16 samples as written, encoded |
| Outbound.MonoRoundTrip | services/geminiService.ts:110-120 | int16 samples sent as PCM bytes and decoded as one 16 kHz channel come back as a buffer of the same length holding each sample over 32768 |
| Outbound.WireRoundTrip | services/geminiService.ts:110-120 | a frame in [-1, 1), sent as written and decoded as one 16 kHz channel, decodes to the same length with every sample within 1/32768 of the original; 1.0 is excluded because it wraps (`FullScaleWraps`) |
| Outbound.IntendedWireRoundTrip | services/geminiService.ts:110-120 | with the intended conversion the same round trip holds on the whole of [-1, 1] |
| Bridge.StartTime | services/geminiService.ts:45 | a buffer never starts before the cursor or before the current time, and starts at one of them |
| Bridge.StartTimes | services/geminiService.ts:45-59 | one start time per arriving buffer |
| Bridge.StartTimesSnoc | services/geminiService.ts:45-59 | one more arriving buffer appends one start time, taken from the cursor the earlier buffers left, and moves the cursor past it |
| Bridge.StartTimesGapless | services/geminiService.ts:45-59 | consecutive buffers never overlap, never start before their arrival or the initial cursor, and follow with no gap when the next one arrives before the previous one ends |
| Bridge.ReceiveAudio | services/geminiService.ts:42-62 | running `onmessage` over decodable, uninterrupted audio messages starts the buffers exactly at `StartTimes` and leaves the cursor at `CursorAfter`, so the gapless lemma holds of the bridge itself |
| Bridge.BackToBackPlayback | services/geminiService.ts:45-59 | half-second buffers arriving at 10.0, 10.1 and 10.3 start at 10.0, 10.5 and 11.0 |
| Bridge.EventStatus | services/geminiService.ts:39-76 | `onopen` reports `CONNECTED`, `onerror` reports `ERROR`, `onclose` reports `IDLE`, and no two callbacks report the same string |
| Bridge.InboundAudio | services/geminiService.ts:43-51 | no payload (or an empty one) is skipped; a model turn without `parts` throws before the cursor moves; a payload `atob` rejects, or audio `decodeAudioData` rejects, throws after it moves, and this includes a whitespace-only payload, which decodes to no bytes; otherwise the payload is a mono 24 kHz buffer of half as many frames as bytes |
| Bridge.GeminiService.constructor | services/geminiService.ts:6-13 | no client, no session, stream, capture, processor or output node, no live sources and the cursor at 0 |
| Bridge.GeminiService.Connect | services/geminiService.ts:15-108 | always has a client; with no output context returns at once and reports nothing; with the microphone refused reports `CONNECTION FAILED` and opens nothing; otherwise opens a fresh session that is open and has sent nothing, a stream with live tracks and an open 16 kHz capture context, with a 4096-sample handler attached; never touches the cursor or the sources |
| Bridge.GeminiService.OnAudioProcess | services/geminiService.ts:91-99 | a frame is sent exactly when the handler is attached, the transmit flag is set and there is a session, as `createBlob`'s blob (the conversion as written) appended to the session, which stays open as it was; otherwise nothing changes |
| Bridge.GeminiService.StopAll | services/geminiService.ts:65 | every live source is stopped |
| Bridge.GeminiService.Interrupt | services/geminiService.ts:64-68 | every live source is stopped, the set is empty and the cursor is 0 |
| Bridge.GeminiService.OnMessage | services/geminiService.ts:42-69 | no audio: nothing scheduled or reported; audio that decodes: exactly one fresh source at `max(cursor, now)` joins the set, the cursor moves to its end, `LISTENING` is reported once; a missing `parts` aborts with nothing changed; a base64 or decode error moves the cursor and aborts; an interruption then empties the set and resets the cursor; live sources never overlap and end by the cursor |
| Bridge.GeminiService.OnEnded | services/geminiService.ts:55-57 | the source leaves the set; removing an absent source leaves it unchanged; the cursor is untouched |
| Bridge.GeminiService.Disconnect | services/geminiService.ts:122-148 | closes the session and stops the tracks and the capture if present, forgets them, detaches the handler, stops every source and empties the set; the cursor is untouched; valid with no prior connect |
| Radio.BandNumber | App.tsx:73-80 | "B" followed by the tenths digit of the frequency, so F1, F2, F3 give B1, B2, B3 |
| Radio.BandNumberInjective | App.tsx:73-80 | different frequencies show different bands |
| Radio.StatusAfterBridge | App.tsx:39-43 | only `CONNECTED`, `LISTENING` and `ERROR` change the status; the bridge never produces TALKING or CONNECTING |
| Radio.BridgeReports | App.tsx:39-43 | an opened session gives IDLE, audio gives LISTENING, an error gives ERROR; a closed session (`IDLE`) and a failed connect are ignored |
| Radio.App.constructor | App.tsx:8-15 | a radio that is off, IDLE, on F2 and not transmitting, with no effect context and a bridge with no client, no output node, no session, stream, capture or processor, no live sources and the cursor at 0 |
| Radio.App.SetStatus | App.tsx:21-23 | the transmit flag equals `status == TALKING` after every status change |
| Radio.App.StartTalking | App.tsx:53-58 | ignored when off or LISTENING; otherwise one click, static target 0.08, status TALKING and the transmit flag set, on the same context with its clock and suspended state kept |
| Radio.App.StopTalking | App.tsx:60-65 | acts only when on and TALKING: one click, static target 0.005, status IDLE and the transmit flag cleared, on the same context with its clock and suspended state kept |
| Radio.App.ChangeFreq | App.tsx:67-71 | ignored when off; otherwise the two switch pulses and the new frequency, status unchanged, on the same context with its clock and suspended state kept |
| Radio.App.OnBridgeStatus | App.tsx:39-43 | the status becomes `StatusAfterBridge` of the report |
| Radio.App.PowerToggle | App.tsx:25-51 | off to on: a new context at the device rate and time 0 (or the old one resumed with its clock kept), a click, status CONNECTING, and the bridge connected: with the microphone granted, a fresh open session that has sent nothing, live tracks and an open 16 kHz capture with its handler attached; a refused microphone reports `CONNECTION FAILED`, leaves CONNECTING and keeps the bridge holding no session, stream or capture, as it held none while off; on to off: the old session closed, the microphone tracks stopped, the capture context closed and every live source stopped, all forgotten, static stepped to 0, the context suspended with its clock and tones kept, status IDLE |
| Radio.PushToTalkCycle | App.tsx:53-65 | while held the static target is 0.08 and a microphone frame is sent; after release the target is 0.005 and the next frame is dropped |
| Radio.FailedConnectStaysConnecting | App.tsx:35-43 | with the microphone refused, powering on reports `CONNECTION FAILED` and the status stays CONNECTING |
| Radio.AgentReplyBlocksTalk | App.tsx:39-58 | once agent audio arrives the status is LISTENING, a closed session does not clear it, and the talk button then does nothing |

## Left out

- The base64 codec (`atob` in `decode`, `btoa` in `encode`). `Wire.Decode` starts from the binary string `atob` returns and `Wire.Encode` ends with the string handed to `btoa`. The round trips assume `atob` undoes `btoa`. Which strings `atob` rejects is not modelled: a message carries either the rejection (`BadBase64`) or the binary string.
- The random noise fill of `init`, because it is nondeterministic floating point. Only the noise buffer's length, looping and start count are kept.
- The shapes of `exponentialRampToValueAtTime` and `setTargetAtTime`, the bandpass filter and the node wiring. Only the scheduled times, the ramp end points and the gain targets are kept.
- Effects.AudioService.SetStaticVolume: records the target of `setTargetAtTime`, not the curve, so it does not state that the gain approaches the target without overshooting.
- Floating point in general. Samples, times and durations are exact reals. A `Float32Array` element is an exact real and multiplying by 32768 is exact, but the buffer duration and the cursor sums are rounded in the browser.
- The `AudioContext` created by `init` has the device's rate, passed in as `deviceRate`. The limits `createBuffer` puts on the channel count and the sample rate are not modelled.
- `Int16Array` over a byte buffer assumes a little-endian platform.
- The `GoogleGenAI` client, the session's model and voice configuration, `getUserMedia` and the promise chaining. The session is a sink that records frames and closing. `sendRealtimeInput` and `close` take effect at once rather than when the promise resolves.
- Radio.App.PowerToggle: the handler runs to its end without re-entry. In the browser it awaits `resume`, `connect` (with the permission prompt inside) and `silence`. A second click during the prompt would power off first, and the resumed `connect` would then open a session and capture while the radio is off. So the model does not capture `isPowerOn` drifting from the audio state, nor a session outliving power-off.
- Effects.AudioService.Init: a new context is modelled as running at once. Under the Web Audio API a freshly constructed `AudioContext` may start 'suspended' until the browser lets it run, and browsers differ, so the click right after the first `init` may in fact be skipped. The `Audible()` state just after the first power-on rests on this assumption.
- Bridge.GeminiService.OnMessage: handlers run one at a time, so two `onmessage` calls interleaving across the `await` of `decodeAudioData` are not modelled.
- Bridge.GeminiService.Connect: a failure of `getUserMedia` is the only setup failure modelled, as the `micGranted` parameter. A session-open failure is not modelled, and neither is the later `onopen`/`onerror`/`onclose`, whose reports `Bridge.EventStatus` names.
- The `onMessage` transcript callback and `lastMessage`, because the bridge never calls that callback.
- `console.error` logging.
- The rendering in App.tsx: `userName`, `connectedUsers`, `BatteryIndicator`, the display and the buttons.
- The unreachable `default` branch of `getBandNumber` ("--"), because `Frequency` has only three values.

## Findings

| source | as written | input that shows it | evidently intended | confidence | as-written member | corrected member |
|---|---|---|---|---|---|---|
| services/geminiService.ts:114 | `data[i] * 32768` is stored into an `Int16Array`, which truncates and then wraps modulo 2^16, so a full-scale sample becomes the most negative value | a microphone sample of exactly 1.0 is sent as -32768 (read back as -1.0, a sign flip) | saturate at 32767, so every sample in [-1, 1] reads back within 1/32768 | not executed | Outbound.FullScaleWraps | Outbound.Quantize |

`Outbound.QuantizeAsWritten` is the conversion as written, and `Outbound.CreateBlob`
uses it, so `Outbound.WireRoundTrip` holds only on [-1, 1). The corrected
`Outbound.Quantize` carries the intended one-step bound, and
`Outbound.IntendedWireRoundTrip` proves the round trip with it on all of [-1, 1].
