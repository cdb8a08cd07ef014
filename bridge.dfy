/**
 * The voice bridge of services/geminiService.ts (`GeminiService`): it opens
 * the live session, forwards microphone frames while the transmit flag is
 * set, and schedules the audio the agent sends back so that it plays without
 * gaps, stopping it all when the agent is interrupted.
 *
 * The live session, the microphone stream and the capture context are
 * modelled as small objects that record what the bridge does to them (the
 * frames sent, closing, stopping tracks); the network, the permission prompt
 * and the promise plumbing are not. Messages are handled one at a time, and
 * the graph's clock is passed in as `now`.
 */
module Bridge {
  import opened Common
  import opened Wire
  import opened Outbound
  import Effects

  /** The sample rate of the agent's audio, in Hz. */
  const InboundRate: pos := 24000

  /** The frame size of the capture processor, in samples. */
  const CaptureFrame: nat := 4096

  /** One `AudioBufferSourceNode`: a decoded buffer started at `startAt`. */
  class SourceNode {
    const buffer: AudioBuffer
    const startAt: real
    var stopped: bool

    constructor (buffer: AudioBuffer, startAt: real)
      ensures this.buffer == buffer && this.startAt == startAt && !stopped
    {
      this.buffer := buffer;
      this.startAt := startAt;
      stopped := false;
    }

    /** When the buffer finishes playing. */
    function End(): real
    {
      startAt + buffer.Duration()
    }

    method Stop()
      modifies this
      ensures stopped
    {
      stopped := true;
    }
  }

  /** The live session, as far as the bridge uses it: a sink for frames that can be closed. */
  class Session {
    var sent: seq<Blob>
    var closed: bool

    constructor ()
      ensures sent == [] && !closed
    {
      sent := [];
      closed := false;
    }
  }

  /** The microphone `MediaStream`. */
  class MicStream {
    var tracksStopped: bool

    constructor ()
      ensures !tracksStopped
    {
      tracksStopped := false;
    }
  }

  /** The dedicated 16 kHz capture context. */
  class MicCapture {
    const sampleRate: pos
    var closed: bool

    constructor (sampleRate: pos)
      ensures this.sampleRate == sampleRate && !closed
    {
      this.sampleRate := sampleRate;
      closed := false;
    }
  }

  /** The capture `ScriptProcessorNode`: its frame size, whether `onaudioprocess`
      is set and whether it is connected. */
  datatype Processor = Processor(bufferSize: nat, handlerAttached: bool, connected: bool)

  /** What reading `serverContent?.modelTurn?.parts[0]?.inlineData?.data` finds. */
  datatype Payload =
    | NoAudio                  // the chain yields `undefined` or the empty string
    | PartsMissing             // a model turn without `parts`: indexing it throws a TypeError
    | BadBase64                // a non-empty string `atob` rejects
    | Audio(binary: seq<char>) // a non-empty base64 string; `binary` is what `atob` makes of it
                               // (empty when the string is only whitespace)

  /** A server message: its audio payload and the interruption flag. */
  datatype ServerMessage = ServerMessage(payload: Payload, interrupted: bool)

  /** The session callbacks other than `onmessage`. */
  datatype SessionEvent = Opened | Errored | Closed

  /** The status string each of those callbacks reports; no two report the same. */
  function EventStatus(e: SessionEvent): (s: string)
    ensures e == Opened <==> s == "CONNECTED"
    ensures e == Errored <==> s == "ERROR"
    ensures e == Closed <==> s == "IDLE"
  {
    match e
    case Opened => "CONNECTED"
    case Errored => "ERROR"
    case Closed => "IDLE"
  }

  /** `Math.max(nextStartTime, currentTime)`: where the next buffer starts. */
  function StartTime(cursor: real, now: real): (t: real)
    ensures t >= cursor && t >= now
    ensures t == cursor || t == now
  {
    if cursor >= now then cursor else now
  }

  /** How far `onmessage` gets with the audio of a message. */
  datatype AudioStep =
    | Skipped                      // no audio: straight on to the interruption check
    | ThrowsBeforeCursor           // reading the payload throws; the handler does nothing
    | ThrowsAfterCursor            // `atob` or `decodeAudioData` throws once the cursor has moved
    | Decoded(buffer: AudioBuffer) // a mono 24 kHz buffer to schedule

  /** The step a message's audio takes. A whitespace-only payload passes the
      truthiness test, decodes to no bytes, and so throws after the cursor moved. */
  function InboundAudio(msg: ServerMessage): (step: AudioStep)
    ensures step == Skipped <==> msg.payload == NoAudio
    ensures step == ThrowsBeforeCursor <==> msg.payload == PartsMissing
    ensures step == ThrowsAfterCursor <==>
      msg.payload == BadBase64 ||
      (msg.payload.Audio? && DecodeAudio(BinaryToBytes(msg.payload.binary), InboundRate, 1).Err?)
    ensures msg.payload == Audio([]) ==> step == ThrowsAfterCursor
    ensures step.Decoded? ==>
      msg.payload.Audio? && 2 * step.buffer.length == |msg.payload.binary| &&
      step.buffer.sampleRate == InboundRate && |step.buffer.channels| == 1 &&
      step.buffer == DecodeAudio(BinaryToBytes(msg.payload.binary), InboundRate, 1).value
  {
    match msg.payload
    case NoAudio => Skipped
    case PartsMissing => ThrowsBeforeCursor
    case BadBase64 => ThrowsAfterCursor
    case Audio(binary) =>
      var decoded := DecodeAudio(BinaryToBytes(binary), InboundRate, 1);
      if decoded.Err? then ThrowsAfterCursor else Decoded(decoded.value)
  }

  /** A buffer arriving at graph time `at`, lasting `duration` seconds. */
  datatype Arrival = Arrival(at: real, duration: real)

  /** The start times `onmessage` gives buffers that arrive one after another,
      with no interruption, from the cursor `cursor`. */
  function StartTimes(cursor: real, arrivals: seq<Arrival>): (starts: seq<real>)
    ensures |starts| == |arrivals|
    decreases |arrivals|
  {
    if arrivals == [] then []
    else
      var t := StartTime(cursor, arrivals[0].at);
      [t] + StartTimes(t + arrivals[0].duration, arrivals[1..])
  }

  /** The cursor after those buffers have been scheduled. */
  function CursorAfter(cursor: real, arrivals: seq<Arrival>): (c: real)
    decreases |arrivals|
  {
    if arrivals == [] then cursor
    else CursorAfter(StartTime(cursor, arrivals[0].at) + arrivals[0].duration, arrivals[1..])
  }

  /** One more arrival appends one start time, taken from the cursor the earlier
      ones left, and moves that cursor past its buffer. */
  lemma {:induction false} StartTimesSnoc(cursor: real, arrivals: seq<Arrival>, last: Arrival)
    ensures StartTimes(cursor, arrivals + [last]) ==
            StartTimes(cursor, arrivals) + [StartTime(CursorAfter(cursor, arrivals), last.at)]
    ensures CursorAfter(cursor, arrivals + [last]) ==
            StartTime(CursorAfter(cursor, arrivals), last.at) + last.duration
    decreases |arrivals|
  {
    if arrivals != [] {
      var next := StartTime(cursor, arrivals[0].at) + arrivals[0].duration;
      assert (arrivals + [last])[1..] == arrivals[1..] + [last];
      StartTimesSnoc(next, arrivals[1..], last);
    } else {
      assert [last][1..] == [];
    }
  }

  /** Buffers are never scheduled in the past or before the cursor, never
      overlap, and follow one another without a gap whenever the next one
      arrives before the previous one ends. */
  lemma {:induction false} StartTimesGapless(cursor: real, arrivals: seq<Arrival>)
    requires forall k :: 0 <= k < |arrivals| ==> arrivals[k].duration >= 0.0
    ensures var starts := StartTimes(cursor, arrivals);
      (forall k :: 0 <= k < |arrivals| ==> starts[k] >= arrivals[k].at && starts[k] >= cursor) &&
      (forall k :: 0 <= k < |arrivals| - 1 ==> starts[k] + arrivals[k].duration <= starts[k + 1]) &&
      (forall k :: 0 <= k < |arrivals| - 1 && arrivals[k + 1].at <= starts[k] + arrivals[k].duration ==>
         starts[k + 1] == starts[k] + arrivals[k].duration)
    decreases |arrivals|
  {
    if arrivals != [] {
      var t := StartTime(cursor, arrivals[0].at);
      var next := t + arrivals[0].duration;
      var tail := arrivals[1..];
      var rest := StartTimes(next, tail);
      StartTimesGapless(next, tail);
      var starts := StartTimes(cursor, arrivals);
      assert starts == [t] + rest;
      forall k | 1 <= k < |arrivals|
        ensures starts[k] == rest[k - 1] && arrivals[k] == tail[k - 1]
      {
      }
      if tail != [] {
        assert rest[0] == StartTime(next, tail[0].at);
      }
    }
  }

  class GeminiService {
    var hasClient: bool
    var sessionPromise: Session?
    var nextStartTime: real
    var sources: set<SourceNode>
    var hasOutputNode: bool
    var stream: MicStream?
    var scriptProcessor: Option<Processor>
    var micInputContext: MicCapture?

    /** Every live source is still playing or pending, ends by the cursor, and
        no two live sources overlap. */
    ghost predicate Valid()
      reads this, sources
    {
      (forall s :: s in sources ==> !s.stopped && s.End() <= nextStartTime) &&
      (forall s, t :: s in sources && t in sources && s != t ==> s.End() <= t.startAt || t.End() <= s.startAt)
    }

    /** `onaudioprocess` is set on the capture processor. */
    predicate HandlerAttached()
      reads this
    {
      scriptProcessor.Some? && scriptProcessor.value.handlerAttached
    }

    constructor ()
      ensures Valid()
      ensures !hasClient && sessionPromise == null && nextStartTime == 0.0 && sources == {}
      ensures !hasOutputNode && stream == null && scriptProcessor == None && micInputContext == null
    {
      hasClient := false;
      sessionPromise := null;
      nextStartTime := 0.0;
      sources := {};
      hasOutputNode := false;
      stream := null;
      scriptProcessor := None;
      micInputContext := null;
    }

    /** `connect`: create the client if needed; with no output context, stop
        there and report nothing; otherwise build the output chain and, if the
        microphone is granted, open the session and the 16 kHz capture with its
        frame handler, else report `CONNECTION FAILED`. The playback cursor and
        the live sources are left alone. */
    method Connect(outputCtx: Effects.AudioGraph?, micGranted: bool) returns (reported: Option<string>)
      requires Valid()
      modifies this
      ensures Valid()
      ensures hasClient
      ensures nextStartTime == old(nextStartTime) && sources == old(sources)
      ensures outputCtx == null ==>
        reported == None && hasOutputNode == old(hasOutputNode) &&
        sessionPromise == old(sessionPromise) && stream == old(stream) &&
        scriptProcessor == old(scriptProcessor) && micInputContext == old(micInputContext)
      ensures outputCtx != null ==> hasOutputNode
      ensures outputCtx != null && !micGranted ==>
        reported == Some("CONNECTION FAILED") &&
        sessionPromise == old(sessionPromise) && stream == old(stream) &&
        scriptProcessor == old(scriptProcessor) && micInputContext == old(micInputContext)
      ensures outputCtx != null && micGranted ==>
        reported == None &&
        sessionPromise != null && fresh(sessionPromise) && sessionPromise.sent == [] && !sessionPromise.closed &&
        stream != null && fresh(stream) && !stream.tracksStopped &&
        micInputContext != null && fresh(micInputContext) && micInputContext.sampleRate == MicRate &&
        !micInputContext.closed &&
        scriptProcessor == Some(Processor(CaptureFrame, true, true))
    {
      if !hasClient {
        hasClient := true;
      }
      if outputCtx == null {
        return None;
      }
      hasOutputNode := true;
      if !micGranted {
        return Some("CONNECTION FAILED");
      }
      stream := new MicStream();
      sessionPromise := new Session();
      micInputContext := new MicCapture(MicRate);
      scriptProcessor := Some(Processor(CaptureFrame, true, true));
      reported := None;
    }

    /** `onaudioprocess`: while the transmit flag is set, encode the frame and
        send it on the session; otherwise drop it. Nothing happens once the
        handler has been detached. */
    method OnAudioProcess(frame: seq<real>, isTalking: bool) returns (sent: Option<Blob>)
      modifies sessionPromise
      ensures sent.Some? <==> HandlerAttached() && isTalking && sessionPromise != null
      ensures sent.Some? ==>
        sent.value.mimeType == MicMimeType && |sent.value.payload| == 2 * |frame| &&
        sent.value.payload == BytesToBinary(PcmBytes(QuantizeAll(frame))) &&
        sessionPromise.sent == old(sessionPromise.sent) + [sent.value] &&
        sessionPromise.closed == old(sessionPromise.closed)
      ensures sent.None? ==> sessionPromise == null || unchanged(sessionPromise)
    {
      sent := None;
      if !HandlerAttached() {
        return;
      }
      if isTalking {
        var pcmBlob := CreateBlob(frame);
        if sessionPromise != null {
          sessionPromise.sent := sessionPromise.sent + [pcmBlob];
          sent := Some(pcmBlob);
        }
      }
    }

    /** Stop every live source (the `forEach` over the set); the set itself is kept. */
    method StopAll()
      modifies sources
      ensures forall s :: s in sources ==> s.stopped
    {
      var pending := sources;
      while pending != {}
        invariant pending <= sources
        invariant forall s :: s in sources && s !in pending ==> s.stopped
        decreases pending
      {
        var s :| s in pending;
        s.Stop();
        pending := pending - {s};
      }
    }

    /** The `interrupted` branch: stop every live source, empty the set and
        reset the cursor to 0, so the next buffer starts at the current time. */
    method Interrupt()
      modifies this, sources
      ensures Valid()
      ensures sources == {} && nextStartTime == 0.0
      ensures forall s :: s in old(sources) ==> s.stopped
      ensures hasClient == old(hasClient) && sessionPromise == old(sessionPromise) &&
              hasOutputNode == old(hasOutputNode) && stream == old(stream) &&
              scriptProcessor == old(scriptProcessor) && micInputContext == old(micInputContext)
    {
      StopAll();
      sources := {};
      nextStartTime := 0.0;
    }

    /** `onmessage`. Reading a payload without `parts` throws at once. A message
        with audio moves the cursor to `max(cursor, now)`; if the audio decodes,
        one new source starts there, joins the live set, the cursor moves past
        it and `LISTENING` is reported, while a base64 or decoding error aborts
        the handler at that point. Then, if the message says so, playback is
        interrupted. */
    method OnMessage(msg: ServerMessage, now: real) returns (reported: seq<string>, scheduled: SourceNode?)
      requires Valid()
      modifies this, sources
      ensures Valid()
      ensures hasClient == old(hasClient) && sessionPromise == old(sessionPromise) &&
              hasOutputNode == old(hasOutputNode) && stream == old(stream) &&
              scriptProcessor == old(scriptProcessor) && micInputContext == old(micInputContext)
      ensures !InboundAudio(msg).Decoded? ==> reported == [] && scheduled == null
      ensures InboundAudio(msg) == Skipped ==>
        if msg.interrupted then sources == {} && nextStartTime == 0.0 && (forall s :: s in old(sources) ==> s.stopped)
        else sources == old(sources) && nextStartTime == old(nextStartTime)
      ensures InboundAudio(msg) == ThrowsBeforeCursor ==>
        sources == old(sources) && nextStartTime == old(nextStartTime)
      ensures InboundAudio(msg) == ThrowsAfterCursor ==>
        sources == old(sources) && nextStartTime == StartTime(old(nextStartTime), now)
      ensures InboundAudio(msg).Decoded? ==>
        reported == ["LISTENING"] && scheduled != null && fresh(scheduled) &&
        scheduled.buffer == InboundAudio(msg).buffer &&
        scheduled.startAt == StartTime(old(nextStartTime), now) &&
        if msg.interrupted then
          sources == {} && nextStartTime == 0.0 && scheduled.stopped && (forall s :: s in old(sources) ==> s.stopped)
        else
          sources == old(sources) + {scheduled} && nextStartTime == scheduled.End() && !scheduled.stopped
    {
      reported := [];
      scheduled := null;
      match msg.payload {
        case NoAudio =>
        case PartsMissing =>
          return;
        case BadBase64 =>
          nextStartTime := StartTime(nextStartTime, now);
          return;
        case Audio(binary) =>
          nextStartTime := StartTime(nextStartTime, now);
          var bytes := Decode(binary);
          var decoded := DecodeAudioData(bytes[..], InboundRate, 1);
          if decoded.Err? {
            return;
          }
          var source := new SourceNode(decoded.value, nextStartTime);
          nextStartTime := nextStartTime + decoded.value.Duration();
          sources := sources + {source};
          reported := ["LISTENING"];
          scheduled := source;
      }
      if msg.interrupted {
        Interrupt();
      }
    }

    /** The `ended` listener: the source leaves the live set; a source that is
        not in it leaves the set as it was. */
    method OnEnded(source: SourceNode)
      requires Valid()
      modifies this
      ensures Valid()
      ensures sources == old(sources) - {source}
      ensures source !in old(sources) ==> sources == old(sources)
      ensures nextStartTime == old(nextStartTime)
      ensures hasClient == old(hasClient) && sessionPromise == old(sessionPromise) &&
              hasOutputNode == old(hasOutputNode) && stream == old(stream) &&
              scriptProcessor == old(scriptProcessor) && micInputContext == old(micInputContext)
    {
      sources := sources - {source};
    }

    /** `disconnect`: close the session and forget it, stop the microphone
        tracks and forget the stream, detach and disconnect the processor
        (which is kept), close and forget the capture context, stop every live
        source and empty the set. Every step is guarded, so it may be called
        without a prior `connect` and twice; the cursor is not touched. */
    method Disconnect()
      requires Valid()
      modifies this, sessionPromise, stream, micInputContext, sources
      ensures Valid()
      ensures sessionPromise == null && stream == null && micInputContext == null && sources == {}
      ensures old(sessionPromise) != null ==> old(sessionPromise).closed && old(sessionPromise).sent == old(sessionPromise.sent)
      ensures old(stream) != null ==> old(stream).tracksStopped
      ensures old(micInputContext) != null ==> old(micInputContext).closed
      ensures forall s :: s in old(sources) ==> s.stopped
      ensures scriptProcessor == if old(scriptProcessor).None? then None
                                 else Some(old(scriptProcessor).value.(handlerAttached := false, connected := false))
      ensures !HandlerAttached()
      ensures nextStartTime == old(nextStartTime)
      ensures hasClient == old(hasClient) && hasOutputNode == old(hasOutputNode)
    {
      if sessionPromise != null {
        sessionPromise.closed := true;
      }
      sessionPromise := null;
      if stream != null {
        stream.tracksStopped := true;
        stream := null;
      }
      if scriptProcessor.Some? {
        scriptProcessor := Some(scriptProcessor.value.(connected := false));
        scriptProcessor := Some(scriptProcessor.value.(handlerAttached := false));
      }
      if micInputContext != null {
        micInputContext.closed := true;
        micInputContext := null;
      }
      StopAll();
      sources := {};
    }
  }

  /** The arrivals of some decodable audio messages received at the given times. */
  function Arrivals(msgs: seq<ServerMessage>, times: seq<real>): (arrivals: seq<Arrival>)
    requires |msgs| == |times|
    requires forall k :: 0 <= k < |msgs| ==> InboundAudio(msgs[k]).Decoded?
    ensures |arrivals| == |msgs|
    ensures forall k :: 0 <= k < |msgs| ==>
      arrivals[k] == Arrival(times[k], InboundAudio(msgs[k]).buffer.Duration()) && arrivals[k].duration >= 0.0
  {
    seq(|msgs|, k requires 0 <= k < |msgs| => Arrival(times[k], InboundAudio(msgs[k]).buffer.Duration()))
  }

  /** Feed `onmessage` a run of audio messages, none interrupted, received at the
      given times, and collect where each buffer starts: exactly the start times
      `StartTimes` gives, so `StartTimesGapless` applies to the live bridge. */
  method ReceiveAudio(bridge: GeminiService, msgs: seq<ServerMessage>, times: seq<real>) returns (starts: seq<real>)
    requires bridge.Valid()
    requires |msgs| == |times|
    requires forall k :: 0 <= k < |msgs| ==> InboundAudio(msgs[k]).Decoded? && !msgs[k].interrupted
    modifies bridge, bridge.sources
    ensures bridge.Valid()
    ensures starts == StartTimes(old(bridge.nextStartTime), Arrivals(msgs, times))
    ensures bridge.nextStartTime == CursorAfter(old(bridge.nextStartTime), Arrivals(msgs, times))
  {
    ghost var arrivals := Arrivals(msgs, times);
    ghost var cursor := bridge.nextStartTime;
    starts := [];
    for i := 0 to |msgs|
      invariant bridge.Valid()
      invariant forall s :: s in bridge.sources ==> s in old(bridge.sources) || fresh(s)
      invariant starts == StartTimes(cursor, arrivals[..i])
      invariant bridge.nextStartTime == CursorAfter(cursor, arrivals[..i])
    {
      var reported, scheduled := bridge.OnMessage(msgs[i], times[i]);
      StartTimesSnoc(cursor, arrivals[..i], arrivals[i]);
      assert arrivals[..i + 1] == arrivals[..i] + [arrivals[i]];
      starts := starts + [scheduled.startAt];
    }
    assert arrivals[..|msgs|] == arrivals;
  }

  /** Three half-second buffers arriving at 10.0, 10.1 and 10.3 on a fresh
      bridge start back to back at 10.0, 10.5 and 11.0. */
  method BackToBackPlayback() returns (starts: seq<real>)
    ensures starts == [10.0, 10.5, 11.0]
  {
    var bridge := new GeminiService();
    // 24000 bytes: 12000 mono samples, half a second at 24 kHz.
    var payload := seq(24000, _ => 'a');
    var msg := ServerMessage(Audio(payload), false);
    assert InboundAudio(msg).buffer.Duration() == 0.5;
    var r1, s1 := bridge.OnMessage(msg, 10.0);
    var r2, s2 := bridge.OnMessage(msg, 10.1);
    var r3, s3 := bridge.OnMessage(msg, 10.3);
    starts := [s1.startAt, s2.startAt, s3.startAt];
  }
}
