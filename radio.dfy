/**
 * The walkie-talkie front panel of App.tsx, without its rendering: the
 * power, status and frequency state, the push-to-talk and frequency handlers,
 * the power toggle, and the mapping from the bridge's status strings to a
 * radio status. `isTalking` mirrors the global transmit flag that App.tsx
 * sets from the status after every change and the capture handler reads.
 * The enumerations come from types.ts.
 */
module Radio {
  import opened Common
  import Effects
  import Bridge
  import Outbound

  datatype Frequency = F1 | F2 | F3

  /** The string value of each `Frequency`, in MHz. */
  function FrequencyValue(f: Frequency): string
  {
    match f
    case F1 => "433.10"
    case F2 => "433.20"
    case F3 => "433.30"
  }

  datatype RadioStatus = Idle | Listening | Talking | Connecting | Error

  /** The static level while transmitting. */
  const TalkingStatic: real := 0.08

  /** `getBandNumber`: "B" followed by the tenths digit of the frequency. */
  function BandNumber(f: Frequency): (band: string)
    ensures |band| == 2 && band[0] == 'B' && band[1] == FrequencyValue(f)[4]
  {
    match f
    case F1 => "B1"
    case F2 => "B2"
    case F3 => "B3"
  }

  /** Different frequencies show different bands. */
  lemma BandNumberInjective(f: Frequency, g: Frequency)
    ensures BandNumber(f) == BandNumber(g) ==> f == g
  {
    if BandNumber(f) == BandNumber(g) {
      assert FrequencyValue(f)[4] == FrequencyValue(g)[4];
    }
  }

  /** The status callback passed to `connect`: three strings set a status,
      every other string leaves the status as it was. The bridge never puts
      the radio into TALKING or CONNECTING. */
  function StatusAfterBridge(current: RadioStatus, reported: string): (next: RadioStatus)
    ensures next == current || reported in {"CONNECTED", "LISTENING", "ERROR"}
    ensures next == Talking ==> current == Talking
    ensures next == Connecting ==> current == Connecting
  {
    if reported == "CONNECTED" then Idle
    else if reported == "LISTENING" then Listening
    else if reported == "ERROR" then Error
    else current
  }

  /** What each report of the bridge does to the status: an opened session
      gives IDLE, agent audio LISTENING, a session error ERROR; a closed
      session ('IDLE') and a failed connect ('CONNECTION FAILED') are ignored. */
  lemma BridgeReports(current: RadioStatus)
    ensures StatusAfterBridge(current, Bridge.EventStatus(Bridge.Opened)) == Idle
    ensures StatusAfterBridge(current, "LISTENING") == Listening
    ensures StatusAfterBridge(current, Bridge.EventStatus(Bridge.Errored)) == Error
    ensures StatusAfterBridge(current, Bridge.EventStatus(Bridge.Closed)) == current
    ensures StatusAfterBridge(current, "CONNECTION FAILED") == current
  {
    assert Bridge.EventStatus(Bridge.Closed) != "CONNECTED";
    assert "CONNECTION FAILED" != "CONNECTED";
  }

  class App {
    var frequency: Frequency
    var status: RadioStatus
    var isPowerOn: bool
    var isTalking: bool
    const audio: Effects.AudioService
    const bridge: Bridge.GeminiService

    /** The transmit flag is the status being TALKING; the radio is on exactly
        when the effect context exists and runs; while it is off the bridge
        holds no session, stream or capture; both services are consistent. */
    ghost predicate Valid()
      reads this, audio, audio.ctx, bridge, bridge.sources
    {
      isTalking == (status == Talking) &&
      audio.Valid() && bridge.Valid() &&
      (isPowerOn <==> audio.Audible()) &&
      (!isPowerOn ==> bridge.sessionPromise == null && bridge.stream == null && bridge.micInputContext == null)
    }

    constructor ()
      ensures Valid() && fresh(audio) && fresh(bridge)
      ensures frequency == F2 && status == Idle && !isPowerOn && !isTalking
      ensures audio.ctx == null && bridge.sessionPromise == null && bridge.sources == {}
      ensures bridge.stream == null && bridge.micInputContext == null
      ensures bridge.nextStartTime == 0.0 && !bridge.hasClient && !bridge.hasOutputNode &&
              bridge.scriptProcessor == None
    {
      frequency := F2;
      status := Idle;
      isPowerOn := false;
      isTalking := false;
      audio := new Effects.AudioService();
      bridge := new Bridge.GeminiService();
    }

    /** `setStatus`, followed by the effect that mirrors it into the transmit flag. */
    method SetStatus(s: RadioStatus)
      modifies this
      ensures status == s && isTalking == (s == Talking)
      ensures frequency == old(frequency) && isPowerOn == old(isPowerOn)
    {
      status := s;
      isTalking := s == Talking;
    }

    /** `startTalking`: ignored when off or while the agent is heard; otherwise
        a click, the static raised to 0.08, and TALKING. */
    method StartTalking()
      requires Valid()
      modifies this, audio, audio.ctx
      ensures Valid()
      ensures isPowerOn == old(isPowerOn) && frequency == old(frequency) && audio.ctx == old(audio.ctx)
      ensures !old(isPowerOn) || old(status) == Listening ==>
        status == old(status) && isTalking == old(isTalking) &&
        unchanged(audio) && (audio.ctx == null || unchanged(audio.ctx))
      ensures old(isPowerOn) && old(status) != Listening ==>
        status == Talking && isTalking &&
        audio.ctx.currentTime == old(audio.ctx.currentTime) && audio.ctx.suspended == old(audio.ctx.suspended) &&
        audio.ctx.tones == old(audio.ctx.tones) + [Effects.Click(audio.ctx.currentTime)] &&
        audio.staticGain == Some(Effects.GlideTo(TalkingStatic, audio.ctx.currentTime, Effects.GlideTime))
    {
      if !isPowerOn || status == Listening {
        return;
      }
      audio.PlayClick();
      audio.SetStaticVolume(TalkingStatic);
      SetStatus(Talking);
    }

    /** `stopTalking`: only when on and TALKING; then a click, the static back
        to 0.005, and IDLE. */
    method StopTalking()
      requires Valid()
      modifies this, audio, audio.ctx
      ensures Valid()
      ensures isPowerOn == old(isPowerOn) && frequency == old(frequency) && audio.ctx == old(audio.ctx)
      ensures !old(isPowerOn) || old(status) != Talking ==>
        status == old(status) && isTalking == old(isTalking) &&
        unchanged(audio) && (audio.ctx == null || unchanged(audio.ctx))
      ensures old(isPowerOn) && old(status) == Talking ==>
        status == Idle && !isTalking &&
        audio.ctx.currentTime == old(audio.ctx.currentTime) && audio.ctx.suspended == old(audio.ctx.suspended) &&
        audio.ctx.tones == old(audio.ctx.tones) + [Effects.Click(audio.ctx.currentTime)] &&
        audio.staticGain == Some(Effects.GlideTo(Effects.RestingStatic, audio.ctx.currentTime, Effects.GlideTime))
    {
      if !isPowerOn || status != Talking {
        return;
      }
      audio.PlayClick();
      audio.SetStaticVolume(Effects.RestingStatic);
      SetStatus(Idle);
    }

    /** `changeFreq`: ignored when off; otherwise the switch chirp and the new
        frequency, with the status left as it was. */
    method ChangeFreq(f: Frequency)
      requires Valid()
      modifies this, audio.ctx
      ensures Valid()
      ensures status == old(status) && isTalking == old(isTalking) && isPowerOn == old(isPowerOn)
      ensures !old(isPowerOn) ==> frequency == old(frequency) && (audio.ctx == null || unchanged(audio.ctx))
      ensures old(isPowerOn) ==>
        frequency == f &&
        audio.ctx.currentTime == old(audio.ctx.currentTime) && audio.ctx.suspended == old(audio.ctx.suspended) &&
        audio.ctx.tones == old(audio.ctx.tones) +
          [Effects.Pulse(audio.ctx.currentTime), Effects.Pulse(audio.ctx.currentTime + Effects.PulseGap)]
    {
      if !isPowerOn {
        return;
      }
      audio.PlayFreqSwitch();
      frequency := f;
    }

    /** The status callback given to `connect`. */
    method OnBridgeStatus(reported: string)
      requires Valid()
      modifies this
      ensures Valid()
      ensures status == StatusAfterBridge(old(status), reported)
      ensures frequency == old(frequency) && isPowerOn == old(isPowerOn)
    {
      SetStatus(StatusAfterBridge(status, reported));
    }

    /** `handlePowerToggle`. Off to on: create the effect context (or resume
        it), click, CONNECTING, then connect the bridge; whatever `connect`
        reports at once leaves the status at CONNECTING. On to off: disconnect
        the bridge, silence the effects and go IDLE. */
    method PowerToggle(deviceRate: pos, micGranted: bool) returns (reported: Option<string>)
      requires Valid()
      modifies this, audio, audio.ctx, bridge, bridge.sessionPromise, bridge.stream,
               bridge.micInputContext, bridge.sources
      ensures Valid()
      ensures isPowerOn == !old(isPowerOn) && frequency == old(frequency)
      ensures reported == if !old(isPowerOn) && !micGranted then Some("CONNECTION FAILED") else None
      ensures !old(isPowerOn) ==>
        status == Connecting && !isTalking && audio.ctx != null &&
        (old(audio.ctx) == null ==>
           fresh(audio.ctx) && audio.ctx.sampleRate == deviceRate && audio.ctx.currentTime == 0.0 &&
           audio.ctx.tones == [Effects.Click(audio.ctx.currentTime)] &&
           audio.staticGain == Some(Effects.Level(Effects.RestingStatic))) &&
        (old(audio.ctx) != null ==>
           audio.ctx == old(audio.ctx) && audio.ctx.currentTime == old(audio.ctx.currentTime) &&
           audio.ctx.tones == old(audio.ctx.tones) + [Effects.Click(audio.ctx.currentTime)] &&
           audio.staticGain == Some(Effects.GlideTo(Effects.RestingStatic, audio.ctx.currentTime, Effects.GlideTime))) &&
        bridge.hasClient && bridge.hasOutputNode &&
        bridge.sources == old(bridge.sources) && bridge.nextStartTime == old(bridge.nextStartTime) &&
        (micGranted ==>
           bridge.sessionPromise != null && fresh(bridge.sessionPromise) &&
           bridge.sessionPromise.sent == [] && !bridge.sessionPromise.closed &&
           bridge.stream != null && fresh(bridge.stream) && !bridge.stream.tracksStopped &&
           bridge.micInputContext != null && fresh(bridge.micInputContext) &&
           bridge.micInputContext.sampleRate == Outbound.MicRate && !bridge.micInputContext.closed &&
           bridge.scriptProcessor == Some(Bridge.Processor(Bridge.CaptureFrame, true, true)) &&
           bridge.HandlerAttached()) &&
        (!micGranted ==> bridge.sessionPromise == null &&
                         bridge.sessionPromise == old(bridge.sessionPromise) &&
                         bridge.stream == old(bridge.stream) &&
                         bridge.micInputContext == old(bridge.micInputContext) &&
                         bridge.scriptProcessor == old(bridge.scriptProcessor))
      ensures old(isPowerOn) ==>
        status == Idle && !isTalking && audio.ctx == old(audio.ctx) && audio.ctx.suspended &&
        audio.ctx.tones == old(audio.ctx.tones) && audio.ctx.currentTime == old(audio.ctx.currentTime) &&
        audio.staticGain == Some(Effects.StepTo(0.0, audio.ctx.currentTime)) &&
        bridge.hasClient == old(bridge.hasClient) && bridge.hasOutputNode == old(bridge.hasOutputNode) &&
        bridge.sessionPromise == null && bridge.stream == null && bridge.micInputContext == null &&
        bridge.sources == {} && !bridge.HandlerAttached() &&
        (old(bridge.sessionPromise) != null ==> old(bridge.sessionPromise).closed) &&
        (old(bridge.stream) != null ==> old(bridge.stream).tracksStopped) &&
        (old(bridge.micInputContext) != null ==> old(bridge.micInputContext).closed) &&
        (forall s :: s in old(bridge.sources) ==> s.stopped) &&
        bridge.nextStartTime == old(bridge.nextStartTime)
    {
      if !isPowerOn {
        if audio.ctx == null {
          audio.Init(deviceRate);
        } else {
          audio.Resume();
        }
        audio.PlayClick();
        isPowerOn := true;
        SetStatus(Connecting);
        reported := bridge.Connect(audio.ctx, micGranted);
        if reported.Some? {
          OnBridgeStatus(reported.value);
        }
      } else {
        reported := None;
        bridge.Disconnect();
        audio.Silence();
        isPowerOn := false;
        SetStatus(Idle);
      }
    }
  }

  /** A push-to-talk cycle on a fresh radio with the microphone granted: while
      the button is held the static target is 0.08 and a microphone frame is
      sent; after release the target is 0.005 and the next frame is dropped. */
  method PushToTalkCycle(frame: seq<real>) returns (heldTarget: real, sentWhileHeld: bool,
                                                    releasedTarget: real, sentAfterRelease: bool)
    ensures heldTarget == TalkingStatic && sentWhileHeld
    ensures releasedTarget == Effects.RestingStatic && !sentAfterRelease
  {
    var app := new App();
    var ignored := app.PowerToggle(48000, true);
    app.StartTalking();
    heldTarget := app.audio.staticGain.value.value;
    var first := app.bridge.OnAudioProcess(frame, app.isTalking);
    sentWhileHeld := first.Some?;
    app.StopTalking();
    releasedTarget := app.audio.staticGain.value.value;
    var second := app.bridge.OnAudioProcess(frame, app.isTalking);
    sentAfterRelease := second.Some?;
  }

  /** With the microphone refused, powering on reports a failed connection,
      which the radio ignores: it stays CONNECTING. */
  method FailedConnectStaysConnecting() returns (status: RadioStatus, reported: Option<string>)
    ensures reported == Some("CONNECTION FAILED")
    ensures status == Connecting
  {
    var app := new App();
    reported := app.PowerToggle(48000, false);
    status := app.status;
  }

  /** Once the agent has been heard the radio shows LISTENING, and pressing the
      talk button does nothing. The end of playback reports nothing and a closed
      session (`IDLE`) is ignored, so only an opened session, a session error or
      a power cycle lets the talk button act again. */
  method AgentReplyBlocksTalk() returns (status: RadioStatus, transmitting: bool)
    ensures status == Listening && !transmitting
  {
    var app := new App();
    var ignored := app.PowerToggle(48000, true);
    app.OnBridgeStatus(Bridge.EventStatus(Bridge.Opened));
    // 2400 bytes: 1200 mono samples, 50 ms at 24 kHz.
    var msg := Bridge.ServerMessage(Bridge.Audio(seq(2400, _ => 'a')), false);
    var reported, scheduled := app.bridge.OnMessage(msg, 1.0);
    app.OnBridgeStatus(reported[0]);
    app.OnBridgeStatus(Bridge.EventStatus(Bridge.Closed));
    app.StartTalking();
    status := app.status;
    transmitting := app.isTalking;
  }
}
