/**
 * The sound-effect service of services/audioService.ts (`AudioService`) and
 * the audio context it owns, which the voice bridge shares for playback.
 *
 * Only what the service schedules is kept: the oscillators it starts (with
 * their start and stop times and the end points of their ramps) and the
 * target of the static gain. The shape of the exponential ramps, the node
 * wiring and the random noise samples are not modelled.
 */
module Effects {
  import opened Common

  datatype Waveform = Square | Triangle

  /** One oscillator started by the service: its waveform, when it starts and
      stops, and the start and end values of its frequency and gain ramps. */
  datatype Tone = Tone(wave: Waveform, startAt: real, stopAt: real,
                       freqFrom: real, freqTo: real, gainFrom: real, gainTo: real)

  /** The click of `playClick` at graph time `now`: a square wave falling from
      150 Hz to 40 Hz, gain 0.2 to 0.01, stopped after 0.1 s. */
  function Click(now: real): Tone
  {
    Tone(Square, now, now + 0.1, 150.0, 40.0, 0.2, 0.01)
  }

  /** One pulse of `playFreqSwitch` at `time`: a triangle wave falling from
      800 Hz to 400 Hz, gain 0.1 to 0.001, stopped after 0.03 s. */
  function Pulse(time: real): Tone
  {
    Tone(Triangle, time, time + 0.03, 800.0, 400.0, 0.1, 0.001)
  }

  /** The delay of the second frequency-switch pulse after the first. */
  const PulseGap: real := 0.05

  /** The static level at rest. */
  const RestingStatic: real := 0.005

  /** The time constant of `setTargetAtTime` in `setStaticVolume`. */
  const GlideTime: real := 0.05

  /** The browser's `AudioContext`: its clock, whether it is suspended, and the
      oscillators started on it. The clock is advanced by the environment. */
  class AudioGraph {
    const sampleRate: pos
    var currentTime: real
    var suspended: bool
    var tones: seq<Tone>

    constructor (sampleRate: pos)
      ensures this.sampleRate == sampleRate
      ensures currentTime == 0.0 && !suspended && tones == []
    {
      this.sampleRate := sampleRate;
      currentTime := 0.0;
      suspended := false;
      tones := [];
    }
  }

  /** The last automation applied to a gain parameter. */
  datatype GainSetting =
    | Level(value: real)                                  // `gain.value = value`
    | StepTo(value: real, at: real)                       // `setValueAtTime(value, at)`
    | GlideTo(value: real, at: real, timeConstant: real)  // `setTargetAtTime(value, at, timeConstant)`

  /** The looping white-noise source: its buffer length in frames, whether it
      loops, and how many times `start` was called on it. */
  datatype NoiseLoop = NoiseLoop(length: nat, looping: bool, starts: nat)

  class AudioService {
    var ctx: AudioGraph?
    var staticGain: Option<GainSetting>
    var whiteNoise: Option<NoiseLoop>

    /** The gain node and the noise loop exist exactly when the context does;
        the loop holds two seconds of noise and was started once. */
    ghost predicate Valid()
      reads this, ctx
    {
      (ctx == null <==> staticGain == None) &&
      (ctx == null <==> whiteNoise == None) &&
      (ctx != null ==> whiteNoise == Some(NoiseLoop(2 * ctx.sampleRate, true, 1)))
    }

    /** Effects can be heard: a context exists and is not suspended. */
    predicate Audible()
      reads this, ctx
    {
      ctx != null && !ctx.suspended
    }

    constructor ()
      ensures Valid() && ctx == null
    {
      ctx := null;
      staticGain := None;
      whiteNoise := None;
    }

    /** `init`: create the context at the device's rate, a two-second looping
        noise buffer and the static gain at 0.005, and start the loop; a second
        call changes nothing. */
    method Init(deviceRate: pos)
      requires Valid()
      modifies this
      ensures Valid()
      ensures old(ctx) != null ==>
        ctx == old(ctx) && staticGain == old(staticGain) && whiteNoise == old(whiteNoise)
      ensures old(ctx) == null ==>
        fresh(ctx) && ctx.sampleRate == deviceRate && ctx.currentTime == 0.0 &&
        !ctx.suspended && ctx.tones == [] &&
        staticGain == Some(Level(RestingStatic)) &&
        whiteNoise == Some(NoiseLoop(2 * deviceRate, true, 1))
    {
      if ctx != null {
        return;
      }
      var graph := new AudioGraph(deviceRate);
      ctx := graph;
      var bufferSize := 2 * graph.sampleRate;
      whiteNoise := Some(NoiseLoop(bufferSize, true, 0));
      staticGain := Some(Level(RestingStatic));
      whiteNoise := Some(whiteNoise.value.(starts := whiteNoise.value.starts + 1));
    }

    /** `playClick`: one click at the current time, unless there is no running context. */
    method PlayClick()
      requires Valid()
      modifies ctx
      ensures Valid()
      ensures old(Audible()) ==> ctx.tones == old(ctx.tones) + [Click(ctx.currentTime)]
      ensures ctx != null ==> ctx.currentTime == old(ctx.currentTime) && ctx.suspended == old(ctx.suspended)
      ensures !old(Audible()) ==> ctx == null || unchanged(ctx)
    {
      if ctx == null || ctx.suspended {
        return;
      }
      ctx.tones := ctx.tones + [Click(ctx.currentTime)];
    }

    /** `playFreqSwitch`: two pulses, at the current time and 0.05 s later, which
        do not overlap; nothing without a running context. */
    method PlayFreqSwitch()
      requires Valid()
      modifies ctx
      ensures Valid()
      ensures old(Audible()) ==>
        var n := |old(ctx.tones)|;
        ctx.tones == old(ctx.tones) + [Pulse(ctx.currentTime), Pulse(ctx.currentTime + PulseGap)] &&
        ctx.tones[n].stopAt < ctx.tones[n + 1].startAt
      ensures ctx != null ==> ctx.currentTime == old(ctx.currentTime) && ctx.suspended == old(ctx.suspended)
      ensures !old(Audible()) ==> ctx == null || unchanged(ctx)
    {
      if ctx == null || ctx.suspended {
        return;
      }
      var now := ctx.currentTime;
      ctx.tones := ctx.tones + [Pulse(now)];
      ctx.tones := ctx.tones + [Pulse(now + PulseGap)];
    }

    /** `setStaticVolume`: glide the static gain towards `vol`; nothing before `init`. */
    method SetStaticVolume(vol: real)
      requires Valid()
      modifies this
      ensures Valid()
      ensures ctx == old(ctx) && whiteNoise == old(whiteNoise)
      ensures ctx != null ==> staticGain == Some(GlideTo(vol, ctx.currentTime, GlideTime))
      ensures ctx == null ==> staticGain == old(staticGain)
    {
      if staticGain.Some? && ctx != null {
        staticGain := Some(GlideTo(vol, ctx.currentTime, GlideTime));
      }
    }

    /** `silence`: drop the static gain to 0 at once and suspend the context. */
    method Silence()
      requires Valid()
      modifies this, ctx
      ensures Valid()
      ensures ctx == old(ctx) && whiteNoise == old(whiteNoise)
      ensures ctx != null ==>
        ctx.suspended && staticGain == Some(StepTo(0.0, ctx.currentTime)) &&
        ctx.tones == old(ctx.tones) && ctx.currentTime == old(ctx.currentTime)
      ensures ctx == null ==> staticGain == old(staticGain)
    {
      if staticGain.Some? && ctx != null {
        staticGain := Some(StepTo(0.0, ctx.currentTime));
        ctx.suspended := true;
      }
    }

    /** `resume`: only when suspended, run the context again and glide the
        static back to its resting level. */
    method Resume()
      requires Valid()
      modifies this, ctx
      ensures Valid()
      ensures ctx == old(ctx) && whiteNoise == old(whiteNoise)
      ensures ctx != null ==> !ctx.suspended && ctx.tones == old(ctx.tones) && ctx.currentTime == old(ctx.currentTime)
      ensures old(ctx != null && ctx.suspended) ==>
        staticGain == Some(GlideTo(RestingStatic, ctx.currentTime, GlideTime))
      ensures !old(ctx != null && ctx.suspended) ==> staticGain == old(staticGain)
    {
      if ctx != null && ctx.suspended {
        ctx.suspended := false;
        SetStaticVolume(RestingStatic);
      }
    }
  }
}
