/**
  Tone sequences with attack, release, looping pauses and deferred restart.

  The source advances one frame at a time; `Step` is one frame, `Emit` the value that frame adds to
  every sample of it. The class at the end is the source as it is written, field by field, and is
  proved to run exactly these steps over a buffer.
 */
module Waveform {
  import opened Frames

  datatype Form = Sine | Triangle | Square | Sawtooth

  datatype Tone = Tone(freq: real, form: Form, amp: real)

  datatype ToneSegment = Sound(tone: Tone, duration: real) | Silence(duration: real)

  /** A segment with its duration already counted in samples; no tone means silence. */
  datatype Segment = Segment(tone: Option<Tone>, samples: nat)

  /** A tenth of a second at the 48 kHz target rate, whatever rate the source itself runs at. */
  const RESTART_SAMPLES: nat := 4800

  /** `sineOfTurns(x)` stands for sin(2 pi x). */
  datatype Config = Config(
    segments: seq<Segment>,
    channels: nat,
    sampleRate: real,
    sineOfTurns: real -> real,
    attack: nat,
    release: nat,
    silence: nat,
    looped: bool
  )

  datatype State = State(
    volume: real,
    active: bool,
    releasing: bool,
    restarting: bool,
    envPos: nat,
    segIdx: nat,
    segElapsed: nat,
    cyclePos: nat
  )

  /** Samples of the first `i` segments. */
  function Prefix(segments: seq<Segment>, i: nat): nat
    requires i <= |segments|
  {
    if i == 0 then 0 else Prefix(segments, i - 1) + segments[i - 1].samples
  }

  function Total(cfg: Config): nat {
    Prefix(cfg.segments, |cfg.segments|)
  }

  /** What the constructor guarantees: only a looped source has a pause. */
  predicate Built(cfg: Config) {
    cfg.channels > 0 && (!cfg.looped ==> cfg.silence == 0)
  }

  /** The segment index may be used whenever there is a segment at all. */
  predicate InRange(cfg: Config, s: State) {
    |cfg.segments| > 0 ==> s.segIdx < |cfg.segments|
  }

  predicate Audible(s: State) {
    s.active && s.volume != 0.0
  }

  function Started(volume: real): State {
    State(volume, true, false, false, 0, 0, 0, 0)
  }

  // ---------------------------------------------------------------- generators

  /** Periods since the segment began. A zero rate prepares no samples, so its case never decides a played one. */
  function Turns(cfg: Config, tone: Tone, elapsed: nat): real {
    if cfg.sampleRate == 0.0 then 0.0 else elapsed as real / cfg.sampleRate * tone.freq
  }

  function Wave(form: Form, turns: real, sineOfTurns: real -> real): real {
    var phase := turns - turns.Floor as real;
    match form
    case Sine => sineOfTurns(turns)
    case Triangle => 1.0 - 4.0 * (if phase < 0.5 then 0.5 - phase else phase - 0.5)
    case Square => if phase < 0.5 then 1.0 else -1.0
    case Sawtooth => 2.0 * phase - 1.0
  }

  function Waveform(cfg: Config, segment: Segment, elapsed: nat): real {
    match segment.tone
    case None => 0.0
    case Some(tone) => Wave(tone.form, Turns(cfg, tone, elapsed), cfg.sineOfTurns)
  }

  /** `n / d`, at most one; a zero-length ramp is already over. */
  function Ramp(n: nat, d: nat): real {
    if d == 0 || n >= d then 1.0 else n as real / d as real
  }

  function SegmentEnvelope(cfg: Config, segment: Segment, elapsed: nat): real {
    var remaining: nat := if segment.samples > elapsed then segment.samples - elapsed else 0;
    var fadeIn := Ramp(elapsed, cfg.attack);
    var fadeOut := Ramp(remaining, cfg.release);
    if fadeIn <= fadeOut then fadeIn else fadeOut
  }

  function ReleaseEnvelope(cfg: Config, s: State): real {
    if !s.releasing then 1.0
    else if cfg.release == 0 then 0.0
    else 1.0 - Min(s.envPos, cfg.release) as real / cfg.release as real
  }

  function Amp(segment: Segment): real {
    if segment.tone.Some? then segment.tone.value.amp else 0.0
  }

  /** The waveform under the envelope of its segment. */
  function Shaped(cfg: Config, segment: Segment, elapsed: nat): real {
    Waveform(cfg, segment, elapsed) * SegmentEnvelope(cfg, segment, elapsed)
  }

  /** The same under a release gain. */
  function Faded(cfg: Config, segment: Segment, elapsed: nat, gain: real): real {
    Shaped(cfg, segment, elapsed) * gain
  }

  /** The same at the amplitude of the tone. */
  function Sounded(cfg: Config, segment: Segment, elapsed: nat, gain: real): real {
    Faded(cfg, segment, elapsed, gain) * Amp(segment)
  }

  /** The value of a segment at an offset, under a release gain and the source's volume. */
  function Voice(cfg: Config, i: nat, elapsed: nat, gain: real, volume: real): real
    requires i < |cfg.segments|
  {
    Sounded(cfg, cfg.segments[i], elapsed, gain) * volume
  }

  lemma TotalNeedsSegments(cfg: Config)
    ensures Total(cfg) > 0 ==> |cfg.segments| > 0
  {
  }

  function Emit(cfg: Config, s: State): real
    requires InRange(cfg, s)
  {
    if Audible(s) && s.cyclePos < Total(cfg) then
      TotalNeedsSegments(cfg);
      Voice(cfg, s.segIdx, s.segElapsed, ReleaseEnvelope(cfg, s), s.volume)
    else 0.0
  }

  // ---------------------------------------------------------------- one frame

  function AdvanceSegment(cfg: Config, s: State): State
    requires s.segIdx < |cfg.segments|
  {
    var t := s.(envPos := s.envPos + 1, segElapsed := s.segElapsed + 1);
    if t.segElapsed >= cfg.segments[t.segIdx].samples && t.segIdx + 1 < |cfg.segments| then
      t.(segIdx := t.segIdx + 1, segElapsed := 0)
    else t
  }

  /** Moves on by one frame, inside the segment while tones play. */
  function Advance(cfg: Config, s: State): State
    requires InRange(cfg, s)
  {
    TotalNeedsSegments(cfg);
    (if s.cyclePos < Total(cfg) then AdvanceSegment(cfg, s) else s).(cyclePos := s.cyclePos + 1)
  }

  function Rewound(s: State): State {
    s.(cyclePos := 0, envPos := 0, segIdx := 0, segElapsed := 0)
  }

  function CycleLength(cfg: Config, s: State): nat {
    Total(cfg) + if s.restarting then RESTART_SAMPLES else cfg.silence
  }

  function WrapCycle(cfg: Config, s: State): State {
    if s.cyclePos < CycleLength(cfg, s) then s
    else if s.restarting then Rewound(s).(restarting := false, releasing := false)
    else if cfg.looped then Rewound(s)
    else s.(active := false)
  }

  function FinishRelease(cfg: Config, s: State): State {
    if !(s.releasing && s.envPos >= cfg.release) then s
    else if s.restarting then
      s.(releasing := false,
         cyclePos := Total(cfg),
         segIdx := if |cfg.segments| > 0 then |cfg.segments| - 1 else 0,
         segElapsed := if |cfg.segments| > 0 then cfg.segments[|cfg.segments| - 1].samples else 0)
    else s.(releasing := false, active := false)
  }

  function Step(cfg: Config, s: State): (t: State)
    requires InRange(cfg, s)
    ensures InRange(cfg, t) && t.volume == s.volume
  {
    if !Audible(s) then s
    else if s.cyclePos >= Total(cfg) && s.releasing && !s.restarting then
      s.(active := false, releasing := false)
    else
      var c := WrapCycle(cfg, Advance(cfg, s));
      if c.active then FinishRelease(cfg, c) else c
  }

  function Run(cfg: Config, s: State, n: nat): (t: State)
    requires InRange(cfg, s)
    ensures InRange(cfg, t) && t.volume == s.volume
    decreases n
  {
    if n == 0 then s else Run(cfg, Step(cfg, s), n - 1)
  }

  function Emissions(cfg: Config, s: State, n: nat): (e: seq<real>)
    requires InRange(cfg, s)
    ensures |e| == n
    decreases n
  {
    if n == 0 then [] else [Emit(cfg, s)] + Emissions(cfg, Step(cfg, s), n - 1)
  }

  // ---------------------------------------------------------------- control calls

  function Start(s: State): State {
    Started(s.volume)
  }

  function Stop(s: State): State {
    if s.active && !s.releasing then s.(releasing := true, envPos := 0) else s
  }

  function Restart(s: State): State {
    if s.active then Stop(s).(restarting := true) else Start(s)
  }

  datatype Event = Starting | Stopping | Restarting | SettingVolume(volume: real) | Mixing(frames: nat)

  function Apply(cfg: Config, s: State, e: Event): (t: State)
    requires InRange(cfg, s)
    ensures InRange(cfg, t)
  {
    match e
    case Starting => Start(s)
    case Stopping => Stop(s)
    case Restarting => Restart(s)
    case SettingVolume(v) => s.(volume := Clamp(v, 0.0, 1.0))
    case Mixing(n) => Run(cfg, s, n)
  }

  function Play(cfg: Config, s: State, events: seq<Event>): (t: State)
    requires InRange(cfg, s)
    ensures InRange(cfg, t)
    decreases |events|
  {
    if events == [] then s
    else Apply(cfg, Play(cfg, s, events[..|events| - 1]), events[|events| - 1])
  }

  /** A constructed source: idle at the beginning. */
  function Fresh(volume: real): State {
    Started(volume).(active := false)
  }

  // ---------------------------------------------------------------- the source itself

  function ToSamples(duration: real, rate: real): nat {
    var x := (duration * rate).Floor;
    if x < 0 then 0 else x
  }

  class WaveformSource {
    const cfg: Config
    var volume: real
    var active: bool
    var releasing: bool
    var restarting: bool
    var envPos: nat
    var segIdx: nat
    var segElapsed: nat
    var cyclePos: nat

    function Snapshot(): State
      reads this
    {
      State(volume, active, releasing, restarting, envPos, segIdx, segElapsed, cyclePos)
    }

    predicate Valid()
      reads this
    {
      Built(cfg) && InRange(cfg, Snapshot())
    }

    constructor (sequence: seq<ToneSegment>, pause: Option<real>, fade: real, sampleRate: real,
                 sineOfTurns: real -> real, outputChannels: nat, volume: real)
      requires forall seg :: seg in sequence ==>
        seg.duration > 0.0 && (seg.Sound? ==> seg.tone.freq > 0.0 && seg.tone.amp > 0.0)
      ensures Valid() && Snapshot() == Fresh(Clamp(volume, 0.0, 1.0))
      ensures cfg.channels == Max(outputChannels, 1) && cfg.sampleRate == sampleRate && cfg.sineOfTurns == sineOfTurns
      ensures |cfg.segments| == |sequence|
      ensures forall i :: 0 <= i < |sequence| ==>
        cfg.segments[i] == Segment(if sequence[i].Sound? then Some(sequence[i].tone) else None,
                                   ToSamples(sequence[i].duration, sampleRate))
      ensures cfg.looped == pause.Some?
      ensures cfg.attack == cfg.release == ToSamples(fade, sampleRate)
      ensures cfg.silence == if pause.Some? then ToSamples(pause.value, sampleRate) else 0
    {
      var segments: seq<Segment> := [];
      for i := 0 to |sequence|
        invariant |segments| == i
        invariant forall j :: 0 <= j < i ==>
          segments[j] == Segment(if sequence[j].Sound? then Some(sequence[j].tone) else None,
                                 ToSamples(sequence[j].duration, sampleRate))
      {
        var tone := if sequence[i].Sound? then Some(sequence[i].tone) else None;
        segments := segments + [Segment(tone, ToSamples(sequence[i].duration, sampleRate))];
      }
      var fadeSamples := ToSamples(fade, sampleRate);
      this.cfg := Config(segments, Max(outputChannels, 1), sampleRate, sineOfTurns, fadeSamples, fadeSamples,
                         if pause.Some? then ToSamples(pause.value, sampleRate) else 0, pause.Some?);
      this.volume := Clamp(volume, 0.0, 1.0);
      this.active, this.releasing, this.restarting := false, false, false;
      this.envPos, this.segIdx, this.segElapsed, this.cyclePos := 0, 0, 0, 0;
    }

    /** Plays one frame of the current segment and moves inside it. */
    method PlayTone() returns (sample: real)
      requires Valid() && segIdx < |cfg.segments|
      modifies this`envPos, this`segIdx, this`segElapsed
      ensures Valid() && Snapshot() == AdvanceSegment(cfg, old(Snapshot()))
      ensures sample == Voice(cfg, old(segIdx), old(segElapsed), ReleaseEnvelope(cfg, old(Snapshot())), volume)
    {
      sample := Voice(cfg, segIdx, segElapsed, ReleaseEnvelope(cfg, Snapshot()), volume);
      envPos := envPos + 1;
      segElapsed := segElapsed + 1;
      if segElapsed >= cfg.segments[segIdx].samples {
        if segIdx + 1 < |cfg.segments| {
          segIdx := segIdx + 1;
          segElapsed := 0;
        }
      }
    }

    /** The end of a frame: wrap or stop at the end of the cycle, then end a completed release. */
    method AdvanceCycle()
      requires Valid() && active
      modifies this
      ensures Valid()
      ensures var c := WrapCycle(cfg, old(Snapshot()).(cyclePos := old(cyclePos) + 1));
        Snapshot() == if c.active then FinishRelease(cfg, c) else c
    {
      cyclePos := cyclePos + 1;
      var cycleLength := Total(cfg) + if restarting then RESTART_SAMPLES else cfg.silence;
      if cyclePos >= cycleLength {
        if restarting {
          restarting := false;
          releasing := false;
          cyclePos, envPos, segIdx, segElapsed := 0, 0, 0, 0;
        } else if cfg.looped {
          cyclePos, envPos, segIdx, segElapsed := 0, 0, 0, 0;
        } else {
          active := false;
          return;
        }
      }

      if releasing && envPos >= cfg.release {
        releasing := false;
        if restarting {
          cyclePos := Total(cfg);
          segIdx := if |cfg.segments| > 0 then |cfg.segments| - 1 else 0;
          segElapsed := if |cfg.segments| > 0 then cfg.segments[|cfg.segments| - 1].samples else 0;
        } else {
          active := false;
        }
      }
    }

    /** One frame of the buffer. */
    method MixFrame(output: array<real>, lo: nat, hi: nat)
      requires Valid() && Audible(Snapshot()) && lo <= hi <= output.Length
      modifies this, output
      ensures Valid() && Snapshot() == Step(cfg, old(Snapshot()))
      ensures forall i :: lo <= i < hi ==> output[i] == old(output[i]) + Emit(cfg, old(Snapshot()))
      ensures forall i :: 0 <= i < output.Length && !(lo <= i < hi) ==> output[i] == old(output[i])
    {
      TotalNeedsSegments(cfg);
      var sample := 0.0;
      if cyclePos < Total(cfg) {
        sample := PlayTone();
      } else if releasing && !restarting {
        active := false;
        releasing := false;
        return;
      }
      AddToFrame(output, lo, hi, sample);
      AdvanceCycle();
    }

    /** Frame `f` of a buffer that was `before` when the source was in state `s0`. */
    method MixNth(output: array<real>, f: nat, ghost s0: State, ghost before: seq<real>)
      requires Valid() && Audible(Snapshot()) && InRange(cfg, s0) && f * cfg.channels < output.Length
      requires Mixed(cfg, s0, f, before, output[..], Snapshot())
      modifies this, output
      ensures Valid() && Mixed(cfg, s0, f + 1, before, output[..], Snapshot())
    {
      ghost var now := output[..];
      var lo := f * cfg.channels;
      MixFrame(output, lo, Min(lo + cfg.channels, output.Length));
      MixedStep(cfg, s0, f, before, now, output[..]);
    }

    /** Adds this source's samples; a frame whose value was computed is added before the loop ends. */
    method MixInto(output: array<real>)
      requires Valid()
      modifies this, output
      ensures Valid()
      ensures Snapshot() == Run(cfg, old(Snapshot()), FrameCount(output.Length, cfg.channels))
      ensures output[..] == AddFrames(old(output[..]), cfg.channels,
        Emissions(cfg, old(Snapshot()), FrameCount(output.Length, cfg.channels)))
    {
      ghost var s0 := Snapshot();
      ghost var n := FrameCount(output.Length, cfg.channels);
      ghost var before := output[..];
      var f := 0;
      FrameStarts(0, output.Length, cfg.channels);
      assert output[..] == AddFrames(before, cfg.channels, []);
      while f * cfg.channels < output.Length && active && volume != 0.0
        invariant Valid() && f <= n
        invariant Mixed(cfg, s0, f, before, output[..], Snapshot())
        decreases n - f
      {
        FrameStarts(f, output.Length, cfg.channels);
        MixNth(output, f, s0, before);
        f := f + 1;
      }
      FrameStarts(f, output.Length, cfg.channels);
      MixedDone(cfg, s0, f, n, before);
    }

    method StartPlaying()
      requires Valid()
      modifies this
      ensures Valid() && Snapshot() == Start(old(Snapshot()))
    {
      active := true;
      releasing := false;
      restarting := false;
      envPos, cyclePos, segIdx, segElapsed := 0, 0, 0, 0;
    }

    method StopPlaying()
      requires Valid()
      modifies this
      ensures Valid() && Snapshot() == Stop(old(Snapshot()))
    {
      if active && !releasing {
        releasing := true;
        envPos := 0;
      }
    }

    method RestartPlaying()
      requires Valid()
      modifies this
      ensures Valid() && Snapshot() == Restart(old(Snapshot()))
    {
      if active {
        StopPlaying();
        restarting := true;
      } else {
        StartPlaying();
      }
    }

    method SetVolume(volume: real)
      requires Valid()
      modifies this
      ensures Valid() && Snapshot() == Apply(cfg, old(Snapshot()), SettingVolume(volume))
    {
      this.volume := Clamp(volume, 0.0, 1.0);
    }
  }

  // ---------------------------------------------------------------- runs

  lemma {:induction false} RunAdd(cfg: Config, s: State, m: nat, n: nat)
    requires InRange(cfg, s)
    ensures Run(cfg, s, m + n) == Run(cfg, Run(cfg, s, m), n)
    decreases m
  {
    if m > 0 {
      RunAdd(cfg, Step(cfg, s), m - 1, n);
    }
  }

  lemma RunStep(cfg: Config, s: State, n: nat)
    requires InRange(cfg, s)
    ensures Run(cfg, s, n + 1) == Step(cfg, Run(cfg, s, n))
  {
    RunAdd(cfg, s, n, 1);
    assert Run(cfg, Run(cfg, s, n), 1) == Run(cfg, Step(cfg, Run(cfg, s, n)), 0);
  }

  lemma {:induction false} EmissionAt(cfg: Config, s: State, n: nat, k: nat)
    requires InRange(cfg, s) && k < n
    ensures Emissions(cfg, s, n)[k] == Emit(cfg, Run(cfg, s, k))
    decreases k
  {
    if k > 0 {
      EmissionAt(cfg, Step(cfg, s), n - 1, k - 1);
    }
  }

  lemma {:induction false} EmissionsAdd(cfg: Config, s: State, m: nat, n: nat)
    requires InRange(cfg, s)
    ensures Emissions(cfg, s, m + n) == Emissions(cfg, s, m) + Emissions(cfg, Run(cfg, s, m), n)
    decreases m
  {
    if m > 0 {
      EmissionsAdd(cfg, Step(cfg, s), m - 1, n);
    }
  }

  lemma EmissionsSnoc(cfg: Config, s: State, n: nat)
    requires InRange(cfg, s)
    ensures Emissions(cfg, s, n + 1) == Emissions(cfg, s, n) + [Emit(cfg, Run(cfg, s, n))]
  {
    EmissionsAdd(cfg, s, n, 1);
    var t := Run(cfg, s, n);
    assert Emissions(cfg, t, 1) == [Emit(cfg, t)] + Emissions(cfg, Step(cfg, t), 0);
  }

  lemma {:induction false} IdleStays(cfg: Config, s: State, n: nat)
    requires InRange(cfg, s) && !Audible(s)
    ensures Run(cfg, s, n) == s
    ensures Silent(Emissions(cfg, s, n))
    decreases n
  {
    if n > 0 {
      IdleStays(cfg, s, n - 1);
    }
  }

  /** Once the source is idle, the rest of the buffer changes nothing. */
  lemma IdleTail(cfg: Config, s: State, f: nat, n: nat)
    requires InRange(cfg, s) && f <= n && !Audible(Run(cfg, s, f))
    ensures Run(cfg, s, n) == Run(cfg, s, f)
    ensures Emissions(cfg, s, n) == Emissions(cfg, s, f) + Emissions(cfg, Run(cfg, s, f), n - f)
    ensures Silent(Emissions(cfg, Run(cfg, s, f), n - f))
  {
    RunAdd(cfg, s, f, n - f);
    EmissionsAdd(cfg, s, f, n - f);
    IdleStays(cfg, Run(cfg, s, f), n - f);
  }

  /** The state and the buffer after `f` frames. */
  ghost predicate Mixed(cfg: Config, s: State, f: nat, buf: seq<real>, now: seq<real>, t: State)
    requires Built(cfg) && InRange(cfg, s)
  {
    t == Run(cfg, s, f) && now == AddFrames(buf, cfg.channels, Emissions(cfg, s, f))
  }

  lemma MixedStep(cfg: Config, s: State, f: nat, buf: seq<real>, now: seq<real>, next: seq<real>)
    requires Built(cfg) && InRange(cfg, s) && |next| == |now|
    requires now == AddFrames(buf, cfg.channels, Emissions(cfg, s, f))
    requires forall i :: 0 <= i < |now| && f * cfg.channels <= i < f * cfg.channels + cfg.channels ==>
      next[i] == now[i] + Emit(cfg, Run(cfg, s, f))
    requires forall i :: 0 <= i < |now| && !(f * cfg.channels <= i < f * cfg.channels + cfg.channels) ==>
      next[i] == now[i]
    ensures Mixed(cfg, s, f + 1, buf, next, Step(cfg, Run(cfg, s, f)))
  {
    RunStep(cfg, s, f);
    EmissionsSnoc(cfg, s, f);
    AddFramesStep(buf, now, next, cfg.channels, Emissions(cfg, s, f), Emit(cfg, Run(cfg, s, f)));
  }

  lemma MixedDone(cfg: Config, s: State, f: nat, n: nat, buf: seq<real>)
    requires Built(cfg) && InRange(cfg, s) && f <= n && (f == n || !Audible(Run(cfg, s, f)))
    ensures Run(cfg, s, f) == Run(cfg, s, n)
    ensures AddFrames(buf, cfg.channels, Emissions(cfg, s, f)) == AddFrames(buf, cfg.channels, Emissions(cfg, s, n))
  {
    if f < n {
      IdleTail(cfg, s, f, n);
      AddFramesPad(buf, cfg.channels, Emissions(cfg, s, f), Emissions(cfg, Run(cfg, s, f), n - f));
    }
  }
}
