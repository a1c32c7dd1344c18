/**
  What a tone sounds like, stated on emitted values only: the waveforms over their phase, the fades of a
  segment, the fade of a stop against the same source left alone, and the volume.
 */
module ToneShape {
  import opened Frames
  import opened Reals
  import opened Waveform

  // ---------------------------------------------------------------- waveforms

  /** The waveform at phase `ph` of its `n`-th period, as drawn: each form by its pieces. */
  function Drawn(form: Form, n: int, ph: real, sineOfTurns: real -> real): real {
    match form
    case Sine => sineOfTurns(n as real + ph)
    case Square => if ph < 0.5 then 1.0 else -1.0
    case Sawtooth => ph - (1.0 - ph)
    case Triangle => if ph < 0.5 then 4.0 * ph - 1.0 else 3.0 - 4.0 * ph
  }

  /** Triangles rise from -1 to 1 over half a period and fall back the same way; saws only rise. */
  lemma DrawnShapes(n: int, ph: real, sine: real -> real)
    requires 0.0 <= ph < 1.0
    ensures Drawn(Triangle, n, 0.0, sine) == -1.0 && Drawn(Triangle, n, 0.5, sine) == 1.0
    ensures ph > 0.0 ==> Drawn(Triangle, n, 1.0 - ph, sine) == Drawn(Triangle, n, ph, sine)
    ensures ph < 0.5 ==> Drawn(Square, n, ph + 0.5, sine) == -Drawn(Square, n, ph, sine) == -1.0
    ensures Drawn(Sawtooth, n, 0.0, sine) == -1.0 && Drawn(Sawtooth, n, ph, sine) == -1.0 + 2.0 * ph
  {
  }

  /** After `elapsed` samples, the tone stands at phase `ph` of period `n`. */
  predicate AtPhase(cfg: Config, tone: Tone, elapsed: nat, n: int, ph: real) {
    0.0 <= ph < 1.0 && cfg.sampleRate > 0.0 && elapsed as real * tone.freq == (n as real + ph) * cfg.sampleRate
  }

  lemma SameQuotient(e: real, f: real, r: real, q: real, turns: real)
    requires r > 0.0 && e * f == q * r && turns == e / r * f
    ensures turns == q
  {
    var d := e / r;
    assert d * r == e;
    assert turns * r == e * f;
    Cancelled(turns, q, r);
  }

  lemma Cancelled(a: real, b: real, r: real)
    requires r != 0.0 && a * r == b * r
    ensures a == b
  {
  }

  lemma WaveDrawn(form: Form, turns: real, n: int, ph: real, sine: real -> real)
    requires turns == n as real + ph && 0.0 <= ph < 1.0
    ensures Wave(form, turns, sine) == Drawn(form, n, ph, sine)
  {
    assert turns.Floor == n;
  }

  lemma PhaseTurns(cfg: Config, tone: Tone, elapsed: nat, n: int, ph: real)
    requires AtPhase(cfg, tone, elapsed, n, ph)
    ensures Turns(cfg, tone, elapsed) == n as real + ph
  {
    SameQuotient(elapsed as real, tone.freq, cfg.sampleRate, n as real + ph, Turns(cfg, tone, elapsed));
  }

  /** The drawn waveform at the amplitude of the tone. */
  function Loud(cfg: Config, tone: Tone, n: int, ph: real): real {
    Drawn(tone.form, n, ph, cfg.sineOfTurns) * tone.amp
  }

  lemma LoudDrawn(cfg: Config, segment: Segment, elapsed: nat, n: int, ph: real)
    requires segment.tone.Some? && AtPhase(cfg, segment.tone.value, elapsed, n, ph)
    ensures Loud(cfg, segment.tone.value, n, ph) == Waveform.Waveform(cfg, segment, elapsed) * Amp(segment)
  {
    var tone := segment.tone.value;
    PhaseTurns(cfg, tone, elapsed, n, ph);
    WaveDrawn(tone.form, Turns(cfg, tone, elapsed), n, ph, cfg.sineOfTurns);
  }

  // ---------------------------------------------------------------- what a frame emits

  /** A tone is playing and has not been told to stop. */
  predicate Sounding(cfg: Config, s: State) {
    && Audible(s) && !s.releasing && s.cyclePos < Total(cfg)
    && s.segIdx < |cfg.segments| && cfg.segments[s.segIdx].tone.Some?
  }

  function Left(cfg: Config, s: State): nat
    requires s.segIdx < |cfg.segments|
  {
    var samples := cfg.segments[s.segIdx].samples;
    if samples > s.segElapsed then samples - s.segElapsed else 0
  }

  lemma Commute(a: real, b: real, c: real, ab: real, ac: real)
    requires ab == a * b && ac == a * c
    ensures ab * c == ac * b
  {
  }

  /** The value of a segment: its amplified waveform at the volume, under the envelope of the segment. */
  lemma VoiceUnder(cfg: Config, i: nat, elapsed: nat, volume: real, envelope: real, loud: real, level: real)
    requires i < |cfg.segments| && envelope == SegmentEnvelope(cfg, cfg.segments[i], elapsed)
    requires loud == Waveform.Waveform(cfg, cfg.segments[i], elapsed) * Amp(cfg.segments[i]) && level == loud * volume
    ensures Voice(cfg, i, elapsed, 1.0, volume) == level * envelope
  {
    var segment := cfg.segments[i];
    var w, shaped, sounded := Waveform.Waveform(cfg, segment, elapsed), Shaped(cfg, segment, elapsed),
      Sounded(cfg, segment, elapsed, 1.0);
    assert Faded(cfg, segment, elapsed, 1.0) == shaped;
    Commute(w, envelope, Amp(segment), shaped, loud);
    Commute(loud, envelope, volume, sounded, level);
  }

  /** The envelope of a segment: full in the middle, proportional in the fades, the quieter where they overlap. */
  lemma EnvelopeShape(cfg: Config, s: State)
    requires s.segIdx < |cfg.segments|
    ensures FadesTo(cfg, s, SegmentEnvelope(cfg, cfg.segments[s.segIdx], s.segElapsed))
  {
  }

  /** A sounding source emits the value of its segment under no release at all. */
  lemma EmitsVoice(cfg: Config, s: State)
    requires Sounding(cfg, s)
    ensures Emit(cfg, s) == Voice(cfg, s.segIdx, s.segElapsed, 1.0, s.volume)
  {
  }

  /** The factor the fades of a segment leave of its level. */
  predicate FadesTo(cfg: Config, s: State, factor: real)
    requires s.segIdx < |cfg.segments|
  {
    var rising := if s.segElapsed < cfg.attack then s.segElapsed as real / cfg.attack as real else 1.0;
    var falling := if Left(cfg, s) < cfg.release then Left(cfg, s) as real / cfg.release as real else 1.0;
    factor == if rising <= falling then rising else falling
  }

  lemma SoundingLevel(cfg: Config, s: State, factor: real, loud: real, level: real)
    requires Sounding(cfg, s) && FadesTo(cfg, s, factor)
    requires loud == Waveform.Waveform(cfg, cfg.segments[s.segIdx], s.segElapsed) * Amp(cfg.segments[s.segIdx])
    requires level == loud * s.volume
    ensures Emit(cfg, s) == level * factor
  {
    EmitsVoice(cfg, s);
    EnvelopeShape(cfg, s);
    VoiceUnder(cfg, s.segIdx, s.segElapsed, s.volume, factor, loud, level);
  }

  /**
    Away from both ends of a segment the full level is emitted; in the fade in it is emitted in proportion
    to the samples played, in the fade out to the samples left; where they overlap the quieter one decides.
   */
  lemma ToneEmits(cfg: Config, s: State, n: int, ph: real, factor: real, level: real)
    requires Sounding(cfg, s) && AtPhase(cfg, cfg.segments[s.segIdx].tone.value, s.segElapsed, n, ph)
    requires FadesTo(cfg, s, factor) && level == Loud(cfg, cfg.segments[s.segIdx].tone.value, n, ph) * s.volume
    ensures Emit(cfg, s) == level * factor
  {
    LoudDrawn(cfg, cfg.segments[s.segIdx], s.segElapsed, n, ph);
    SoundingLevel(cfg, s, factor, Loud(cfg, cfg.segments[s.segIdx].tone.value, n, ph), level);
  }

  /** A segment with a fade in begins in silence, and so does every segment without a tone. */
  lemma SilentStart(cfg: Config, s: State)
    requires InRange(cfg, s) && Audible(s) && s.cyclePos < Total(cfg) && s.segIdx < |cfg.segments|
    requires (s.segElapsed == 0 && cfg.attack > 0) || cfg.segments[s.segIdx].tone.None?
    ensures Emit(cfg, s) == 0.0
  {
    var segment := cfg.segments[s.segIdx];
    assert Waveform.Waveform(cfg, segment, s.segElapsed) == 0.0 || SegmentEnvelope(cfg, segment, s.segElapsed) == 0.0;
    assert Shaped(cfg, segment, s.segElapsed) == 0.0;
    assert Faded(cfg, segment, s.segElapsed, ReleaseEnvelope(cfg, s)) == 0.0;
    assert Sounded(cfg, segment, s.segElapsed, ReleaseEnvelope(cfg, s)) == 0.0;
  }

  // ---------------------------------------------------------------- volume

  lemma VoiceLinear(cfg: Config, i: nat, elapsed: nat, gain: real, volume: real, other: real)
    requires i < |cfg.segments|
    ensures Voice(cfg, i, elapsed, gain, other) * volume == Voice(cfg, i, elapsed, gain, volume) * other
  {
    Commute(Sounded(cfg, cfg.segments[i], elapsed, gain), other, volume, Voice(cfg, i, elapsed, gain, other),
            Voice(cfg, i, elapsed, gain, volume));
  }

  /** Emission is proportional to the volume: two volumes, the same state otherwise. */
  lemma LinearInVolume(cfg: Config, s: State, volume: real)
    requires InRange(cfg, s) && s.volume != 0.0
    ensures Emit(cfg, s.(volume := volume)) * s.volume == Emit(cfg, s) * volume
  {
    if s.active && s.cyclePos < Total(cfg) {
      TotalNeedsSegments(cfg);
      VoiceLinear(cfg, s.segIdx, s.segElapsed, ReleaseEnvelope(cfg, s), s.volume, volume);
    }
  }

  /** The volume does not change how a source that is not muted moves on. */
  lemma StepVolumeAside(cfg: Config, s: State, volume: real)
    requires InRange(cfg, s) && s.volume != 0.0 && volume != 0.0
    ensures Step(cfg, s.(volume := volume)) == Step(cfg, s).(volume := volume)
  {
    var t := s.(volume := volume);
    var a, b := Advance(cfg, s), Advance(cfg, t);
    assert b == a.(volume := volume);
    var c, d := WrapCycle(cfg, a), WrapCycle(cfg, b);
    assert d == c.(volume := volume);
    assert FinishRelease(cfg, d) == FinishRelease(cfg, c).(volume := volume);
  }

  lemma LaterEmission(cfg: Config, s: State, n: nat, i: nat)
    requires InRange(cfg, s) && 0 < i < n
    ensures Emissions(cfg, s, n)[i] == Emissions(cfg, Step(cfg, s), n - 1)[i - 1]
  {
  }

  lemma FirstEmission(cfg: Config, s: State, n: nat)
    requires InRange(cfg, s) && n > 0
    ensures Emissions(cfg, s, n)[0] == Emit(cfg, s)
  {
  }

  lemma FirstLinear(cfg: Config, s: State, volume: real, n: nat, one: real, two: real)
    requires InRange(cfg, s) && s.volume != 0.0 && volume != 0.0 && n > 0
    requires one == Emissions(cfg, s, n)[0] && two == Emissions(cfg, s.(volume := volume), n)[0]
    ensures two * s.volume == one * volume
  {
    FirstEmission(cfg, s, n);
    FirstEmission(cfg, s.(volume := volume), n);
    LinearInVolume(cfg, s, volume);
  }

  /** The values of a buffer at two volumes. */
  lemma {:induction false} EmissionsLinear(cfg: Config, s: State, volume: real, n: nat, i: nat, one: real, two: real)
    requires InRange(cfg, s) && s.volume != 0.0 && volume != 0.0 && i < n
    requires one == Emissions(cfg, s, n)[i] && two == Emissions(cfg, s.(volume := volume), n)[i]
    ensures two * s.volume == one * volume
    decreases i
  {
    if i == 0 {
      FirstLinear(cfg, s, volume, n, one, two);
    } else {
      StepVolumeAside(cfg, s, volume);
      LaterEmission(cfg, s, n, i);
      LaterEmission(cfg, s.(volume := volume), n, i);
      EmissionsLinear(cfg, Step(cfg, s), volume, n - 1, i - 1, one, two);
    }
  }

  // ---------------------------------------------------------------- the fade of a stop

  lemma StepTwin(cfg: Config, s: State, t: State, again: bool, k: nat)
    requires Built(cfg) && InRange(cfg, s) && Audible(s) && !s.releasing && !s.restarting
    requires k + 1 < cfg.release && s.cyclePos + 1 < Total(cfg)
    requires t == s.(releasing := true, envPos := k, restarting := again)
    ensures var next := Step(cfg, s);
      && Audible(next) && !next.releasing && !next.restarting && next.cyclePos == s.cyclePos + 1
      && Step(cfg, t) == next.(releasing := true, envPos := k + 1, restarting := again)
  {
  }

  /** A source left alone, and the same source after a stop or restart, while the release and the tones last. */
  lemma {:induction false} StoppedTwin(cfg: Config, s: State, ending: State, again: bool, k: nat)
    requires Built(cfg) && InRange(cfg, s) && Audible(s) && !s.releasing && !s.restarting
    requires ending == s.(releasing := true, envPos := 0, restarting := again)
    requires k < cfg.release && s.cyclePos + k < Total(cfg)
    ensures var t := Run(cfg, s, k);
      && Audible(t) && !t.releasing && !t.restarting && t.cyclePos == s.cyclePos + k
      && Run(cfg, ending, k) == t.(releasing := true, envPos := k, restarting := again)
    decreases k
  {
    if k > 0 {
      StoppedTwin(cfg, s, ending, again, k - 1);
      RunStep(cfg, s, k - 1);
      RunStep(cfg, ending, k - 1);
      StepTwin(cfg, Run(cfg, s, k - 1), Run(cfg, ending, k - 1), again, k - 1);
    }
  }

  lemma GainScales(cfg: Config, i: nat, elapsed: nat, gain: real, volume: real)
    requires i < |cfg.segments|
    ensures Voice(cfg, i, elapsed, gain, volume) == gain * Voice(cfg, i, elapsed, 1.0, volume)
  {
    var segment := cfg.segments[i];
    var shaped, faded := Shaped(cfg, segment, elapsed), Faded(cfg, segment, elapsed, gain);
    var whole := Sounded(cfg, segment, elapsed, 1.0);
    assert Faded(cfg, segment, elapsed, 1.0) == shaped;
    Commute(shaped, gain, Amp(segment), faded, whole);
    Commute(whole, gain, volume, Sounded(cfg, segment, elapsed, gain), Voice(cfg, i, elapsed, 1.0, volume));
  }

  lemma ReleaseGain(cfg: Config, s: State, k: nat)
    requires s.releasing && s.envPos == k < cfg.release
    ensures ReleaseEnvelope(cfg, s) == 1.0 - k as real / cfg.release as real
  {
  }

  /** Two sources that differ only in a release. */
  lemma ReleaseScales(cfg: Config, t: State, u: State, k: nat, gain: real)
    requires InRange(cfg, t) && Audible(t) && !t.releasing && t.cyclePos < Total(cfg) && k < cfg.release
    requires u == t.(releasing := true, envPos := k, restarting := u.restarting)
    requires gain == 1.0 - k as real / cfg.release as real
    ensures Emit(cfg, u) == gain * Emit(cfg, t)
  {
    TotalNeedsSegments(cfg);
    ReleaseGain(cfg, u, k);
    GainScales(cfg, t.segIdx, t.segElapsed, gain, t.volume);
  }

  /** A stop or restart scales what the source would have played by a factor that falls linearly to zero. */
  lemma FadeScales(cfg: Config, s: State, again: bool, k: nat, gain: real, alone: State, ending: State)
    requires Built(cfg) && InRange(cfg, s) && Audible(s) && !s.releasing && !s.restarting
    requires k < cfg.release && s.cyclePos + k < Total(cfg) && gain == 1.0 - k as real / cfg.release as real
    requires alone == Run(cfg, s, k) && ending == Run(cfg, if again then Restart(s) else Stop(s), k)
    ensures Emit(cfg, ending) == gain * Emit(cfg, alone)
  {
    StoppedTwin(cfg, s, if again then Restart(s) else Stop(s), again, k);
    ReleaseScales(cfg, alone, ending, k, gain);
  }

  /** Behind the tones of its cycle a source is silent, stopped or not. */
  lemma SilentPause(cfg: Config, s: State)
    requires InRange(cfg, s) && s.cyclePos >= Total(cfg)
    ensures Emit(cfg, s) == 0.0 && Emit(cfg, Stop(s)) == 0.0
  {
  }

  // ---------------------------------------------------------------- durations

  /** Durations count whole samples; a negative one counts none. */
  lemma WholeSamples(duration: real, rate: real)
    ensures duration * rate >= 0.0 ==>
      ToSamples(duration, rate) as real <= duration * rate < ToSamples(duration, rate) as real + 1.0
    ensures duration * rate < 0.0 ==> ToSamples(duration, rate) == 0
  {
  }
}
