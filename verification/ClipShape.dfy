/**
  What a clip sounds like, stated on emitted values only: the samples themselves away from the edges, the
  edge fades, the fade of a release against the same clip left alone, the volume, and seeking.
 */
module ClipShape {
  import opened Frames
  import opened Reals
  import opened Wav

  /** A sample is about to be played, and nobody has asked for the end. */
  predicate Sounding(c: Clip, s: State) {
    Safe(c, s) && Audible(s) && !s.releasing && s.pauseRemaining == 0 && s.pos < |c.samples|
  }

  /** Outside both edges a clip emits its own samples at its volume. */
  lemma PlainSample(c: Clip, s: State)
    requires Sounding(c, s) && c.edgeFrames <= s.pos + 1 && c.edgeFrames <= |c.samples| - s.pos
    ensures Emit(c, s) == c.samples[s.pos] * s.volume
  {
  }

  lemma Multiplied(p: real, q: real, d: nat, n: nat)
    requires d > 0 && q == p * (n as real / d as real)
    ensures q * d as real == p * n as real
  {
    var f := n as real / d as real;
    assert f * d as real == n as real;
    assert q * d as real == p * (f * d as real);
  }

  /** Inside an edge they are scaled by the distance to the nearer end. */
  lemma EdgeSample(c: Clip, s: State, distance: nat)
    requires Sounding(c, s) && distance == Min(s.pos + 1, |c.samples| - s.pos) && distance < c.edgeFrames
    ensures Emit(c, s) * c.edgeFrames as real == c.samples[s.pos] * s.volume * distance as real
  {
    Multiplied(c.samples[s.pos] * s.volume, Emit(c, s), c.edgeFrames, distance);
  }

  /** A pause is silent, and so is a source that is idle, muted or done. */
  lemma SilentOtherwise(c: Clip, s: State)
    requires Safe(c, s) && (s.pauseRemaining > 0 || !Audible(s) || s.pos >= |c.samples|)
    ensures Emit(c, s) == 0.0
  {
  }

  // ---------------------------------------------------------------- the fade of a release

  lemma PartOf(p: real, remaining: nat, total: nat, e: real, full: real)
    requires total > 0 && e == p * (remaining as real / total as real) && full == p * 1.0
    ensures e * total as real == full * remaining as real
  {
    Multiplied(p, e, total, remaining);
  }

  /** A release scales what the clip would have emitted by the part of the release that is left. */
  lemma ReleaseScales(c: Clip, s: State, t: State)
    requires Sounding(c, s) && Safe(c, t) && t.releasing
    requires t == s.(releasing := true, releaseTotal := t.releaseTotal, releaseRemaining := t.releaseRemaining,
                     restartAfter := t.restartAfter)
    ensures Emit(c, t) * t.releaseTotal as real == Emit(c, s) * t.releaseRemaining as real
  {
    PartOf(Edged(c, s.pos, s.volume), t.releaseRemaining, t.releaseTotal, Emit(c, t), Emit(c, s));
  }

  /** A clip left alone, and the same clip after a stop, while the release lasts. */
  lemma {:induction false} StoppedTwin(c: Clip, s: State, total: nat, j: nat)
    requires Sounding(c, s) && 1 <= total <= |c.samples| - s.pos && j < total
    ensures var t := Run(c, s, j);
      && Sounding(c, t) && t.pos == s.pos + j
      && Run(c, s.(releasing := true, releaseTotal := total, releaseRemaining := total, restartAfter := false), j)
           == t.(releasing := true, releaseTotal := total, releaseRemaining := total - j, restartAfter := false)
    decreases j
  {
    if j > 0 {
      var stopped := s.(releasing := true, releaseTotal := total, releaseRemaining := total, restartAfter := false);
      StoppedTwin(c, s, total, j - 1);
      RunSnoc(c, s, j - 1);
      RunSnoc(c, stopped, j - 1);
    }
  }

  lemma StopBegins(c: Clip, s: State)
    requires Built(c) && Sounding(c, s)
    ensures var t, total := Stop(c, s), Min(c.releaseFrames, |c.samples| - s.pos);
      total > 0 && t == s.(releasing := true, releaseTotal := total, releaseRemaining := total, restartAfter := false)
  {
  }

  /** A stop while playing: frame `j` is what the clip would have played, times the part of the fade left. */
  lemma StopScales(c: Clip, s: State, total: nat, j: nat, alone: State, stopped: State)
    requires Built(c) && Sounding(c, s) && total == Min(c.releaseFrames, |c.samples| - s.pos) && j < total
    requires Safe(c, Stop(c, s)) && alone == Run(c, s, j) && stopped == Run(c, Stop(c, s), j)
    ensures Emit(c, stopped) * total as real == Emit(c, alone) * (total - j) as real
  {
    StopBegins(c, s);
    StoppedTwin(c, s, total, j);
    ReleaseScales(c, alone, stopped);
  }

  // ---------------------------------------------------------------- volume

  lemma EdgedLinear(x: real, volume: real, other: real, edge: real, one: real, two: real)
    requires one == x * volume * edge && two == x * other * edge
    ensures two * volume == one * other
  {
    var xe := x * edge;
    assert one == xe * volume && two == xe * other;
  }

  lemma LevelLinear(one: real, two: real, gain: real, volume: real, other: real)
    requires two * volume == one * other
    ensures two * gain * volume == one * gain * other
  {
    assert two * gain * volume == two * volume * gain && one * gain * other == one * other * gain;
  }

  /** Emission is proportional to the volume. */
  lemma LinearInVolume(c: Clip, s: State, volume: real)
    requires Safe(c, s) && s.volume != 0.0
    ensures Safe(c, s.(volume := volume)) && Emit(c, s.(volume := volume)) * s.volume == Emit(c, s) * volume
  {
    if Sounding(c, s.(releasing := false)) {
      var one, two := Edged(c, s.pos, s.volume), Edged(c, s.pos, volume);
      EdgedLinear(c.samples[s.pos], s.volume, volume, EdgeGain(c, s.pos), one, two);
      LevelLinear(one, two, ReleaseGain(s), s.volume, volume);
    }
  }

  /** The volume does not change how a clip that is not muted moves on. */
  lemma StepVolumeAside(c: Clip, s: State, volume: real)
    requires Safe(c, s) && s.volume != 0.0 && volume != 0.0
    ensures Safe(c, s.(volume := volume)) && Step(c, s.(volume := volume)) == Step(c, s).(volume := volume)
  {
  }

  lemma {:induction false} VolumeAside(c: Clip, s: State, volume: real, n: nat)
    requires Safe(c, s) && s.volume != 0.0 && volume != 0.0
    ensures Safe(c, s.(volume := volume)) && Run(c, s.(volume := volume), n) == Run(c, s, n).(volume := volume)
    decreases n
  {
    if n > 0 {
      StepVolumeAside(c, s, volume);
      VolumeAside(c, Step(c, s), volume, n - 1);
    }
  }

  // ---------------------------------------------------------------- seeking

  /**
    Inside the clip a skip moves by exactly the frames asked for, as far as the last sample; it takes a
    finished clip back to it. A rewind moves by exactly the frames asked for, as far as the first sample.
   */
  lemma SeeksExactly(c: Clip, s: State, frames: nat)
    requires Safe(c, s) && |c.samples| > 0
    ensures Skip(c, s, frames).pos < |c.samples|
    ensures s.pos + frames < |c.samples| ==> Skip(c, s, frames).pos - s.pos == frames
    ensures s.pos + frames >= |c.samples| ==> Skip(c, s, frames).pos + 1 == |c.samples|
    ensures frames <= s.pos ==> s.pos - Rewind(s, frames).pos == frames
    ensures frames > s.pos ==> Rewind(s, frames).pos == 0
    ensures Skip(c, s, frames).(pos := s.pos) == s == Rewind(s, frames).(pos := s.pos)
  {
  }

  /** Seeking there and back changes nothing as long as no end is met. */
  lemma SeekRoundTrip(c: Clip, s: State, frames: nat)
    requires Safe(c, s)
    ensures s.pos + frames < |c.samples| ==> Rewind(Skip(c, s, frames), frames) == s
    ensures frames <= s.pos < |c.samples| ==> Skip(c, Rewind(s, frames), frames) == s
  {
  }

  /** A playing clip that is sought is a clip that has already played that far, while nothing else happens. */
  lemma {:induction false} SkipIsPlaying(c: Clip, s: State, frames: nat)
    requires Sounding(c, s) && s.pos + frames < |c.samples|
    ensures Run(c, s, frames) == Skip(c, s, frames)
    decreases frames
  {
    if frames > 0 {
      SkipIsPlaying(c, s, frames - 1);
      RunSnoc(c, s, frames - 1);
    }
  }

  // ---------------------------------------------------------------- reports

  /** A frame reports if it plays the last sample or one that completes an interval, and then the part played. */
  lemma ReportsExactly(c: Clip, s: State)
    requires Sounding(c, s)
    ensures |Reported(c, s)| <= 1
    ensures |Reported(c, s)| == 1
       <==> c.reports && (s.pos + 1 == |c.samples| || (c.interval > 0 && (s.pos + 1) % c.interval == 0))
    ensures |Reported(c, s)| == 1 ==> Reported(c, s)[0] * |c.samples| as real == (s.pos + 1) as real
  {
  }
}
