/**
  What a tone source does over whole runs: it plays the segment its cycle position lies in, a fresh
  source follows a closed form, buffers may be cut anywhere, and stop and restart end in bounded time.
 */
module WaveformProofs {
  import opened Frames
  import opened Waveform
  import opened Reals
  import ToneShape

  // ---------------------------------------------------------------- cutting buffers

  /** The contents of a buffer after mixing. */
  function Mixed(cfg: Config, s: State, buf: seq<real>): (mixed: seq<real>)
    requires Built(cfg) && InRange(cfg, s)
  {
    AddFrames(buf, cfg.channels, Emissions(cfg, s, FrameCount(|buf|, cfg.channels)))
  }

  /** The state after mixing a buffer of `len` samples. */
  function After(cfg: Config, s: State, len: nat): (t: State)
    requires Built(cfg) && InRange(cfg, s)
    ensures InRange(cfg, t)
  {
    Run(cfg, s, FrameCount(len, cfg.channels))
  }

  lemma SplitIndependence(cfg: Config, s: State, a: seq<real>, b: seq<real>)
    requires Built(cfg) && InRange(cfg, s) && |a| % cfg.channels == 0
    ensures Mixed(cfg, s, a + b) == Mixed(cfg, s, a) + Mixed(cfg, After(cfg, s, |a|), b)
    ensures After(cfg, s, |a + b|) == After(cfg, After(cfg, s, |a|), |b|)
  {
    var m, n := FrameCount(|a|, cfg.channels), FrameCount(|b|, cfg.channels);
    FrameCountSplit(|a|, |b|, cfg.channels);
    RunAdd(cfg, s, m, n);
    EmissionsAdd(cfg, s, m, n);
    AddFramesSplit(a, b, cfg.channels, Emissions(cfg, s, m), Emissions(cfg, Run(cfg, s, m), n));
  }

  // ---------------------------------------------------------------- alignment of position and segment

  /** The current segment and the offset in it are the ones that the cycle position lies in. */
  predicate Aligned(cfg: Config, s: State)
    requires InRange(cfg, s)
  {
    && s.segIdx <= |cfg.segments|
    && Min(s.cyclePos, Total(cfg)) == Prefix(cfg.segments, s.segIdx) + s.segElapsed
    && (s.cyclePos < Total(cfg) ==> s.segIdx < |cfg.segments| && s.segElapsed < cfg.segments[s.segIdx].samples)
  }

  /** No empty segment stands before a sounding one. */
  predicate NoGap(cfg: Config) {
    forall i, j :: 0 <= i < j < |cfg.segments| && cfg.segments[i].samples == 0 ==> cfg.segments[j].samples == 0
  }

  lemma {:induction false} PrefixMonotone(segments: seq<Segment>, i: nat, j: nat)
    requires i <= j <= |segments|
    ensures Prefix(segments, i) <= Prefix(segments, j)
    decreases j - i
  {
    if i < j {
      PrefixMonotone(segments, i, j - 1);
    }
  }

  lemma {:induction false} EmptyTail(segments: seq<Segment>, i: nat, j: nat)
    requires i <= j <= |segments|
    requires forall k :: i <= k < j ==> segments[k].samples == 0
    ensures Prefix(segments, i) == Prefix(segments, j)
    decreases j - i
  {
    if i < j {
      EmptyTail(segments, i, j - 1);
    }
  }

  /** In a sequence without gaps, a segment that starts before the end has samples. */
  lemma NextHasSamples(cfg: Config, i: nat)
    requires NoGap(cfg) && i < |cfg.segments| && Prefix(cfg.segments, i) < Total(cfg)
    ensures cfg.segments[i].samples > 0
  {
    if cfg.segments[i].samples == 0 {
      EmptyTail(cfg.segments, i, |cfg.segments|);
    }
  }

  lemma AdvanceAligned(cfg: Config, s: State)
    requires NoGap(cfg) && InRange(cfg, s) && Aligned(cfg, s)
    ensures InRange(cfg, Advance(cfg, s)) && Aligned(cfg, Advance(cfg, s))
  {
    if s.cyclePos < Total(cfg) {
      PrefixMonotone(cfg.segments, s.segIdx + 1, |cfg.segments|);
      if s.segIdx + 1 < |cfg.segments| && Prefix(cfg.segments, s.segIdx + 1) < Total(cfg) {
        NextHasSamples(cfg, s.segIdx + 1);
      }
    }
  }

  lemma RewoundAligned(cfg: Config, s: State)
    requires NoGap(cfg) && s.cyclePos == s.segIdx == s.segElapsed == 0
    ensures InRange(cfg, s) && Aligned(cfg, s)
  {
    TotalNeedsSegments(cfg);
    if Total(cfg) > 0 {
      NextHasSamples(cfg, 0);
    }
  }

  lemma WrapAligned(cfg: Config, s: State)
    requires NoGap(cfg) && InRange(cfg, s) && Aligned(cfg, s)
    ensures InRange(cfg, WrapCycle(cfg, s)) && Aligned(cfg, WrapCycle(cfg, s))
  {
    RewoundAligned(cfg, Rewound(s));
  }

  lemma FinishAligned(cfg: Config, s: State)
    requires InRange(cfg, s) && Aligned(cfg, s)
    ensures InRange(cfg, FinishRelease(cfg, s)) && Aligned(cfg, FinishRelease(cfg, s))
  {
  }

  lemma StepAligned(cfg: Config, s: State)
    requires NoGap(cfg) && InRange(cfg, s) && Aligned(cfg, s)
    ensures Aligned(cfg, Step(cfg, s))
  {
    AdvanceAligned(cfg, s);
    WrapAligned(cfg, Advance(cfg, s));
    FinishAligned(cfg, WrapCycle(cfg, Advance(cfg, s)));
  }

  lemma {:induction false} RunAligned(cfg: Config, s: State, n: nat)
    requires NoGap(cfg) && InRange(cfg, s) && Aligned(cfg, s)
    ensures Aligned(cfg, Run(cfg, s, n))
    decreases n
  {
    if n > 0 {
      StepAligned(cfg, s);
      RunAligned(cfg, Step(cfg, s), n - 1);
    }
  }

  lemma {:induction false} PlayAligned(cfg: Config, volume: real, events: seq<Event>)
    requires NoGap(cfg)
    ensures Aligned(cfg, Play(cfg, Fresh(volume), events))
    decreases |events|
  {
    RewoundAligned(cfg, Fresh(volume));
    if events != [] {
      var s := Play(cfg, Fresh(volume), events[..|events| - 1]);
      PlayAligned(cfg, volume, events[..|events| - 1]);
      RewoundAligned(cfg, Started(s.volume));
      match events[|events| - 1]
      case Mixing(n) => RunAligned(cfg, s, n);
      case _ =>
    }
  }

  /** Up to the first empty segment a fresh source is aligned, and then it stands on that segment. */
  lemma {:induction false} ReachesSegment(cfg: Config, volume: real, i: nat, k: nat)
    requires volume != 0.0 && i < |cfg.segments| && Prefix(cfg.segments, i) < Total(cfg)
    requires forall j :: 0 <= j < i ==> cfg.segments[j].samples > 0
    requires k <= Prefix(cfg.segments, i)
    ensures var s := Run(cfg, Started(volume), k);
      && Audible(s) && !s.releasing && !s.restarting && s.cyclePos == k && s.segIdx <= i
      && k == Prefix(cfg.segments, s.segIdx) + s.segElapsed
      && (s.segIdx < i ==> s.segElapsed < cfg.segments[s.segIdx].samples)
      && (k == Prefix(cfg.segments, i) ==> s.segIdx == i)
    decreases k
  {
    if i > 0 {
      PrefixMonotone(cfg.segments, 1, i);
    }
    if k > 0 {
      ReachesSegment(cfg, volume, i, k - 1);
      RunStep(cfg, Started(volume), k - 1);
      var s := Run(cfg, Started(volume), k - 1);
      var t := Run(cfg, Started(volume), k);
      if s.segIdx < i {
        PrefixMonotone(cfg.segments, s.segIdx + 1, i);
        if t.segIdx < i {
          PrefixMonotone(cfg.segments, t.segIdx + 1, i);
        }
      }
    }
  }

  ghost predicate AlwaysAligned(cfg: Config) {
    forall volume: real, events: seq<Event> :: Aligned(cfg, Play(cfg, Fresh(volume), events))
  }

  /** Exactly the sequences without gaps keep position and segment together in every run. */
  lemma AlignmentIffNoGap(cfg: Config)
    ensures AlwaysAligned(cfg) <==> NoGap(cfg)
  {
    if NoGap(cfg) {
      forall volume: real, events: seq<Event>
        ensures Aligned(cfg, Play(cfg, Fresh(volume), events))
      {
        PlayAligned(cfg, volume, events);
      }
    } else {
      var i, j :| 0 <= i < j < |cfg.segments| && cfg.segments[i].samples == 0 && cfg.segments[j].samples > 0;
      var first := FirstEmpty(cfg, i);
      PrefixMonotone(cfg.segments, first, j);
      PrefixMonotone(cfg.segments, j + 1, |cfg.segments|);
      var k := Prefix(cfg.segments, first);
      ReachesSegment(cfg, 1.0, first, k);
      var es := [Starting, Mixing(k)];
      assert es[..1] == [Starting] && [Starting][..0] == [];
      assert Play(cfg, Fresh(1.0), [Starting]) == Apply(cfg, Play(cfg, Fresh(1.0), []), Starting);
      assert Play(cfg, Fresh(1.0), es) == Apply(cfg, Play(cfg, Fresh(1.0), [Starting]), Mixing(k));
      assert Play(cfg, Fresh(1.0), es) == Run(cfg, Started(1.0), k);
      assert !Aligned(cfg, Play(cfg, Fresh(1.0), es));
    }
  }

  lemma {:induction false} FirstEmpty(cfg: Config, i: nat) returns (first: nat)
    requires i < |cfg.segments| && cfg.segments[i].samples == 0
    ensures first <= i && cfg.segments[first].samples == 0
    ensures forall j :: 0 <= j < first ==> cfg.segments[j].samples > 0
  {
    if j :| 0 <= j < i && cfg.segments[j].samples == 0 {
      first := FirstEmpty(cfg, j);
    } else {
      first := i;
    }
  }

  // ---------------------------------------------------------------- closed form

  /** The segment that a position inside the tones lies in. */
  function SegmentAt(segments: seq<Segment>, pos: nat): (i: nat)
    requires pos < Prefix(segments, |segments|)
    ensures i < |segments| && Prefix(segments, i) <= pos < Prefix(segments, i + 1)
    decreases |segments|
  {
    SegmentAtFrom(segments, pos, |segments|)
  }

  function SegmentAtFrom(segments: seq<Segment>, pos: nat, n: nat): (i: nat)
    requires n <= |segments| && pos < Prefix(segments, n)
    ensures i < n && Prefix(segments, i) <= pos < Prefix(segments, i + 1)
    decreases n
  {
    if pos >= Prefix(segments, n - 1) then n - 1 else SegmentAtFrom(segments, pos, n - 1)
  }

  /** The value of a cycle at a position under a release gain: a tone value, or silence behind the tones. */
  function CycleValue(cfg: Config, pos: nat, gain: real, volume: real): real {
    if pos < Total(cfg) then
      var i := SegmentAt(cfg.segments, pos);
      Voice(cfg, i, pos - Prefix(cfg.segments, i), gain, volume)
    else 0.0
  }

  function Period(cfg: Config): nat {
    Max(1, Total(cfg) + cfg.silence)
  }

  /** Frame `t` of a source that was started and then left alone. */
  function ClosedForm(cfg: Config, volume: real, t: nat): real {
    CycleValue(cfg, if cfg.looped then t % Period(cfg) else t, 1.0, volume)
  }

  lemma SegmentUnique(segments: seq<Segment>, pos: nat, i: nat)
    requires i < |segments| && Prefix(segments, i) <= pos < Prefix(segments, i + 1)
    ensures pos < Prefix(segments, |segments|) && SegmentAt(segments, pos) == i
  {
    PrefixMonotone(segments, i + 1, |segments|);
    var j := SegmentAt(segments, pos);
    if j < i {
      PrefixMonotone(segments, j + 1, i);
    } else if i < j {
      PrefixMonotone(segments, i + 1, j);
    }
  }

  /** An aligned state emits the value of its cycle position. */
  lemma AlignedEmits(cfg: Config, s: State)
    requires InRange(cfg, s) && Aligned(cfg, s) && Audible(s)
    ensures Emit(cfg, s) == CycleValue(cfg, s.cyclePos, ReleaseEnvelope(cfg, s), s.volume)
  {
    if s.cyclePos < Total(cfg) {
      SegmentUnique(cfg.segments, s.cyclePos, s.segIdx);
    }
  }

  predicate Undisturbed(s: State) {
    Audible(s) && !s.releasing && !s.restarting
  }

  /** One frame of an undisturbed loop moves to the next position of its cycle. */
  lemma LoopedStep(cfg: Config, s: State)
    requires Built(cfg) && cfg.looped && InRange(cfg, s) && Undisturbed(s) && s.cyclePos < Period(cfg)
    ensures Undisturbed(Step(cfg, s))
    ensures Step(cfg, s).cyclePos == if s.cyclePos + 1 == Period(cfg) then 0 else s.cyclePos + 1
  {
  }

  lemma {:induction false} LoopedPosition(cfg: Config, volume: real, t: nat)
    requires Built(cfg) && NoGap(cfg) && cfg.looped && volume != 0.0
    ensures var s := Run(cfg, Started(volume), t);
      Undisturbed(s) && s.cyclePos == t % Period(cfg) && Aligned(cfg, s)
    decreases t
  {
    if t == 0 {
      RewoundAligned(cfg, Started(volume));
    } else {
      LoopedPosition(cfg, volume, t - 1);
      var s := Run(cfg, Started(volume), t - 1);
      NextPosition(t - 1, Period(cfg));
      LoopedStep(cfg, s);
      StepAligned(cfg, s);
      RunStep(cfg, Started(volume), t - 1);
    }
  }

  lemma {:induction false} OneShotPosition(cfg: Config, volume: real, t: nat)
    requires Built(cfg) && NoGap(cfg) && !cfg.looped && volume != 0.0
    ensures var s := Run(cfg, Started(volume), t);
      && !s.releasing && !s.restarting && Aligned(cfg, s)
      && (s.active <==> t < Max(1, Total(cfg)))
      && (s.active ==> s.cyclePos == t)
    decreases t
  {
    RewoundAligned(cfg, Started(volume));
    if t > 0 {
      OneShotPosition(cfg, volume, t - 1);
      RunStep(cfg, Started(volume), t - 1);
      StepAligned(cfg, Run(cfg, Started(volume), t - 1));
    }
  }

  /** A started source emits the closed form at every frame; a muted one emits nothing. */
  lemma ClosedFormRefinement(cfg: Config, volume: real, t: nat)
    requires Built(cfg) && NoGap(cfg)
    ensures Emit(cfg, Run(cfg, Started(volume), t)) == ClosedForm(cfg, volume, t)
  {
    if volume == 0.0 {
    } else if cfg.looped {
      LoopedPosition(cfg, volume, t);
      AlignedEmits(cfg, Run(cfg, Started(volume), t));
    } else {
      OneShotPosition(cfg, volume, t);
      if t < Max(1, Total(cfg)) {
        AlignedEmits(cfg, Run(cfg, Started(volume), t));
      }
    }
  }

  // ---------------------------------------------------------------- stop

  /** A release that is still going on has not used up its time. */
  predicate ReleaseOpen(cfg: Config, s: State) {
    s.active && s.releasing ==> s.envPos == 0 || s.envPos < cfg.release
  }

  lemma {:induction false} RunReleaseOpen(cfg: Config, s: State, n: nat)
    requires InRange(cfg, s) && ReleaseOpen(cfg, s)
    ensures ReleaseOpen(cfg, Run(cfg, s, n))
    decreases n
  {
    if n > 0 {
      RunReleaseOpen(cfg, Step(cfg, s), n - 1);
    }
  }

  lemma {:induction false} PlayReleaseOpen(cfg: Config, volume: real, events: seq<Event>)
    ensures ReleaseOpen(cfg, Play(cfg, Fresh(volume), events))
    decreases |events|
  {
    if events != [] {
      PlayReleaseOpen(cfg, volume, events[..|events| - 1]);
      match events[|events| - 1]
      case Mixing(n) => RunReleaseOpen(cfg, Play(cfg, Fresh(volume), events[..|events| - 1]), n);
      case _ =>
    }
  }

  /** A source that fades out and has no restart waiting. */
  predicate Stopping(cfg: Config, s: State) {
    Audible(s) && s.releasing && !s.restarting && ReleaseOpen(cfg, s)
  }

  /** Frames the release still needs while tones play. */
  function ReleaseLeft(cfg: Config, s: State): nat {
    Max(1, cfg.release - s.envPos)
  }

  predicate PauselessLoop(cfg: Config) {
    cfg.looped && cfg.silence == 0
  }

  lemma {:induction false} StopCountdown(cfg: Config, s: State, n: nat)
    requires Built(cfg) && InRange(cfg, s) && Stopping(cfg, s) && !PauselessLoop(cfg)
    requires n >= ReleaseLeft(cfg, s)
    ensures !Run(cfg, s, n).active
    decreases n
  {
    var t := Step(cfg, s);
    if t.active {
      StopCountdown(cfg, t, n - 1);
    } else {
      IdleStays(cfg, t, n - 1);
    }
  }

  /** One frame of a fade that neither ends nor leaves the tones. */
  lemma FadeStep(cfg: Config, s: State)
    requires Built(cfg) && InRange(cfg, s) && Stopping(cfg, s)
    requires s.cyclePos + 1 < Total(cfg) && s.envPos + 1 < cfg.release
    ensures var t := Step(cfg, s);
      Stopping(cfg, t) && t.cyclePos == s.cyclePos + 1 && t.envPos == s.envPos + 1
  {
  }

  lemma {:induction false} FadePosition(cfg: Config, s: State, k: nat)
    requires Built(cfg) && NoGap(cfg) && InRange(cfg, s) && Aligned(cfg, s) && Undisturbed(s)
    requires k < cfg.release && s.cyclePos + k < Total(cfg)
    ensures var t := Run(cfg, Stop(s), k);
      Stopping(cfg, t) && Aligned(cfg, t) && t.cyclePos == s.cyclePos + k && t.envPos == k
    decreases k
  {
    if k > 0 {
      FadePosition(cfg, s, k - 1);
      var t := Run(cfg, Stop(s), k - 1);
      FadeStep(cfg, t);
      StepAligned(cfg, t);
      RunStep(cfg, Stop(s), k - 1);
    }
  }

  /** While a stopped source still plays tones, it plays the values of its cycle under a linear fade. */
  lemma FadeShape(cfg: Config, s: State, k: nat)
    requires Built(cfg) && NoGap(cfg) && InRange(cfg, s) && Aligned(cfg, s) && Undisturbed(s)
    requires k < cfg.release && s.cyclePos + k < Total(cfg)
    ensures Emit(cfg, Run(cfg, Stop(s), k))
         == CycleValue(cfg, s.cyclePos + k, 1.0 - k as real / cfg.release as real, s.volume)
  {
    FadePosition(cfg, s, k);
    AlignedEmits(cfg, Run(cfg, Stop(s), k));
  }

  /** The value of a cycle under a gain is the undisturbed value, scaled by the gain. */
  lemma CycleValueScales(cfg: Config, pos: nat, gain: real, volume: real)
    ensures CycleValue(cfg, pos, gain, volume) == gain * CycleValue(cfg, pos, 1.0, volume)
  {
    if pos < Total(cfg) {
      var i := SegmentAt(cfg.segments, pos);
      ToneShape.GainScales(cfg, i, pos - Prefix(cfg.segments, i), gain, volume);
    }
  }

  /** Away from pauseless loops, a stop takes effect within one release time. */
  lemma StopBound(cfg: Config, s: State, n: nat)
    requires Built(cfg) && InRange(cfg, s) && Audible(s) && !s.restarting && ReleaseOpen(cfg, s) && !PauselessLoop(cfg)
    requires n >= Max(1, cfg.release)
    ensures !Run(cfg, Stop(s), n).active
  {
    StopCountdown(cfg, Stop(s), n);
  }

  /** The wrap of a pauseless loop comes before the envelope check and throws the release away. */
  predicate ReleaseOutlastsCycle(cfg: Config, s: State) {
    && PauselessLoop(cfg) && Total(cfg) > 0
    && cfg.release >= Total(cfg)
    && s.cyclePos < Total(cfg) && Total(cfg) - s.cyclePos <= cfg.release - s.envPos
  }

  lemma {:induction false} NeverStops(cfg: Config, s: State, n: nat)
    requires Built(cfg) && InRange(cfg, s) && Stopping(cfg, s) && ReleaseOutlastsCycle(cfg, s)
    ensures Stopping(cfg, Run(cfg, s, n)) && ReleaseOutlastsCycle(cfg, Run(cfg, s, n))
    decreases n
  {
    if n > 0 {
      NeverStops(cfg, Step(cfg, s), n - 1);
    }
  }

  lemma {:induction false} EventuallyStops(cfg: Config, s: State) returns (n: nat)
    requires Built(cfg) && InRange(cfg, s) && Stopping(cfg, s) && !ReleaseOutlastsCycle(cfg, s)
    ensures !Run(cfg, s, n).active
    decreases if cfg.release < Total(cfg) && Total(cfg) - s.cyclePos <= cfg.release - s.envPos then 1 else 0,
      Max(0, cfg.release - s.envPos), Max(0, Total(cfg) - s.cyclePos)
  {
    if !PauselessLoop(cfg) {
      n := ReleaseLeft(cfg, s);
      StopCountdown(cfg, s, n);
    } else {
      var t := Step(cfg, s);
      if t.active {
        n := EventuallyStops(cfg, t);
        n := n + 1;
      } else {
        n := 1;
        assert Run(cfg, s, 1) == Run(cfg, t, 0);
      }
    }
  }

  /** A fading source goes silent for good exactly when its release does not outlast a pauseless cycle. */
  lemma StopsIff(cfg: Config, s: State)
    requires Built(cfg) && InRange(cfg, s) && Stopping(cfg, s)
    ensures (exists n: nat :: !Run(cfg, s, n).active) <==> !ReleaseOutlastsCycle(cfg, s)
  {
    if ReleaseOutlastsCycle(cfg, s) {
      forall n: nat
        ensures Run(cfg, s, n).active
      {
        NeverStops(cfg, s, n);
      }
    } else {
      var n := EventuallyStops(cfg, s);
    }
  }

  /** Ten samples of tone, no pause, ten samples of release: the tone can never be stopped. */
  lemma UnstoppableTone(n: nat)
    ensures var cfg := Config([Segment(Some(Tone(440.0, Square, 1.0)), 10)], 1, 48000.0, x => 0.0, 10, 10, 0, true);
      Run(cfg, Stop(Started(1.0)), n).active
  {
    var cfg := Config([Segment(Some(Tone(440.0, Square, 1.0)), 10)], 1, 48000.0, x => 0.0, 10, 10, 0, true);
    assert Prefix(cfg.segments, 1) == Prefix(cfg.segments, 0) + 10;
    NeverStops(cfg, Stop(Started(1.0)), n);
  }

  // ---------------------------------------------------------------- restart

  /** Frames before the restart pause begins. */
  function FadeLeft(cfg: Config, s: State): nat {
    if !s.releasing then 0
    else if s.cyclePos < Total(cfg) then ReleaseLeft(cfg, s)
    else if s.envPos < cfg.release then 0 else 1
  }

  /** The restart pause has been reached, or will be by the end of the release. */
  predicate Restartable(cfg: Config, s: State) {
    Audible(s) && s.restarting && (s.cyclePos < Total(cfg) ==> s.releasing)
  }

  /** In every run a restart that waits while tones play waits for the end of a release. */
  predicate RestartSafe(cfg: Config, s: State) {
    s.active && s.restarting && s.cyclePos < Total(cfg) ==> s.releasing
  }

  lemma {:induction false} RunRestartSafe(cfg: Config, s: State, n: nat)
    requires InRange(cfg, s) && RestartSafe(cfg, s)
    ensures RestartSafe(cfg, Run(cfg, s, n))
    decreases n
  {
    if n > 0 {
      RunRestartSafe(cfg, Step(cfg, s), n - 1);
    }
  }

  lemma {:induction false} PlayRestartSafe(cfg: Config, volume: real, events: seq<Event>)
    ensures RestartSafe(cfg, Play(cfg, Fresh(volume), events))
    decreases |events|
  {
    if events != [] {
      PlayRestartSafe(cfg, volume, events[..|events| - 1]);
      match events[|events| - 1]
      case Mixing(n) => RunRestartSafe(cfg, Play(cfg, Fresh(volume), events[..|events| - 1]), n);
      case _ =>
    }
  }

  lemma {:induction false} RestartCountdown(cfg: Config, s: State) returns (k: nat)
    requires InRange(cfg, s) && Restartable(cfg, s)
    ensures k <= FadeLeft(cfg, s) + Max(1, Total(cfg) + RESTART_SAMPLES - Max(s.cyclePos, Total(cfg)))
      || (FadeLeft(cfg, s) == 1 && k <= 1 + RESTART_SAMPLES)
    ensures Run(cfg, s, k) == Started(s.volume)
    ensures forall j: nat :: j < k ==> Run(cfg, s, j).active
    decreases s.releasing, Max(0, Total(cfg) + RESTART_SAMPLES - s.cyclePos)
  {
    TotalNeedsSegments(cfg);
    var t := Step(cfg, s);
    assert Run(cfg, s, 1) == Run(cfg, t, 0);
    if !t.restarting {
      k := 1;
    } else {
      k := RestartCountdown(cfg, t);
      forall j: nat | j < k + 1
        ensures Run(cfg, s, j).active
      {
        if j > 0 {
          assert Run(cfg, s, j) == Run(cfg, t, j - 1);
        }
      }
      k := k + 1;
    }
  }

  /**
    Restarting an active source leads, without ever going inactive, to exactly the state that a start
    sets, within one release time and the restart pause.
   */
  lemma RestartBound(cfg: Config, s: State) returns (k: nat)
    requires InRange(cfg, s) && Audible(s)
    ensures k <= Max(1, cfg.release) + RESTART_SAMPLES
    ensures Run(cfg, Restart(s), k) == Start(s)
    ensures forall j: nat :: j < k ==> Run(cfg, Restart(s), j).active
  {
    k := RestartCountdown(cfg, Restart(s));
  }

  /** Frames from a pending restart to the new start: the rest of the release, or of the tones, and the pause. */
  function RestartLength(cfg: Config, s: State): nat {
    if s.releasing && s.envPos >= cfg.release then
      (if s.cyclePos + 1 >= Total(cfg) + RESTART_SAMPLES then 1 else 1 + RESTART_SAMPLES)
    else if s.releasing && s.cyclePos + (cfg.release - s.envPos) <= Total(cfg) then
      cfg.release - s.envPos + RESTART_SAMPLES
    else Max(1, Total(cfg) + RESTART_SAMPLES - s.cyclePos)
  }

  lemma RestartStep(cfg: Config, s: State)
    requires InRange(cfg, s) && Restartable(cfg, s) && ReleaseOpen(cfg, s)
    ensures var t := Step(cfg, s);
      if RestartLength(cfg, s) == 1 then t == Started(s.volume)
      else Restartable(cfg, t) && ReleaseOpen(cfg, t) && RestartLength(cfg, t) == RestartLength(cfg, s) - 1
  {
    TotalNeedsSegments(cfg);
  }

  /** A pending restart takes exactly that long: before, the source is active and still waits for it. */
  lemma {:induction false} RestartTakes(cfg: Config, s: State)
    requires InRange(cfg, s) && Restartable(cfg, s) && ReleaseOpen(cfg, s)
    ensures Run(cfg, s, RestartLength(cfg, s)) == Started(s.volume)
    ensures forall j: nat :: j < RestartLength(cfg, s) ==> Run(cfg, s, j).active && Run(cfg, s, j).restarting
    decreases RestartLength(cfg, s)
  {
    RestartStep(cfg, s);
    var t := Step(cfg, s);
    if RestartLength(cfg, s) == 1 {
      assert Run(cfg, s, 1) == Run(cfg, t, 0);
    } else {
      RestartTakes(cfg, t);
      forall j: nat | j < RestartLength(cfg, s)
        ensures Run(cfg, s, j).active && Run(cfg, s, j).restarting
      {
        if j > 0 {
          assert Run(cfg, s, j) == Run(cfg, t, j - 1);
        }
      }
    }
  }

  /** In every run a stop does not cancel a waiting restart: the source still plays from the start again. */
  lemma StopDuringRestart(cfg: Config, volume: real, events: seq<Event>) returns (k: nat)
    requires var s := Play(cfg, Fresh(volume), events); Audible(s) && s.restarting
    ensures k <= Max(1, cfg.release) + RESTART_SAMPLES
    ensures var s := Play(cfg, Fresh(volume), events); Run(cfg, Stop(s), k) == Start(s)
  {
    PlayRestartSafe(cfg, volume, events);
    k := RestartCountdown(cfg, Stop(Play(cfg, Fresh(volume), events)));
  }

  // ---------------------------------------------------------------- loudness

  /** What is assumed of the sine, and of the amplitudes a sequence is built with. */
  ghost predicate Tame(cfg: Config) {
    && (forall x: real :: -1.0 <= cfg.sineOfTurns(x) <= 1.0)
    && forall i :: 0 <= i < |cfg.segments| && cfg.segments[i].tone.Some? ==>
         0.0 <= cfg.segments[i].tone.value.amp <= 1.0
  }

  lemma WaveformBounded(cfg: Config, segment: Segment, elapsed: nat)
    requires forall x: real :: -1.0 <= cfg.sineOfTurns(x) <= 1.0
    ensures -1.0 <= Waveform.Waveform(cfg, segment, elapsed) <= 1.0
  {
    if segment.tone.Some? {
      var turns := Turns(cfg, segment.tone.value, elapsed);
      assert 0.0 <= turns - turns.Floor as real < 1.0;
      assert -1.0 <= cfg.sineOfTurns(turns) <= 1.0;
    }
  }

  lemma RampBounded(n: nat, d: nat)
    ensures 0.0 <= Ramp(n, d) <= 1.0
  {
    if n < d {
      Fraction(n, d, Ramp(n, d));
    }
  }

  lemma EnvelopeBounded(cfg: Config, segment: Segment, elapsed: nat)
    ensures 0.0 <= SegmentEnvelope(cfg, segment, elapsed) <= 1.0
  {
    RampBounded(elapsed, cfg.attack);
    RampBounded(if segment.samples > elapsed then segment.samples - elapsed else 0, cfg.release);
  }

  lemma AmpBounded(cfg: Config, i: nat)
    requires Tame(cfg) && i < |cfg.segments|
    ensures 0.0 <= Amp(cfg.segments[i]) <= 1.0
  {
  }

  lemma VoiceBounded(cfg: Config, i: nat, elapsed: nat, gain: real, volume: real)
    requires Tame(cfg) && i < |cfg.segments| && 0.0 <= gain <= 1.0 && 0.0 <= volume
    ensures -volume <= Voice(cfg, i, elapsed, gain, volume) <= volume
  {
    var segment := cfg.segments[i];
    WaveformBounded(cfg, segment, elapsed);
    EnvelopeBounded(cfg, segment, elapsed);
    AmpBounded(cfg, i);
    var shaped, faded := Shaped(cfg, segment, elapsed), Faded(cfg, segment, elapsed, gain);
    var sounded := Sounded(cfg, segment, elapsed, gain);
    Softer(Waveform.Waveform(cfg, segment, elapsed), SegmentEnvelope(cfg, segment, elapsed), shaped, 1.0);
    Softer(shaped, gain, faded, 1.0);
    Softer(faded, Amp(segment), sounded, 1.0);
    Scaled(volume, sounded, 1.0, Voice(cfg, i, elapsed, gain, volume), volume);
  }

  /** With amplitudes up to one, no state of a source is louder than its volume. */
  lemma NeverLouderThanVolume(cfg: Config, s: State)
    requires Tame(cfg) && InRange(cfg, s) && 0.0 <= s.volume
    ensures -s.volume <= Emit(cfg, s) <= s.volume
  {
    if Audible(s) && s.cyclePos < Total(cfg) {
      TotalNeedsSegments(cfg);
      GainBounded(cfg, s);
      VoiceBounded(cfg, s.segIdx, s.segElapsed, ReleaseEnvelope(cfg, s), s.volume);
    }
  }

  lemma GainBounded(cfg: Config, s: State)
    ensures 0.0 <= ReleaseEnvelope(cfg, s) <= 1.0
  {
    if s.releasing && cfg.release > 0 {
      Fraction(Min(s.envPos, cfg.release), cfg.release, 1.0 - ReleaseEnvelope(cfg, s));
    }
  }
}
