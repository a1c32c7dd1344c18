/**
  What a clip source does over whole runs: buffers may be cut anywhere, a looping clip has an exact
  period, without seeking a release always ends inside the cycle it began in, and with seeking exactly
  when the clip leaves it the room.
 */
module WavProofs {
  import opened Frames
  import opened Wav

  // ---------------------------------------------------------------- cutting buffers

  datatype Outcome = Outcome(buf: seq<real>, state: State, reports: seq<real>)

  /** Everything one call on a buffer does: samples, state and progress reports in order. */
  function MixBuffer(c: Clip, s: State, buf: seq<real>): (o: Outcome)
    requires Built(c) && Safe(c, s)
    ensures Safe(c, o.state)
  {
    var n := FrameCount(|buf|, c.channels);
    Outcome(AddFrames(buf, c.channels, Emissions(c, Settle(c, s), n)), Mix(c, s, n),
            SettleReport(c, s) + Reports(c, Settle(c, s), n))
  }

  lemma {:induction false} RunStaysReady(c: Clip, s: State, n: nat)
    requires Safe(c, s) && (Audible(s) ==> Ready(c, s))
    ensures Audible(Run(c, s, n)) ==> Ready(c, Run(c, s, n))
    decreases n
  {
    if n > 0 {
      RunStaysReady(c, Step(c, s), n - 1);
    }
  }

  /** A buffer never ends in a state that the next one would still have to settle. */
  lemma SettledOnce(c: Clip, s: State, n: nat)
    requires Safe(c, s)
    ensures Settle(c, Mix(c, s, n)) == Mix(c, s, n) && SettleReport(c, Mix(c, s, n)) == []
  {
    RunStaysReady(c, Settle(c, s), n);
  }

  /** State, emissions and reports of `m + n` frames, in two calls. */
  lemma MixAdd(c: Clip, s: State, m: nat, n: nat)
    requires Safe(c, s)
    ensures var t, u := Settle(c, s), Mix(c, s, m);
      && Mix(c, s, m + n) == Mix(c, u, n)
      && Emissions(c, t, m + n) == Emissions(c, t, m) + Emissions(c, Settle(c, u), n)
      && Reports(c, t, m + n) == Reports(c, t, m) + (SettleReport(c, u) + Reports(c, Settle(c, u), n))
  {
    SettledOnce(c, s, m);
    var t := Settle(c, s);
    RunAdd(c, t, m, n);
    EmissionsAdd(c, t, m, n);
    ReportsAdd(c, t, m, n);
  }

  /** What one call does, given its number of frames. */
  lemma MixBufferIs(c: Clip, s: State, buf: seq<real>, n: nat)
    requires Built(c) && Safe(c, s) && n == FrameCount(|buf|, c.channels)
    ensures MixBuffer(c, s, buf) == Outcome(AddFrames(buf, c.channels, Emissions(c, Settle(c, s), n)), Mix(c, s, n),
                                            SettleReport(c, s) + Reports(c, Settle(c, s), n))
  {
  }

  lemma SplitIndependence(c: Clip, s: State, a: seq<real>, b: seq<real>)
    requires Built(c) && Safe(c, s) && |a| % c.channels == 0
    ensures var first := MixBuffer(c, s, a);
      var second := MixBuffer(c, first.state, b);
      MixBuffer(c, s, a + b) == Outcome(first.buf + second.buf, second.state, first.reports + second.reports)
  {
    var m, n := FrameCount(|a|, c.channels), FrameCount(|b|, c.channels);
    var u := Mix(c, s, m);
    FrameCountSplit(|a|, |b|, c.channels);
    MixBufferIs(c, s, a + b, m + n);
    MixBufferIs(c, s, a, m);
    MixBufferIs(c, u, b, n);
    MixAdd(c, s, m, n);
    AddFramesSplit(a, b, c.channels, Emissions(c, Settle(c, s), m), Emissions(c, Settle(c, u), n));
  }

  // ---------------------------------------------------------------- closed form

  /** Position `k` of a cycle of `n` samples and `p` pause frames. */
  function CycleState(c: Clip, volume: real, k: nat, pause: nat): State
    requires |c.samples| > 0 && k < |c.samples| + pause
  {
    var s := Start(Fresh(volume));
    if k < |c.samples| then s.(pos := k)
    else s.(pos := |c.samples|, pauseRemaining := |c.samples| + pause - k)
  }

  function CycleValue(c: Clip, volume: real, k: nat): real {
    if k < |c.samples| then Level(c, k, 1.0, volume) else 0.0
  }

  function CycleReport(c: Clip, k: nat): seq<real> {
    if k < |c.samples| then Progress(c, k + 1) else []
  }

  /** One frame moves to the next position of the cycle. */
  lemma LoopedStep(c: Clip, volume: real, k: nat, pause: nat)
    requires |c.samples| > 0 && c.loopPause == Some(pause) && volume != 0.0 && k < |c.samples| + pause
    ensures Step(c, CycleState(c, volume, k, pause))
         == CycleState(c, volume, if k + 1 == |c.samples| + pause then 0 else k + 1, pause)
  {
  }

  lemma {:induction false} LoopedState(c: Clip, volume: real, t: nat, period: nat)
    requires |c.samples| > 0 && c.loopPause.Some? && volume != 0.0 && period == |c.samples| + c.loopPause.value
    ensures Run(c, Start(Fresh(volume)), t) == CycleState(c, volume, t % period, c.loopPause.value)
    decreases t
  {
    if t > 0 {
      LoopedState(c, volume, t - 1, period);
      NextPosition(t - 1, period);
      LoopedStep(c, volume, (t - 1) % period, c.loopPause.value);
      RunSnoc(c, Start(Fresh(volume)), t - 1);
    }
  }

  /** A looping clip has period n + p: frame t plays the edge-faded sample at t mod (n + p), or silence. */
  lemma LoopedClosedForm(c: Clip, volume: real, t: nat)
    requires |c.samples| > 0 && c.loopPause.Some? && volume != 0.0
    ensures var s := Run(c, Start(Fresh(volume)), t);
      var k := t % (|c.samples| + c.loopPause.value);
      s.active && Emit(c, s) == CycleValue(c, volume, k) && Reported(c, s) == CycleReport(c, k)
  {
    LoopedState(c, volume, t, |c.samples| + c.loopPause.value);
  }

  /** A clip that does not loop plays its samples once and then stays silent. */
  lemma {:induction false} OneShotClosedForm(c: Clip, volume: real, t: nat)
    requires |c.samples| > 0 && c.loopPause == None && volume != 0.0
    ensures var s := Run(c, Start(Fresh(volume)), t);
      && s == Start(Fresh(volume)).(pos := Min(t, |c.samples|), active := t < |c.samples|)
      && Emit(c, s) == CycleValue(c, volume, t) && Reported(c, s) == CycleReport(c, t)
    decreases t
  {
    if t > 0 {
      OneShotClosedForm(c, volume, t - 1);
      RunSnoc(c, Start(Fresh(volume)), t - 1);
    }
  }

  /** The edge fade is the same at both ends, never silent, never above one and full in the middle. */
  lemma EdgeFade(c: Clip, pos: nat)
    requires pos < |c.samples|
    ensures EdgeGain(c, pos) == EdgeGain(c, |c.samples| - 1 - pos)
    ensures 0.0 < EdgeGain(c, pos) <= 1.0
    ensures EdgeGain(c, pos) == 1.0 <==> c.edgeFrames <= pos + 1 && c.edgeFrames <= |c.samples| - pos
    ensures pos > 0 && pos < |c.samples| - pos ==> EdgeGain(c, pos - 1) <= EdgeGain(c, pos)
  {
    var distance := Min(pos + 1, |c.samples| - pos);
    if distance < c.edgeFrames {
      Quieter(distance, c.edgeFrames, c.edgeFrames);
      Whole(c.edgeFrames);
      if pos > 0 && pos < |c.samples| - pos {
        Quieter(pos, pos + 1, c.edgeFrames);
      }
    }
  }

  /** Strictly rising, above zero and at most `top`. */
  predicate Rising(r: seq<real>, top: real) {
    && (forall i :: 0 <= i < |r| ==> 0.0 < r[i] <= top)
    && forall i, j :: 0 <= i < j < |r| ==> r[i] < r[j]
  }

  lemma RisingSnoc(r: seq<real>, top: real, next: real)
    requires Rising(r, top) && 0.0 <= top < next
    ensures Rising(r, next) && Rising(r + [next], next)
  {
  }

  lemma PartBounds(k: nat, n: nat)
    requires k < n
    ensures 0.0 <= k as real / n as real < (k + 1) as real / n as real <= 1.0
  {
    Whole(n);
  }

  /** A report tells the part played so far; the last one always comes. */
  lemma ProgressIsPart(c: Clip, next: nat)
    requires 0 < next <= |c.samples| && c.reports
    ensures Progress(c, next) == [] || Progress(c, next) == [next as real / |c.samples| as real]
    ensures next == |c.samples| ==> Progress(c, next) == [next as real / |c.samples| as real] == [1.0]
  {
    Whole(|c.samples|);
  }

  /** The reports of the first frames of a clip that plays once. */
  lemma PlayReports(c: Clip, volume: real, n: nat)
    requires c.loopPause == None && volume != 0.0 && n < |c.samples|
    ensures var s := Start(Fresh(volume));
      Reports(c, s, n + 1) == Reports(c, s, n) + Progress(c, n + 1)
  {
    OneShotClosedForm(c, volume, n);
    ReportsSnoc(c, Start(Fresh(volume)), n);
  }

  /** One play of a clip reports strictly rising progress, and ends with exactly one. */
  lemma {:induction false} ProgressRises(c: Clip, volume: real, n: nat)
    requires c.loopPause == None && volume != 0.0 && 0 < n <= |c.samples| && c.reports
    ensures var r := Reports(c, Start(Fresh(volume)), n);
      && Rising(r, n as real / |c.samples| as real)
      && (n == |c.samples| ==> r != [] && r[|r| - 1] == 1.0)
  {
    var before := Reports(c, Start(Fresh(volume)), n - 1);
    var was, part := (n - 1) as real / |c.samples| as real, n as real / |c.samples| as real;
    assert Rising(before, was) by {
      if n > 1 {
        ProgressRises(c, volume, n - 1);
      }
    }
    PartBounds(n - 1, |c.samples|);
    RisingSnoc(before, was, part);
    PlayReports(c, volume, n - 1);
    ProgressIsPart(c, n);
  }

  // ---------------------------------------------------------------- releases without seeking

  /** A release ends before the clip does, and a pause stands behind the last sample. */
  predicate Contained(c: Clip, s: State) {
    && Safe(c, s)
    && (s.releasing ==>
         && IsPlaying(c, s) && s.pauseRemaining == 0
         && s.releaseRemaining <= |c.samples| - s.pos && s.releaseTotal <= c.releaseFrames)
    && (s.pauseRemaining > 0 ==> s.pos == |c.samples|)
  }

  lemma {:induction false} RunContained(c: Clip, s: State, n: nat)
    requires Contained(c, s)
    ensures Contained(c, Run(c, s, n))
    decreases n
  {
    if n > 0 {
      RunContained(c, Step(c, s), n - 1);
    }
  }

  predicate SeekFree(events: seq<Event>) {
    forall i :: 0 <= i < |events| ==> !events[i].Skipping? && !events[i].Rewinding?
  }

  lemma {:induction false} PlayContained(c: Clip, volume: real, events: seq<Event>)
    requires Built(c) && SeekFree(events)
    ensures Contained(c, Play(c, Fresh(volume), events))
    decreases |events|
  {
    if events != [] {
      var s := Play(c, Fresh(volume), events[..|events| - 1]);
      PlayContained(c, volume, events[..|events| - 1]);
      match events[|events| - 1]
      case Mixing(n) => RunContained(c, Settle(c, s), n);
      case _ =>
    }
  }

  /** Frame `j` of a release: one sample further, one step quieter, in the same cycle. */
  lemma {:induction false} ReleaseFrame(c: Clip, s: State, j: nat)
    requires Contained(c, s) && s.releasing && Audible(s) && j < s.releaseRemaining
    ensures var t := Run(c, s, j);
      && t == s.(pos := s.pos + j, releaseRemaining := s.releaseRemaining - j)
      && Emit(c, t) == Level(c, s.pos + j, (s.releaseRemaining - j) as real / s.releaseTotal as real, s.volume)
    decreases j
  {
    if j > 0 {
      ReleaseFrame(c, s, j - 1);
      RunSnoc(c, s, j - 1);
    }
  }

  /** How a release ends: at the beginning of the clip, or idle. */
  function Released(s: State): State
    requires s.releasing
  {
    if s.restartAfter then WithoutRelease(s).(pos := 0)
    else WithoutRelease(s).(pos := s.pos + s.releaseRemaining, active := false)
  }

  lemma ReleaseEnds(c: Clip, s: State)
    requires Contained(c, s) && s.releasing && Audible(s)
    ensures Run(c, s, s.releaseRemaining) == Released(s)
  {
    ReleaseFrame(c, s, s.releaseRemaining - 1);
    RunSnoc(c, s, s.releaseRemaining - 1);
  }

  /** A stop while playing needs at most `releaseFrames` frames, all from the rest of this cycle. */
  lemma StopBegins(c: Clip, s: State)
    requires Built(c) && Contained(c, s) && IsPlaying(c, s)
    ensures var t := Stop(c, s);
      && Contained(c, t) && t.releasing && !t.restartAfter && t.pos == s.pos
      && 1 <= t.releaseRemaining <= c.releaseFrames && s.pos + t.releaseRemaining <= |c.samples|
      && (!s.releasing ==> ReleaseGain(t) == 1.0)
  {
    var t := Stop(c, s);
    assert !s.releasing ==> t.releaseRemaining == t.releaseTotal;
    Whole(t.releaseTotal);
  }

  lemma Whole(n: nat)
    requires n > 0
    ensures n as real / n as real == 1.0
  {
  }

  /** Each frame of the fade plays the next sample under a smaller gain than the one before. */
  lemma StopFades(c: Clip, s: State, n: nat)
    requires Built(c) && Contained(c, s) && IsPlaying(c, s) && Audible(s)
    requires n + 1 < Stop(c, s).releaseRemaining
    ensures var t := Stop(c, s);
      && Run(c, t, n).pos == s.pos + n && Run(c, t, n + 1).pos == s.pos + n + 1
      && 0.0 < ReleaseGain(Run(c, t, n + 1)) < ReleaseGain(Run(c, t, n))
  {
    var t := Stop(c, s);
    StopBegins(c, s);
    ReleaseFrame(c, t, n);
    ReleaseFrame(c, t, n + 1);
    Quieter(t.releaseRemaining - n - 1, t.releaseRemaining - n, t.releaseTotal);
  }

  /** From `releaseFrames` frames after a stop on, the source is idle. */
  lemma StopSilences(c: Clip, s: State, n: nat)
    requires Built(c) && Contained(c, s) && IsPlaying(c, s) && Audible(s)
    requires n >= Stop(c, s).releaseRemaining
    ensures !Run(c, Stop(c, s), n).active && Emit(c, Run(c, Stop(c, s), n)) == 0.0
  {
    var t := Stop(c, s);
    StopBegins(c, s);
    ReleaseEnds(c, t);
    RunAdd(c, t, t.releaseRemaining, n - t.releaseRemaining);
    IdleStays(c, Run(c, t, t.releaseRemaining), n - t.releaseRemaining);
  }

  lemma Quieter(a: nat, b: nat, total: nat)
    requires 0 < a < b <= total
    ensures 0.0 < a as real / total as real < b as real / total as real
  {
  }

  /** A clip that is not playing stops at once, and with it a pause between two cycles. */
  lemma StopsAtOnce(c: Clip, s: State, n: nat)
    requires Safe(c, s) && !IsPlaying(c, s)
    ensures !Stop(c, s).active && Stop(c, s).pauseRemaining == 0 && Stop(c, s).pos == s.pos
    ensures Emit(c, Run(c, Stop(c, s), n)) == 0.0 && !Run(c, Stop(c, s), n).active
  {
    IdleStays(c, Stop(c, s), n);
  }

  /** A finished clip that is started again goes idle with the next buffer, however short, and reports its end. */
  lemma FinishedGoesIdle(c: Clip, s: State, n: nat)
    requires Safe(c, s) && Audible(s) && s.pos == |c.samples| && s.pauseRemaining == 0
    ensures !Mix(c, s, n).active && (c.reports ==> SettleReport(c, s) + Reports(c, Settle(c, s), n) == [1.0])
  {
    IdleStays(c, Settle(c, s), n);
  }

  /** A restart while playing reaches the beginning of the clip in the same time, without going idle. */
  lemma RestartFades(c: Clip, s: State)
    requires Built(c) && Contained(c, s) && IsPlaying(c, s) && Audible(s)
    ensures var t := Restart(c, s);
      && 1 <= t.releaseRemaining <= c.releaseFrames
      && Run(c, t, t.releaseRemaining) == WithoutRelease(t).(pos := 0)
      && forall j: nat :: j < t.releaseRemaining ==> Run(c, t, j).active
  {
    var t := Restart(c, s);
    ReleaseEnds(c, t);
    forall j: nat | j < t.releaseRemaining
      ensures Run(c, t, j).active
    {
      ReleaseFrame(c, t, j);
    }
  }

  // ---------------------------------------------------------------- the latest call decides

  predicate DuringRelease(events: seq<Event>) {
    forall i :: 0 <= i < |events| ==> events[i].Stopping? || events[i].Restarting? || events[i].Mixing?
  }

  function FramesIn(events: seq<Event>): nat {
    if events == [] then 0
    else FramesIn(events[..|events| - 1]) + match events[|events| - 1] case Mixing(n) => n case _ => 0
  }

  /** Whether the latest of stop and restart was a restart; `before` if there was neither. */
  function LatestIsRestart(events: seq<Event>, before: bool): bool {
    if events == [] then before
    else match events[|events| - 1]
      case Restarting => true
      case Stopping => false
      case _ => LatestIsRestart(events[..|events| - 1], before)
  }

  lemma {:induction false} ReleaseIgnoresRepeats(c: Clip, s: State, events: seq<Event>)
    requires Contained(c, s) && s.releasing && Audible(s)
    requires DuringRelease(events) && FramesIn(events) < s.releaseRemaining
    ensures Play(c, s, events) == s.(pos := s.pos + FramesIn(events),
                                     releaseRemaining := s.releaseRemaining - FramesIn(events),
                                     restartAfter := LatestIsRestart(events, s.restartAfter))
    decreases |events|
  {
    if events != [] {
      var init := events[..|events| - 1];
      ReleaseIgnoresRepeats(c, s, init);
      match events[|events| - 1]
      case Mixing(n) => ReleaseFrame(c, Play(c, s, init), n);
      case _ =>
    }
  }

  /**
    However many stops and restarts arrive while a release is running, in whatever buffers it is
    played, it ends when the first one would have ended it, in the way the latest one asked for.
   */
  lemma LatestDecides(c: Clip, s: State, events: seq<Event>)
    requires Contained(c, s) && s.releasing && Audible(s)
    requires DuringRelease(events) && FramesIn(events) < s.releaseRemaining
    ensures Mix(c, Play(c, s, events), s.releaseRemaining - FramesIn(events))
         == Released(s.(restartAfter := LatestIsRestart(events, s.restartAfter)))
  {
    ReleaseIgnoresRepeats(c, s, events);
    ReleaseEnds(c, Play(c, s, events));
  }

  // ---------------------------------------------------------------- seeking

  predicate Fading(s: State) {
    s.active && s.releasing
  }

  /** What every run keeps, seeking included: a release is never longer than the clip and always goes on. */
  predicate Releasable(c: Clip, s: State) {
    && Safe(c, s)
    && (Fading(s) ==> !Exhausted(c, s) && s.releaseTotal <= |c.samples| && s.releaseTotal <= c.releaseFrames)
  }

  lemma {:induction false} RunReleasable(c: Clip, s: State, n: nat)
    requires Releasable(c, s)
    ensures Releasable(c, Run(c, s, n))
    decreases n
  {
    if n > 0 {
      RunReleasable(c, Step(c, s), n - 1);
    }
  }

  lemma ApplyReleasable(c: Clip, s: State, e: Event)
    requires Built(c) && Releasable(c, s)
    ensures Releasable(c, Apply(c, s, e))
  {
    match e
    case Mixing(n) => RunReleasable(c, Settle(c, s), n);
    case _ =>
  }

  lemma {:induction false} PlayReleasable(c: Clip, volume: real, events: seq<Event>)
    requires Built(c)
    ensures Releasable(c, Play(c, Fresh(volume), events))
    decreases |events|
  {
    if events != [] {
      PlayReleasable(c, volume, events[..|events| - 1]);
      ApplyReleasable(c, Play(c, Fresh(volume), events[..|events| - 1]), events[|events| - 1]);
    }
  }

  /** The rest of the clip is too short for the release. */
  predicate Outruns(c: Clip, s: State) {
    s.pauseRemaining == 0 && s.pos < |c.samples| && s.releaseRemaining > |c.samples| - s.pos
  }

  /** Frames until a release is over: its own, and those of a pause before or between them. */
  function FadeLength(c: Clip, s: State): nat {
    if s.pauseRemaining > 0 then s.pauseRemaining + s.releaseRemaining
    else if !Outruns(c, s) then s.releaseRemaining
    else match c.loopPause
      case None => |c.samples| - s.pos
      case Some(frames) => s.releaseRemaining + frames
  }

  /** The release lasts `k` frames and ends at the beginning of the clip or idle. */
  ghost predicate FadesFor(c: Clip, s: State, k: nat, again: bool)
    requires Safe(c, s)
  {
    && (forall j: nat :: j < k ==> Fading(Run(c, s, j)))
    && !Fading(Run(c, s, k)) && Run(c, s, k).active == again
    && (again ==> Run(c, s, k).pos == 0)
  }

  /** Frame `j` of a release that has not reached the end of the clip. */
  lemma {:induction false} PlaysToEnd(c: Clip, s: State, j: nat)
    requires Safe(c, s) && Fading(s) && Ready(c, s) && s.pauseRemaining == 0
    requires j < s.releaseRemaining && j < |c.samples| - s.pos
    ensures Run(c, s, j) == s.(pos := s.pos + j, releaseRemaining := s.releaseRemaining - j)
    decreases j
  {
    if j > 0 {
      PlaysToEnd(c, s, j - 1);
      RunSnoc(c, s, j - 1);
    }
  }

  /** Frame `j` of a pause; its end is the beginning of the clip, wherever a seek had gone. */
  lemma {:induction false} PausesOn(c: Clip, s: State, j: nat)
    requires Safe(c, s) && Audible(s) && j <= s.pauseRemaining && s.pauseRemaining > 0
    ensures Run(c, s, j) == s.(pauseRemaining := s.pauseRemaining - j,
                               pos := if j == s.pauseRemaining then 0 else s.pos)
    decreases j
  {
    if j > 0 {
      PausesOn(c, s, j - 1);
      RunSnoc(c, s, j - 1);
    }
  }

  lemma FadesLater(c: Clip, s: State, t: State, m: nat, k: nat, again: bool)
    requires Safe(c, s) && t == Run(c, s, m) && FadesFor(c, t, k, again)
    requires forall j: nat :: j < m ==> Fading(Run(c, s, j))
    ensures FadesFor(c, s, m + k, again)
  {
    forall j: nat | m <= j < m + k
      ensures Fading(Run(c, s, j))
    {
      RunAdd(c, s, m, j - m);
      assert Fading(Run(c, t, j - m));
    }
    RunAdd(c, s, m, k);
  }

  lemma FadeWithinClip(c: Clip, s: State)
    requires Releasable(c, s) && Fading(s) && Audible(s) && s.pauseRemaining == 0 && !Outruns(c, s)
    ensures FadesFor(c, s, s.releaseRemaining, s.restartAfter)
  {
    FadesOn(c, s, s.releaseRemaining);
    PlaysToEnd(c, s, s.releaseRemaining - 1);
    RunSnoc(c, s, s.releaseRemaining - 1);
  }

  lemma FadeAfterPause(c: Clip, s: State)
    requires Releasable(c, s) && Fading(s) && Audible(s) && s.pauseRemaining > 0
    ensures FadesFor(c, s, s.pauseRemaining + s.releaseRemaining, s.restartAfter)
    ensures EntersNextCycle(c, s, s.pauseRemaining)
  {
    forall j: nat | j < s.pauseRemaining
      ensures Fading(Run(c, s, j))
    {
      PausesOn(c, s, j);
    }
    PausesOn(c, s, s.pauseRemaining);
    FadeWithinClip(c, Run(c, s, s.pauseRemaining));
    FadesLater(c, s, Run(c, s, s.pauseRemaining), s.pauseRemaining, s.releaseRemaining, s.restartAfter);
  }

  lemma FadesOn(c: Clip, s: State, k: nat)
    requires Releasable(c, s) && Fading(s) && Audible(s) && s.pauseRemaining == 0
    requires k <= s.releaseRemaining && k <= |c.samples| - s.pos
    ensures forall j: nat :: j < k ==> Fading(Run(c, s, j)) && Run(c, s, j).pos == s.pos + j
  {
    forall j: nat | j < k
      ensures Fading(Run(c, s, j)) && Run(c, s, j).pos == s.pos + j
    {
      PlaysToEnd(c, s, j);
    }
  }

  /** The clip ends under a release: the state after its last sample. */
  lemma ClipEnds(c: Clip, s: State, m: nat)
    requires Releasable(c, s) && Fading(s) && Audible(s) && Outruns(c, s) && m == |c.samples| - s.pos
    ensures Run(c, s, m) == EndClip(c, s.(pos := |c.samples|, releaseRemaining := s.releaseRemaining - m))
  {
    PlaysToEnd(c, s, m - 1);
    RunSnoc(c, s, m - 1);
  }

  lemma FadeIntoNextCycle(c: Clip, s: State, frames: nat)
    requires Releasable(c, s) && Fading(s) && Audible(s) && Outruns(c, s) && c.loopPause == Some(frames)
    ensures FadesFor(c, s, s.releaseRemaining + frames, s.restartAfter)
    ensures EntersNextCycle(c, s, |c.samples| - s.pos + frames)
  {
    var m := |c.samples| - s.pos;
    FadesOn(c, s, m);
    ClipEnds(c, s, m);
    var t := Run(c, s, m);
    if frames == 0 {
      FadeWithinClip(c, t);
    } else {
      FadeAfterPause(c, t);
      RunAdd(c, s, m, frames);
    }
    FadesLater(c, s, t, m, frames + t.releaseRemaining, s.restartAfter);
  }

  /** Only the end of a clip that does not loop loses a restart. */
  predicate PlaysAgain(c: Clip, s: State) {
    s.restartAfter && !(Outruns(c, s) && c.loopPause == None)
  }

  /** How long any release takes, whatever seeks came before it, and how it ends. */
  lemma FadeTakes(c: Clip, s: State)
    requires Releasable(c, s) && Fading(s) && Audible(s)
    ensures FadesFor(c, s, FadeLength(c, s), PlaysAgain(c, s))
  {
    if s.pauseRemaining > 0 {
      FadeAfterPause(c, s);
    } else if !Outruns(c, s) {
      FadeWithinClip(c, s);
    } else {
      match c.loopPause
      case None =>
        FadesOn(c, s, |c.samples| - s.pos);
        ClipEnds(c, s, |c.samples| - s.pos);
      case Some(frames) => FadeIntoNextCycle(c, s, frames);
    }
  }

  /** After `j` frames the release goes on at the beginning of another cycle. */
  predicate EntersNextCycle(c: Clip, s: State, j: nat)
    requires Safe(c, s)
  {
    var t := Run(c, s, j);
    j > 0 && Fading(t) && t.pos == 0 && t.pauseRemaining == 0
  }

  /** No sample of a later cycle is played before the release is over. */
  ghost predicate StaysInCycle(c: Clip, s: State)
    requires Safe(c, s)
  {
    forall j: nat :: !EntersNextCycle(c, s, j)
  }

  lemma {:induction false} OverStays(c: Clip, s: State, n: nat)
    requires Safe(c, s) && !Fading(s)
    ensures !Fading(Run(c, s, n))
    decreases n
  {
    if n > 0 {
      OverStays(c, Step(c, s), n - 1);
    }
  }

  lemma NeverLater(c: Clip, s: State, k: nat, again: bool, j: nat)
    requires Safe(c, s) && FadesFor(c, s, k, again) && j >= k
    ensures !Fading(Run(c, s, j))
  {
    RunAdd(c, s, k, j - k);
    OverStays(c, Run(c, s, k), j - k);
  }

  lemma StaysWhile(c: Clip, s: State, k: nat, again: bool)
    requires Safe(c, s) && FadesFor(c, s, k, again)
    requires forall j: nat :: j < k ==> Run(c, s, j).pos == s.pos + j
    ensures StaysInCycle(c, s)
  {
    forall j: nat
      ensures !EntersNextCycle(c, s, j)
    {
      if j >= k {
        NeverLater(c, s, k, again, j);
      }
    }
  }

  /**
    A release stays in its cycle exactly when no pause is pending and the rest of the clip is long
    enough for it; a clip that does not loop has no later cycle.
   */
  lemma StaysInCycleIff(c: Clip, s: State)
    requires Releasable(c, s) && Fading(s) && Audible(s)
    ensures StaysInCycle(c, s)
       <==> s.pauseRemaining == 0 && (s.releaseRemaining <= |c.samples| - s.pos || c.loopPause == None)
  {
    FadeTakes(c, s);
    if s.pauseRemaining > 0 {
      FadeAfterPause(c, s);
    } else if Outruns(c, s) {
      if c.loopPause.Some? {
        FadeIntoNextCycle(c, s, c.loopPause.value);
      } else {
        FadesOn(c, s, |c.samples| - s.pos);
        StaysWhile(c, s, |c.samples| - s.pos, false);
      }
    } else {
      FadesOn(c, s, s.releaseRemaining);
      StaysWhile(c, s, s.releaseRemaining, s.restartAfter);
    }
  }

  /** A skip to the last sample during a release of at least two frames carries a stopped loop into its next cycle. */
  lemma SkipEscapesRelease(c: Clip, volume: real, frames: nat)
    requires Built(c) && c.loopPause.Some? && volume != 0.0
    requires c.releaseFrames >= 2 && |c.samples| >= 2 && frames >= |c.samples| - 1
    ensures var s := Skip(c, Stop(c, Start(Fresh(volume))), frames);
      && Releasable(c, s) && !StaysInCycle(c, s)
      && FadeLength(c, s) == Min(c.releaseFrames, |c.samples|) + c.loopPause.value
  {
    StaysInCycleIff(c, Skip(c, Stop(c, Start(Fresh(volume))), frames));
  }

  lemma PlayedToPause(c: Clip, volume: real, pause: nat)
    requires |c.samples| > 0 && c.loopPause == Some(pause) && pause > 0 && volume != 0.0
    ensures Mix(c, Start(Fresh(volume)), |c.samples|) == CycleState(c, volume, |c.samples|, pause)
  {
    EarlyPosition(|c.samples|, |c.samples| + pause);
    LoopedState(c, volume, |c.samples|, |c.samples| + pause);
  }

  lemma EarlyPosition(t: nat, period: nat)
    requires t < period
    ensures t % period == t
  {
    DivUnique(t, period, 0);
  }

  lemma StoppedAfterSkip(c: Clip, s: State, frames: nat)
    requires Built(c) && |c.samples| > 0 && s.active && !s.releasing && s.pos == |c.samples| && frames > 0
    ensures Stop(c, Skip(c, s, frames))
         == s.(pos := |c.samples| - 1, restartAfter := false,
               releasing := true, releaseTotal := 1, releaseRemaining := 1)
  {
  }

  /**
    So does a stop after a skip in a pause, in every clip that loops with one: the fade is a single frame,
    and it comes after the rest of the pause, in the next cycle.
   */
  lemma StopAfterSkipInPause(c: Clip, volume: real, frames: nat)
    requires Built(c) && |c.samples| > 0 && c.loopPause.Some? && c.loopPause.value > 0 && volume != 0.0 && frames > 0
    ensures var s := Stop(c, Skip(c, Mix(c, Start(Fresh(volume)), |c.samples|), frames));
      Releasable(c, s) && !StaysInCycle(c, s) && FadeLength(c, s) == c.loopPause.value + 1
  {
    var s := Mix(c, Start(Fresh(volume)), |c.samples|);
    PlayedToPause(c, volume, c.loopPause.value);
    StoppedAfterSkip(c, s, frames);
    StaysInCycleIff(c, Stop(c, Skip(c, s, frames)));
  }
}
