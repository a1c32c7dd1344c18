/**
  Clip playback with looping pauses, a short release before stop and restart, seeking and progress
  reports. `Step` is one frame, `Emit` the value it adds to every sample of the frame and `Reported`
  the progress it reports. The class is the source as it is written and is proved to run these steps.
 */
module Wav {
  import opened Frames

  datatype Clip = Clip(
    samples: seq<real>,
    channels: nat,
    releaseFrames: nat,
    loopPause: Option<nat>,
    edgeFrames: nat,
    interval: nat,
    reports: bool
  )

  datatype State = State(
    volume: real,
    active: bool,
    pos: nat,
    releasing: bool,
    releaseTotal: nat,
    releaseRemaining: nat,
    restartAfter: bool,
    pauseRemaining: nat
  )

  predicate Built(c: Clip) {
    c.channels > 0 && c.releaseFrames > 0
  }

  /** What every interleaving of calls keeps: no index or counter can leave its range. */
  predicate Safe(c: Clip, s: State) {
    && s.pos <= |c.samples|
    && (s.pauseRemaining > 0 ==> |c.samples| > 0)
    && (s.releasing ==> 1 <= s.releaseRemaining <= s.releaseTotal)
  }

  predicate IsPlaying(c: Clip, s: State) {
    s.active && s.pos < |c.samples|
  }

  predicate Audible(s: State) {
    s.active && s.volume != 0.0
  }

  predicate Exhausted(c: Clip, s: State) {
    s.pos >= |c.samples| && s.pauseRemaining == 0
  }

  /** A frame is played, or counted as pause. */
  predicate Ready(c: Clip, s: State) {
    Audible(s) && !Exhausted(c, s)
  }

  // ---------------------------------------------------------------- one frame

  function EdgeGain(c: Clip, pos: nat): real
    requires pos < |c.samples|
  {
    var distance := Min(pos + 1, |c.samples| - pos);
    if distance < c.edgeFrames then distance as real / c.edgeFrames as real else 1.0
  }

  /** A clip sample under volume and edge fade. */
  function Edged(c: Clip, pos: nat, volume: real): real
    requires pos < |c.samples|
  {
    c.samples[pos] * volume * EdgeGain(c, pos)
  }

  /** A clip sample under volume, edge fade and release gain. */
  function Level(c: Clip, pos: nat, gain: real, volume: real): real
    requires pos < |c.samples|
  {
    Edged(c, pos, volume) * gain
  }

  function ReleaseGain(s: State): real
    requires s.releasing ==> s.releaseTotal > 0
  {
    if s.releasing then s.releaseRemaining as real / s.releaseTotal as real else 1.0
  }

  function Emit(c: Clip, s: State): real
    requires Safe(c, s)
  {
    if Ready(c, s) && s.pauseRemaining == 0 then Level(c, s.pos, ReleaseGain(s), s.volume) else 0.0
  }

  function WithoutRelease(s: State): State {
    s.(releasing := false, releaseRemaining := 0, restartAfter := false)
  }

  /** The clip has just run to its end. */
  function EndClip(c: Clip, s: State): State {
    match c.loopPause
    case None => s.(active := false)
    case Some(frames) => if frames == 0 then s.(pos := 0) else s.(pauseRemaining := frames)
  }

  function Step(c: Clip, s: State): (t: State)
    requires Safe(c, s)
    ensures Safe(c, t) && t.volume == s.volume
    ensures Ready(c, s) && Audible(t) ==> Ready(c, t)
  {
    if !Ready(c, s) then s
    else if s.pauseRemaining > 0 then
      s.(pauseRemaining := s.pauseRemaining - 1, pos := if s.pauseRemaining == 1 then 0 else s.pos)
    else
      var played := s.(pos := s.pos + 1,
                       releaseRemaining := if s.releasing then s.releaseRemaining - 1 else s.releaseRemaining);
      if played.releasing && played.releaseRemaining == 0 then
        if played.restartAfter then WithoutRelease(played).(pos := 0) else WithoutRelease(played).(active := false)
      else if played.pos >= |c.samples| then EndClip(c, played)
      else played
  }

  /** Progress reported while playing the sample before `next`. */
  function Progress(c: Clip, next: nat): seq<real>
    requires next <= |c.samples|
  {
    if !c.reports then []
    else if next == |c.samples| then [1.0]
    else if c.interval > 0 && next % c.interval == 0 then [next as real / |c.samples| as real]
    else []
  }

  function Reported(c: Clip, s: State): seq<real>
    requires Safe(c, s)
  {
    if !Ready(c, s) || s.pauseRemaining > 0 || (s.releasing && s.releaseRemaining == 1) then []
    else Progress(c, s.pos + 1)
  }

  // ---------------------------------------------------------------- buffers

  function Run(c: Clip, s: State, n: nat): (t: State)
    requires Safe(c, s)
    ensures Safe(c, t) && t.volume == s.volume
    decreases n
  {
    if n == 0 then s else Run(c, Step(c, s), n - 1)
  }

  function Emissions(c: Clip, s: State, n: nat): (e: seq<real>)
    requires Safe(c, s)
    ensures |e| == n
    decreases n
  {
    if n == 0 then [] else [Emit(c, s)] + Emissions(c, Step(c, s), n - 1)
  }

  function Reports(c: Clip, s: State, n: nat): seq<real>
    requires Safe(c, s)
    decreases n
  {
    if n == 0 then [] else Reported(c, s) + Reports(c, Step(c, s), n - 1)
  }

  /** The check made once per buffer, before any frame: a finished clip goes idle. */
  function Settle(c: Clip, s: State): (t: State)
    requires Safe(c, s)
    ensures Safe(c, t) && (Audible(t) ==> Ready(c, t))
  {
    if Audible(s) && Exhausted(c, s) then s.(active := false) else s
  }

  function SettleReport(c: Clip, s: State): seq<real> {
    if Audible(s) && Exhausted(c, s) && c.reports then [1.0] else []
  }

  function Mix(c: Clip, s: State, n: nat): (t: State)
    requires Safe(c, s)
    ensures Safe(c, t)
  {
    Run(c, Settle(c, s), n)
  }

  // ---------------------------------------------------------------- control calls

  function WithRelease(c: Clip, s: State, restart: bool): State
    requires s.pos < |c.samples|
  {
    if s.releasing then s.(restartAfter := restart)
    else
      var total := Max(Min(c.releaseFrames, |c.samples| - s.pos), 1);
      s.(restartAfter := restart, releasing := true, releaseTotal := total, releaseRemaining := total)
  }

  function Start(s: State): State {
    WithoutRelease(s).(active := true)
  }

  function Stop(c: Clip, s: State): State {
    if IsPlaying(c, s) then WithRelease(c, s, false) else s.(pauseRemaining := 0, active := false)
  }

  function Restart(c: Clip, s: State): State {
    if IsPlaying(c, s) then WithRelease(c, s, true)
    else WithoutRelease(s).(pauseRemaining := 0, pos := 0, active := true)
  }

  function Skip(c: Clip, s: State, frames: nat): State {
    s.(pos := Min(s.pos + frames, Max(|c.samples| - 1, 0)))
  }

  function Rewind(s: State, frames: nat): State {
    s.(pos := s.pos - Min(frames, s.pos))
  }

  datatype Event =
    | Starting
    | Stopping
    | Restarting
    | SettingVolume(volume: real)
    | Skipping(frames: nat)
    | Rewinding(frames: nat)
    | Mixing(frames: nat)

  function Apply(c: Clip, s: State, e: Event): (t: State)
    requires Safe(c, s)
    ensures Safe(c, t)
  {
    match e
    case Starting => Start(s)
    case Stopping => Stop(c, s)
    case Restarting => Restart(c, s)
    case SettingVolume(v) => s.(volume := Clamp(v, 0.0, 1.0))
    case Skipping(n) => Skip(c, s, n)
    case Rewinding(n) => Rewind(s, n)
    case Mixing(n) => Mix(c, s, n)
  }

  function Play(c: Clip, s: State, events: seq<Event>): (t: State)
    requires Safe(c, s)
    ensures Safe(c, t)
    decreases |events|
  {
    if events == [] then s else Apply(c, Play(c, s, events[..|events| - 1]), events[|events| - 1])
  }

  function Fresh(volume: real): State {
    State(volume, false, 0, false, 0, 0, false, 0)
  }

  // ---------------------------------------------------------------- the source itself

  class WavSource {
    var clip: Clip
    var volume: real
    var active: bool
    var pos: nat
    var releasing: bool
    var releaseTotal: nat
    var releaseRemaining: nat
    var restartAfter: bool
    var pauseRemaining: nat
    /** Every value handed to the progress callback so far. */
    var updates: seq<real>

    function Snapshot(): State
      reads this
    {
      State(volume, active, pos, releasing, releaseTotal, releaseRemaining, restartAfter, pauseRemaining)
    }

    predicate Valid()
      reads this
    {
      Built(clip) && Safe(clip, Snapshot())
    }

    constructor (samples: seq<real>, sampleRate: nat, outputChannels: nat, volume: real,
                 updateInterval: Option<nat>, reports: bool)
      ensures Valid() && Snapshot() == Fresh(Clamp(volume, 0.0, 1.0)) && updates == []
      ensures clip == Clip(samples, Max(outputChannels, 1), Max(sampleRate / 100, 1), None, 0,
                           if updateInterval.Some? then updateInterval.value else 500, reports)
    {
      clip := Clip(samples, Max(outputChannels, 1), Max(sampleRate / 100, 1), None, 0,
                   if updateInterval.Some? then updateInterval.value else 500, reports);
      this.volume := Clamp(volume, 0.0, 1.0);
      active, pos, releasing, releaseTotal, releaseRemaining := false, 0, false, 0, 0;
      restartAfter, pauseRemaining, updates := false, 0, [];
    }

    /** The clip is resampled only if its rate is not the stream's; that may fail. */
    static method FromClip(samples: seq<real>, clipRate: nat, resample: seq<real> -> Option<seq<real>>,
                           sampleRate: nat, outputChannels: nat, volume: real,
                           updateInterval: Option<nat>, reports: bool) returns (source: Option<WavSource>)
      ensures source.None? <==> clipRate != sampleRate && resample(samples).None?
      ensures source.Some? ==>
        && fresh(source.value) && source.value.Valid() && source.value.updates == []
        && source.value.Snapshot() == Fresh(Clamp(volume, 0.0, 1.0))
        && source.value.clip == Clip(if clipRate == sampleRate then samples else resample(samples).value,
                                     Max(outputChannels, 1), Max(sampleRate / 100, 1), None, 0,
                                     if updateInterval.Some? then updateInterval.value else 500, reports)
    {
      var played := samples;
      if clipRate != sampleRate {
        match resample(samples) {
          case None => return None;
          case Some(resampled) => played := resampled;
        }
      }
      var s := new WavSource(played, sampleRate, outputChannels, volume, updateInterval, reports);
      return Some(s);
    }

    /** Plays the clip again after a pause; the edge fades never overlap. */
    method Looped(pauseFrames: nat, sampleRate: nat)
      requires Valid()
      modifies this
      ensures Valid() && Snapshot() == old(Snapshot()) && updates == old(updates)
      ensures clip == old(clip).(loopPause := Some(pauseFrames), edgeFrames := clip.edgeFrames)
      ensures clip.edgeFrames == Min(sampleRate / 200, |clip.samples| / 2)
      ensures 2 * clip.edgeFrames <= |clip.samples|
    {
      clip := clip.(loopPause := Some(pauseFrames), edgeFrames := Min(sampleRate / 200, |clip.samples| / 2));
    }

    method ReportProgress(value: real)
      modifies this`updates
      ensures updates == old(updates) + if clip.reports then [value] else []
    {
      if clip.reports {
        updates := updates + [value];
      }
    }

    method BeginRelease(restart: bool)
      requires Valid() && pos < |clip.samples|
      modifies this
      ensures Valid() && clip == old(clip) && updates == old(updates)
      ensures Snapshot() == WithRelease(clip, old(Snapshot()), restart)
    {
      restartAfter := restart;
      if !releasing {
        releasing := true;
        releaseTotal := Max(Min(clip.releaseFrames, |clip.samples| - pos), 1);
        releaseRemaining := releaseTotal;
      }
    }

    method CancelRelease()
      modifies this`releasing, this`releaseRemaining, this`restartAfter
      ensures Snapshot() == WithoutRelease(old(Snapshot()))
    {
      releasing := false;
      releaseRemaining := 0;
      restartAfter := false;
    }

    /** The played part of a frame: the sample value, and both counters moved on. */
    method PlaySample() returns (sample: real)
      requires Valid() && Ready(clip, Snapshot()) && pauseRemaining == 0
      modifies this`releaseRemaining, this`pos
      ensures sample == Emit(clip, old(Snapshot()))
      ensures Snapshot() == old(Snapshot()).(pos := old(pos) + 1,
        releaseRemaining := if releasing then old(releaseRemaining) - 1 else old(releaseRemaining))
    {
      sample := Level(clip, pos, if releasing then releaseRemaining as real / releaseTotal as real else 1.0, volume);
      if releasing {
        releaseRemaining := releaseRemaining - 1;
      }
      pos := pos + 1;
    }

    /** What follows a played sample: the end of a release, of the clip, or a progress report. */
    method FinishSample(ghost before: State)
      requires Built(clip) && Safe(clip, before) && Ready(clip, before) && before.pauseRemaining == 0
      requires Snapshot() == before.(pos := before.pos + 1,
        releaseRemaining := if before.releasing then before.releaseRemaining - 1 else before.releaseRemaining)
      modifies this
      ensures Valid() && clip == old(clip)
      ensures Snapshot() == Step(clip, before)
      ensures updates == old(updates) + Reported(clip, before)
    {
      if releasing && releaseRemaining == 0 {
        var restart := restartAfter;
        CancelRelease();
        if restart {
          pos := 0;
        } else {
          active := false;
        }
      } else if pos >= |clip.samples| {
        ReportProgress(1.0);
        match clip.loopPause {
          case None => active := false;
          case Some(frames) => if frames == 0 { pos := 0; } else { pauseRemaining := frames; }
        }
      } else if clip.interval > 0 && pos % clip.interval == 0 {
        ReportProgress(pos as real / |clip.samples| as real);
      }
    }

    method MixFrame(output: array<real>, lo: nat, hi: nat)
      requires Valid() && Ready(clip, Snapshot()) && lo <= hi <= output.Length
      modifies this, output
      ensures Valid() && clip == old(clip)
      ensures Snapshot() == Step(clip, old(Snapshot()))
      ensures updates == old(updates) + Reported(clip, old(Snapshot()))
      ensures forall i :: lo <= i < hi ==> output[i] == old(output[i]) + Emit(clip, old(Snapshot()))
      ensures forall i :: 0 <= i < output.Length && !(lo <= i < hi) ==> output[i] == old(output[i])
    {
      if pauseRemaining > 0 {
        pauseRemaining := pauseRemaining - 1;
        if pauseRemaining == 0 {
          pos := 0;
        }
        return;
      }
      ghost var before := Snapshot();
      var sample := PlaySample();
      AddToFrame(output, lo, hi, sample);
      FinishSample(before);
    }

    /** Frame `f` of a buffer that was `before` when the source was in state `s0`. */
    method MixNth(output: array<real>, f: nat, ghost s0: State, ghost before: seq<real>, ghost log: seq<real>)
      requires Valid() && Ready(clip, Snapshot()) && Safe(clip, s0) && f * clip.channels < output.Length
      requires Mixed(clip, s0, f, before, output[..], Snapshot()) && updates == log + Reports(clip, s0, f)
      modifies this, output
      ensures Valid() && clip == old(clip) && (Audible(Snapshot()) ==> Ready(clip, Snapshot()))
      ensures Mixed(clip, s0, f + 1, before, output[..], Snapshot()) && updates == log + Reports(clip, s0, f + 1)
    {
      ghost var now := output[..];
      var lo := f * clip.channels;
      MixFrame(output, lo, Min(lo + clip.channels, output.Length));
      MixedStep(clip, s0, f, before, now, output[..]);
    }

    /** The loop over the frames of a buffer. */
    method MixFrames(output: array<real>)
      requires Valid() && (Audible(Snapshot()) ==> Ready(clip, Snapshot()))
      modifies this, output
      ensures Valid() && clip == old(clip)
      ensures var n := FrameCount(output.Length, clip.channels);
        && Snapshot() == Run(clip, old(Snapshot()), n)
        && output[..] == AddFrames(old(output[..]), clip.channels, Emissions(clip, old(Snapshot()), n))
        && updates == old(updates) + Reports(clip, old(Snapshot()), n)
    {
      ghost var n := FrameCount(output.Length, clip.channels);
      ghost var before, s0, log := output[..], Snapshot(), updates;
      var f := 0;
      FrameStarts(0, output.Length, clip.channels);
      assert output[..] == AddFrames(before, clip.channels, []);
      while f * clip.channels < output.Length && active && volume != 0.0
        invariant Valid() && f <= n && clip == old(clip)
        invariant Audible(Snapshot()) ==> Ready(clip, Snapshot())
        invariant Mixed(clip, s0, f, before, output[..], Snapshot())
        invariant updates == log + Reports(clip, s0, f)
        decreases n - f
      {
        FrameStarts(f, output.Length, clip.channels);
        MixNth(output, f, s0, before, log);
        f := f + 1;
      }
      FrameStarts(f, output.Length, clip.channels);
      MixedDone(clip, s0, f, n, before);
    }

    method MixInto(output: array<real>)
      requires Valid()
      modifies this, output
      ensures Valid() && clip == old(clip)
      ensures var n := FrameCount(output.Length, clip.channels);
        var s := Settle(clip, old(Snapshot()));
        && Snapshot() == Mix(clip, old(Snapshot()), n)
        && output[..] == AddFrames(old(output[..]), clip.channels, Emissions(clip, s, n))
        && updates == old(updates) + SettleReport(clip, old(Snapshot())) + Reports(clip, s, n)
    {
      if active && volume != 0.0 && pos >= |clip.samples| && pauseRemaining == 0 {
        ReportProgress(1.0);
        active := false;
      }
      MixFrames(output);
    }

    method StartPlaying()
      requires Valid()
      modifies this
      ensures Valid() && clip == old(clip) && updates == old(updates)
      ensures Snapshot() == Start(old(Snapshot()))
    {
      CancelRelease();
      active := true;
    }

    method StopPlaying()
      requires Valid()
      modifies this
      ensures Valid() && clip == old(clip) && updates == old(updates)
      ensures Snapshot() == Stop(clip, old(Snapshot()))
    {
      if active && pos < |clip.samples| {
        BeginRelease(false);
      } else {
        pauseRemaining := 0;
        active := false;
      }
    }

    method RestartPlaying()
      requires Valid()
      modifies this
      ensures Valid() && clip == old(clip) && updates == old(updates)
      ensures Snapshot() == Restart(clip, old(Snapshot()))
    {
      if active && pos < |clip.samples| {
        BeginRelease(true);
      } else {
        CancelRelease();
        pauseRemaining := 0;
        pos := 0;
        active := true;
      }
    }

    method SkipFrames(frames: nat)
      requires Valid()
      modifies this
      ensures Valid() && clip == old(clip) && updates == old(updates)
      ensures Snapshot() == Skip(clip, old(Snapshot()), frames)
    {
      pos := Min(pos + frames, if |clip.samples| > 0 then |clip.samples| - 1 else 0);
    }

    method RewindFrames(frames: nat)
      requires Valid()
      modifies this
      ensures Valid() && clip == old(clip) && updates == old(updates)
      ensures Snapshot() == Rewind(old(Snapshot()), frames)
    {
      pos := pos - Min(frames, pos);
    }
  }

  // ---------------------------------------------------------------- runs

  lemma {:induction false} RunAdd(c: Clip, s: State, m: nat, n: nat)
    requires Safe(c, s)
    ensures Run(c, s, m + n) == Run(c, Run(c, s, m), n)
    decreases m
  {
    if m > 0 {
      RunAdd(c, Step(c, s), m - 1, n);
    }
  }

  lemma {:induction false} EmissionAt(c: Clip, s: State, n: nat, k: nat)
    requires Safe(c, s) && k < n
    ensures Emissions(c, s, n)[k] == Emit(c, Run(c, s, k))
    decreases k
  {
    if k > 0 {
      EmissionAt(c, Step(c, s), n - 1, k - 1);
    }
  }

  lemma {:induction false} EmissionsAdd(c: Clip, s: State, m: nat, n: nat)
    requires Safe(c, s)
    ensures Emissions(c, s, m + n) == Emissions(c, s, m) + Emissions(c, Run(c, s, m), n)
    decreases m
  {
    if m > 0 {
      EmissionsAdd(c, Step(c, s), m - 1, n);
    }
  }

  lemma {:induction false} ReportsAdd(c: Clip, s: State, m: nat, n: nat)
    requires Safe(c, s)
    ensures Reports(c, s, m + n) == Reports(c, s, m) + Reports(c, Run(c, s, m), n)
    decreases m
  {
    if m > 0 {
      ReportsAdd(c, Step(c, s), m - 1, n);
    }
  }

  lemma RunSnoc(c: Clip, s: State, n: nat)
    requires Safe(c, s)
    ensures Run(c, s, n + 1) == Step(c, Run(c, s, n))
  {
    RunAdd(c, s, n, 1);
    assert Run(c, Run(c, s, n), 1) == Run(c, Step(c, Run(c, s, n)), 0);
  }

  lemma EmissionsSnoc(c: Clip, s: State, n: nat)
    requires Safe(c, s)
    ensures Emissions(c, s, n + 1) == Emissions(c, s, n) + [Emit(c, Run(c, s, n))]
  {
    EmissionsAdd(c, s, n, 1);
    var t := Run(c, s, n);
    assert Emissions(c, t, 1) == [Emit(c, t)] + Emissions(c, Step(c, t), 0);
  }

  lemma ReportsSnoc(c: Clip, s: State, n: nat)
    requires Safe(c, s)
    ensures Reports(c, s, n + 1) == Reports(c, s, n) + Reported(c, Run(c, s, n))
  {
    ReportsAdd(c, s, n, 1);
    var t := Run(c, s, n);
    assert Reports(c, t, 1) == Reported(c, t) + Reports(c, Step(c, t), 0);
  }

  lemma {:induction false} IdleStays(c: Clip, s: State, n: nat)
    requires Safe(c, s) && !Audible(s)
    ensures Run(c, s, n) == s && Silent(Emissions(c, s, n)) && Reports(c, s, n) == []
    decreases n
  {
    if n > 0 {
      IdleStays(c, s, n - 1);
    }
  }

  lemma IdleTail(c: Clip, s: State, f: nat, n: nat)
    requires Safe(c, s) && f <= n && !Audible(Run(c, s, f))
    ensures Run(c, s, n) == Run(c, s, f)
    ensures Emissions(c, s, n) == Emissions(c, s, f) + Emissions(c, Run(c, s, f), n - f)
    ensures Silent(Emissions(c, Run(c, s, f), n - f))
    ensures Reports(c, s, n) == Reports(c, s, f)
  {
    RunAdd(c, s, f, n - f);
    EmissionsAdd(c, s, f, n - f);
    ReportsAdd(c, s, f, n - f);
    IdleStays(c, Run(c, s, f), n - f);
  }

  /** The state and the buffer after `f` frames. */
  ghost predicate Mixed(c: Clip, s: State, f: nat, buf: seq<real>, now: seq<real>, t: State)
    requires Built(c) && Safe(c, s)
  {
    t == Run(c, s, f) && now == AddFrames(buf, c.channels, Emissions(c, s, f))
  }

  lemma MixedStep(c: Clip, s: State, f: nat, buf: seq<real>, now: seq<real>, next: seq<real>)
    requires Built(c) && Safe(c, s) && |next| == |now|
    requires now == AddFrames(buf, c.channels, Emissions(c, s, f))
    requires forall i :: 0 <= i < |now| && f * c.channels <= i < f * c.channels + c.channels ==>
      next[i] == now[i] + Emit(c, Run(c, s, f))
    requires forall i :: 0 <= i < |now| && !(f * c.channels <= i < f * c.channels + c.channels) ==>
      next[i] == now[i]
    ensures Mixed(c, s, f + 1, buf, next, Step(c, Run(c, s, f)))
    ensures Reports(c, s, f + 1) == Reports(c, s, f) + Reported(c, Run(c, s, f))
  {
    RunSnoc(c, s, f);
    EmissionsSnoc(c, s, f);
    ReportsSnoc(c, s, f);
    AddFramesStep(buf, now, next, c.channels, Emissions(c, s, f), Emit(c, Run(c, s, f)));
  }

  lemma MixedDone(c: Clip, s: State, f: nat, n: nat, buf: seq<real>)
    requires Built(c) && Safe(c, s) && f <= n && (f == n || !Audible(Run(c, s, f)))
    ensures Run(c, s, f) == Run(c, s, n) && Reports(c, s, f) == Reports(c, s, n)
    ensures AddFrames(buf, c.channels, Emissions(c, s, f)) == AddFrames(buf, c.channels, Emissions(c, s, n))
  {
    if f < n {
      IdleTail(c, s, f, n);
      AddFramesPad(buf, c.channels, Emissions(c, s, f), Emissions(c, Run(c, s, f), n - f));
    }
  }
}
