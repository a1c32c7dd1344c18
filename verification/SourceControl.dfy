/**
  What the control calls of a playback stream do to what is heard.

  A call that finds room among the operations of the next callback takes effect in it; what the effect is
  is stated here on the values a source emits and on whether it goes on, for each kind of source.
 */
module SourceControl {
  import opened Frames
  import opened SourceQueue
  import opened Mixer
  import Waveform
  import WaveformProofs
  import ToneShape
  import Wav
  import WavProofs
  import ClipShape
  import Opus

  // ---------------------------------------------------------------- sources and their objects

  /** The value the mixer keeps for a tone stands for the object: mixing does the same to both. */
  method MixTone(source: Waveform.WaveformSource, output: array<real>)
    requires source.Valid()
    modifies source, output
    ensures source.Valid()
    ensures var was: Source := ToneSource(source.cfg, old(source.Snapshot()));
      && ToneSource(source.cfg, source.Snapshot()) == Advanced(was, output.Length)
      && output[..] == MixedBy(was, old(output[..]))
  {
    source.MixInto(output);
  }

  /** The same for a clip. */
  method MixClip(source: Wav.WavSource, output: array<real>)
    requires source.Valid()
    modifies source, output
    ensures source.Valid() && source.clip == old(source.clip)
    ensures var was: Source := ClipSource(source.clip, old(source.Snapshot()));
      && ClipSource(source.clip, source.Snapshot()) == Advanced(was, output.Length)
      && output[..] == MixedBy(was, old(output[..]))
  {
    source.MixInto(output);
  }

  /** The same for a voice. */
  method MixVoice(source: Opus.OpusSource, output: array<real>)
    requires Opus.Built(source.Snapshot())
    modifies source, output
    ensures Opus.Built(source.Snapshot())
    ensures var was: Source := VoiceSource(old(source.Snapshot()));
      && VoiceSource(source.Snapshot()) == Advanced(was, output.Length)
      && output[..] == MixedBy(was, old(output[..]))
  {
    source.MixInto(output);
  }

  // ---------------------------------------------------------------- from a call to the next callback

  /** What the next callback mixes after a change: the same sources, one of them changed. */
  lemma ChangeIsMixed(w: World<Source>, id: Id, change: Change, effect: Source -> Source, drains: bool, n: nat)
    requires |w.ops| < n <= OPS_CAPACITY && forall src: Source :: effect(src) == Changed(src, change)
    ensures var before := AppliedMany(w, n).sources;
      AppliedMany(Called(w, Changing(id, effect, drains), 0), n).sources
        == if id in before then before[id := Changed(before[id], change)] else before
  {
    CallTakesEffect(w, Changing(id, effect, drains), 0, n);
  }

  lemma {:induction false} TotalAgrees(a: map<Id, Source>, b: map<Id, Source>, ids: set<Id>, len: nat, i: nat)
    requires ids <= a.Keys && ids <= b.Keys && i < len && forall id :: id in ids ==> a[id] == b[id]
    ensures Total(a, ids, len, i) == Total(b, ids, len, i)
    decreases ids
  {
    if ids != {} {
      var id :| id in ids;
      TotalAgrees(a, b, ids - {id}, len, i);
      TotalAnyOrder(a, ids, id, len, i);
      TotalAnyOrder(b, ids, id, len, i);
    }
  }

  /** What a sample is the clamped sum of, when one source is put in place of another or added. */
  lemma SourceIsHeard(sources: map<Id, Source>, id: Id, src: Source, len: nat, i: nat)
    requires i < len
    ensures var after := sources[id := src];
      Total(after, after.Keys, len, i) == Contribution(src, len, i) + Total(sources, sources.Keys - {id}, len, i)
  {
    var after := sources[id := src];
    TotalAnyOrder(after, after.Keys, id, len, i);
    assert after.Keys - {id} == sources.Keys - {id};
    TotalAgrees(after, sources, sources.Keys - {id}, len, i);
  }

  /** A source that is removed is missing from the sum, and only that. */
  lemma RemovedIsSilent(sources: map<Id, Source>, id: Id, len: nat, i: nat)
    requires i < len && id in sources
    ensures var after := sources - {id};
      Total(sources, sources.Keys, len, i) == Contribution(sources[id], len, i) + Total(after, after.Keys, len, i)
  {
    var after := sources - {id};
    TotalAnyOrder(sources, sources.Keys, id, len, i);
    assert after.Keys == sources.Keys - {id};
    TotalAgrees(after, sources, after.Keys, len, i);
  }

  lemma WholeFrames(k: nat, channels: nat)
    requires channels > 0
    ensures FrameCount(k * channels, channels) == k
  {
    DivUnique(k * channels + channels - 1, channels, k);
  }

  // ---------------------------------------------------------------- start

  /** A started tone is heard from its beginning: frame `t` of the next buffer is its closed form. */
  lemma StartedTone(cfg: Waveform.Config, s: Waveform.State, len: nat, t: nat)
    requires Waveform.Built(cfg) && Waveform.InRange(cfg, s) && WaveformProofs.NoGap(cfg)
    requires t < FrameCount(len, cfg.channels)
    ensures Emitted(Changed(ToneSource(cfg, s), Starting), len)[t] == WaveformProofs.ClosedForm(cfg, s.volume, t)
  {
    var n := FrameCount(len, cfg.channels);
    Waveform.EmissionAt(cfg, Waveform.Started(s.volume), n, t);
    WaveformProofs.ClosedFormRefinement(cfg, s.volume, t);
  }

  /** A started clip goes on from where it stands, without the release it may have been in. */
  lemma StartedClip(c: Wav.Clip, s: Wav.State, len: nat)
    requires Wav.Built(c) && Wav.Safe(c, s)
    ensures var src := Changed(ClipSource(c, s), Starting);
      && src.ClipSource? && src.clip == c && src.wav.active && !src.wav.releasing
      && src.wav.pos == s.pos && src.wav.pauseRemaining == s.pauseRemaining && src.wav.volume == s.volume
  {
  }

  /** A clip started for the first time: its samples, in the period of its loop. */
  lemma StartedLoop(c: Wav.Clip, volume: real, len: nat, t: nat)
    requires Wav.Built(c) && |c.samples| > 0 && c.loopPause.Some? && volume != 0.0 && t < FrameCount(len, c.channels)
    ensures Emitted(Changed(ClipSource(c, Wav.Fresh(volume)), Starting), len)[t]
         == WavProofs.CycleValue(c, volume, t % (|c.samples| + c.loopPause.value))
  {
    Wav.EmissionAt(c, Wav.Start(Wav.Fresh(volume)), FrameCount(len, c.channels), t);
    WavProofs.LoopedClosedForm(c, volume, t);
  }

  // ---------------------------------------------------------------- stop

  /** A stopped tone outside a pauseless loop is idle after one release time. */
  lemma StoppedTone(cfg: Waveform.Config, s: Waveform.State, len: nat)
    requires Waveform.Built(cfg) && Waveform.InRange(cfg, s) && Waveform.Audible(s) && !s.restarting
    requires WaveformProofs.ReleaseOpen(cfg, s) && !WaveformProofs.PauselessLoop(cfg)
    requires FrameCount(len, cfg.channels) >= Max(1, cfg.release)
    ensures var src := Advanced(Changed(ToneSource(cfg, s), Stopping), len);
      src.ToneSource? && src.cfg == cfg && !src.tone.active
  {
    WaveformProofs.StopBound(cfg, s, FrameCount(len, cfg.channels));
  }

  /** A stopped clip is idle after its release. */
  lemma StoppedClip(c: Wav.Clip, s: Wav.State, len: nat)
    requires Wav.Built(c) && WavProofs.Contained(c, s) && Wav.IsPlaying(c, s) && Wav.Audible(s)
    requires FrameCount(len, c.channels) >= c.releaseFrames
    ensures var src := Advanced(Changed(ClipSource(c, s), Stopping), len);
      src.ClipSource? && src.clip == c && !src.wav.active
  {
    WavProofs.StopBegins(c, s);
    WavProofs.StopSilences(c, s, FrameCount(len, c.channels));
  }

  // ---------------------------------------------------------------- restart

  /** A restarted tone is a started one again after its release and the restart pause. */
  lemma RestartedTone(cfg: Waveform.Config, s: Waveform.State) returns (k: nat)
    requires Waveform.Built(cfg) && Waveform.InRange(cfg, s) && (s.active ==> s.volume != 0.0)
    ensures k <= Max(1, cfg.release) + Waveform.RESTART_SAMPLES
    ensures Advanced(Changed(ToneSource(cfg, s), Restarting), k * cfg.channels)
         == ToneSource(cfg, Waveform.Started(s.volume))
  {
    if s.active {
      k := WaveformProofs.RestartBound(cfg, s);
    } else {
      k := 0;
    }
    WholeFrames(k, cfg.channels);
  }

  /** A restarted clip plays from its first sample after its release, or at once if it was not playing. */
  lemma RestartedClip(c: Wav.Clip, s: Wav.State) returns (k: nat)
    requires Wav.Built(c) && WavProofs.Contained(c, s) && s.volume != 0.0 && |c.samples| > 0
    ensures k <= c.releaseFrames
    ensures var src := Advanced(Changed(ClipSource(c, s), Restarting), k * c.channels);
      src.ClipSource? && src.clip == c && src.wav.active && src.wav.pos == 0 && !src.wav.releasing
  {
    if Wav.IsPlaying(c, s) {
      k := Wav.Restart(c, s).releaseRemaining;
      WavProofs.RestartFades(c, s);
    } else {
      k := 0;
    }
    WholeFrames(k, c.channels);
  }

  // ---------------------------------------------------------------- volume

  function VolumeOf(src: Source): real {
    match src
    case ToneSource(_, s) => s.volume
    case ClipSource(_, s) => s.volume
    case VoiceSource(v) => v.volume
  }

  lemma MutedTone(cfg: Waveform.Config, s: Waveform.State, n: nat, i: nat)
    requires Waveform.InRange(cfg, s) && s.volume == 0.0 && i < n
    ensures Waveform.Emissions(cfg, s, n)[i] == 0.0
  {
    Waveform.IdleStays(cfg, s, n);
  }

  lemma ToneVolume(cfg: Waveform.Config, s: Waveform.State, volume: real, n: nat, i: nat, one: real, two: real)
    requires Waveform.InRange(cfg, s) && i < n && one == Waveform.Emissions(cfg, s, n)[i]
    requires two == Waveform.Emissions(cfg, s.(volume := volume), n)[i]
    ensures two * s.volume == one * volume
  {
    if s.volume == 0.0 {
      MutedTone(cfg, s, n, i);
    } else if volume == 0.0 {
      MutedTone(cfg, s.(volume := volume), n, i);
    } else {
      ToneShape.EmissionsLinear(cfg, s, volume, n, i, one, two);
    }
  }

  lemma MutedClip(c: Wav.Clip, s: Wav.State, n: nat, i: nat)
    requires Wav.Safe(c, s) && s.volume == 0.0 && i < n
    ensures Wav.Emissions(c, s, n)[i] == 0.0
  {
    Wav.IdleStays(c, s, n);
  }

  /** A clip that has to settle emits nothing at any volume. */
  lemma ClipVolume(c: Wav.Clip, s: Wav.State, volume: real, n: nat, i: nat, one: real, two: real)
    requires Wav.Safe(c, s) && Wav.Safe(c, s.(volume := volume)) && i < n
    requires one == Wav.Emissions(c, Wav.Settle(c, s), n)[i]
    requires two == Wav.Emissions(c, Wav.Settle(c, s.(volume := volume)), n)[i]
    ensures two * s.volume == one * volume
  {
    if s.volume == 0.0 {
      MutedClip(c, Wav.Settle(c, s), n, i);
    } else if volume == 0.0 {
      MutedClip(c, Wav.Settle(c, s.(volume := volume)), n, i);
    } else {
      var t := Wav.Settle(c, s);
      assert Wav.Settle(c, s.(volume := volume)) == t.(volume := volume);
      Wav.EmissionAt(c, t, n, i);
      Wav.EmissionAt(c, t.(volume := volume), n, i);
      ClipShape.VolumeAside(c, t, volume, i);
      ClipShape.LinearInVolume(c, Wav.Run(c, t, i), volume);
    }
  }

  lemma Reordered(x: real, amp: real, v: real, u: real, one: real, two: real)
    requires one == x * amp * v && two == x * amp * u
    ensures one * u == two * v
  {
    var xa := x * amp;
  }

  lemma VoiceVolume(voice: Opus.Voice, volume: real, n: nat, i: nat, one: real, two: real)
    requires i < n && i < |voice.ring| && one == Opus.Emissions(voice, n)[i]
    requires two == Opus.Emissions(voice.(volume := volume), n)[i]
    ensures two * voice.volume == one * volume
  {
    Reordered(voice.ring[i], voice.amp, volume, voice.volume, two, one);
  }

  function WithVolume(src: Source, volume: real): Source {
    match src
    case ToneSource(cfg, s) => ToneSource(cfg, s.(volume := volume))
    case ClipSource(c, s) => ClipSource(c, s.(volume := volume))
    case VoiceSource(v) => VoiceSource(v.(volume := volume))
  }

  /** A volume call sets the clamped volume and nothing else. */
  lemma VolumeIsSet(src: Source, v: real)
    ensures Changed(src, Volume(v)) == WithVolume(src, if v < 0.0 then 0.0 else if v > 1.0 then 1.0 else v)
  {
  }

  lemma SameLength(src: Source, volume: real, len: nat, n: nat)
    requires n == FrameCount(len, Channels(src))
    ensures |Emitted(WithVolume(src, volume), len)| == |Emitted(src, len)| <= n
  {
  }

  /** Setting the volume scales every value the source emits accordingly. */
  lemma VolumeScales(src: Source, volume: real, louder: Source, len: nat, i: nat, one: real, two: real)
    requires louder == WithVolume(src, volume) && i < |Emitted(src, len)| == |Emitted(louder, len)|
    requires one == Emitted(src, len)[i] && two == Emitted(louder, len)[i]
    ensures two * VolumeOf(src) == one * volume
  {
    var n := FrameCount(len, Channels(src));
    match src {
      case ToneSource(cfg, s) => ToneVolume(cfg, s, volume, n, i, one, two);
      case ClipSource(c, s) => ClipVolume(c, s, volume, n, i, one, two);
      case VoiceSource(voice) => VoiceVolume(voice, volume, n, i, one, two);
    }
  }

  /** A voice emits the samples of its ring at its gain and volume. */
  lemma VoiceEmits(voice: Opus.Voice, len: nat, i: nat)
    requires Opus.Built(voice) && i < |Emitted(VoiceSource(voice), len)|
    ensures i < |voice.ring| && Emitted(VoiceSource(voice), len)[i] == voice.ring[i] * voice.amp * voice.volume
  {
  }

  // ---------------------------------------------------------------- seeking

  /** Seeking moves a clip by exactly the frames inside it, and leaves tones and voices alone. */
  lemma SeekMovesClips(src: Source, frames: nat)
    ensures var skipped, rewound := Changed(src, Skipping(frames)), Changed(src, Rewinding(frames));
      && (!src.ClipSource? ==> skipped == src == rewound)
      && (src.ClipSource? && |src.clip.samples| > 0 ==>
            && skipped == src.(wav := src.wav.(pos := skipped.wav.pos))
            && rewound == src.(wav := src.wav.(pos := rewound.wav.pos))
            && skipped.wav.pos == (if src.wav.pos + frames < |src.clip.samples| then src.wav.pos + frames
                                   else |src.clip.samples| - 1)
            && rewound.wav.pos == if frames <= src.wav.pos then src.wav.pos - frames else 0)
  {
    if src.ClipSource? && |src.clip.samples| > 0 {
      ClipShape.SeeksExactly(src.clip, src.wav, frames);
    }
  }

  /** A voice has nothing to start, stop or restart. */
  lemma VoicePlaysOn(voice: Opus.Voice, change: Change)
    requires Opus.Built(voice) && (change.Starting? || change.Stopping? || change.Restarting?)
    ensures Changed(VoiceSource(voice), change) == VoiceSource(voice)
  {
  }
}
