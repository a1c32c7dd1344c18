# vacs: a verified model of its audio engine, signaling client and supporting protocols

This project models the logic of vacs, a voice communication system for virtual air traffic control, in
Dafny and proves what its documentation, its tests and its code promise over whole runs.

* **Audio sources.** `Waveform.dfy` and `Wav.dfy` model the tone and clip sources as one-frame steps and
  as classes that mix into an interleaved buffer in place. `WaveformProofs.dfy` and `WavProofs.dfy` prove
  that buffers may be cut at any frame boundary, that undisturbed playback follows a closed form, and how
  stop and restart end. `ToneShape.dfy` and `ClipShape.dfy` say what is heard: waveforms, fades, volume and
  seeking, on emitted values only. `Opus.dfy` models received voice. `Frames.dfy`, `Reals.dfy` and
  `Slices.dfy` hold what several of them share.
* **Mixing and hand-back.** `Mixer.dfy` sums sources in any order. `SourceQueue.dfy` is the protocol of
  the two bounded rings between the control threads and the audio thread, and `Playback.dfy` the stream
  that runs it. `SourceControl.dfy` says what its control calls do to what is heard. `HandbackOverlap.dfy` looks at control calls whose drain and push are separate steps.
* **Capture.** `MicChain.dfy` is the microphone chain over exact arithmetic and `Capture.dfy` the framing
  in front of it.
* **Signaling.** `ReconnectGate.dfy`, `Supervisor.dfy`, `Session.dfy` and `Matcher.dfy` model the gate
  in front of automatic reconnects, the supervisor, the concurrent tasks around login, and the queue of
  response waiters.
* **Supporting protocols.** `Dataset.dfy` is the dataset swap under failures and crashes, `Peer.dfy` the
  lifecycle of a media peer with its watchdog, `CidIndex.dfy` the index of controllers.

Samples, gains and volumes are reals, frame counts are naturals, instants are integers. Where the source
updates fields or a buffer in place, a class does the same and each of its methods is proved to be one
step of a function on values; the theorems are about those functions.

## What turned out not to hold, and exactly when it does

* A stopped tone that loops without a pause may never fall silent: the wrap resets the envelope before the
  envelope is checked. `WaveformProofs.StopsIff` gives the exact condition and `WaveformProofs.UnstoppableTone`
  a tone of ten samples with a fade of ten samples.
* Position and segment of a tone sequence stay together exactly when no segment that rounds down to zero
  samples stands before a longer one (`WaveformProofs.AlignmentIffNoGap`).
* A stop does not cancel a pending restart of a tone (`WaveformProofs.StopDuringRestart`).
* Seeking can carry the release of a stopped looping clip into another cycle: a skip during the release
  (`WavProofs.SkipEscapesRelease`), or a skip in a pause before the stop (`WavProofs.StopAfterSkipInPause`).
  A release stays in its cycle exactly when no pause is pending and the rest of the clip is long enough, or
  the clip does not loop (`WavProofs.StaysInCycleIff`). `WavProofs.FadeTakes` gives the exact length of every
  release; a pending restart is lost only when a clip that does not loop ends under it.
* The audio thread never frees a source when a control call is undivided. If a callback runs between the
  drain and the push of one call, a run reaches a state in which it has (`HandbackOverlap.OverlapFreesInline`).
  Nothing pending is freed inline exactly when the removed sources that wait and the pending removals that
  find their source fit the ring together (`HandbackOverlap.NothingFreedIff`), and otherwise exactly the
  surplus is (`HandbackOverlap.FreedExactly`). The load exceeds the ring by at most the number of overlapping
  calls (`HandbackOverlap.OverlapBound`).
* The soft limiter makes levels between its threshold and its ceiling louder; `MicChain.LouderIff` gives the
  exact range.
* The reconnect gate bounds every window, but the supervisor clears it with the first refusal, so the next
  attempt is always granted (`ReconnectGate.RefusalForgotten`), and for every configuration 2 max + 1 attempts
  at one instant give 2 max grants (`ReconnectGate.SupervisedExceeds`). The grants since the last refusal keep
  the bound (`ReconnectGate.BoundSinceRefusal`); a whole supervised run keeps it exactly when each attempt
  finds room in the window of all grants or is refused for the grants since the last refusal
  (`ReconnectGate.SupervisedBoundIff`).
* The first check after a suppression is granted in every run exactly when the cooldown is longer than the
  window (`ReconnectGate.ExpiryFreesIff`).
* A disconnect during a login does not always prevent its success. It does exactly when the reply has not been
  handed out, or the token the login watches is cancelled or current (`Session.DisconnectPreventsIff`);
  `Session.LoginEscapesDisconnect` is a run that ends logged in without a channel.
* A waiter that timed out stays queued and still takes a message away from a live one
  (`Matcher.AbandonedWaiterServed`); exactly when it is the first queued one to accept it (`Matcher.WastedIff`,
  `Matcher.StarvedByAbandonedIff`). Each takes at most one (`Matcher.StarvationBound`).
* An installation that begins without a target directory deletes the backup first, even when that is the only
  copy; a dataset stays available in every course exactly when the target is there at the beginning
  (`Dataset.AvailableIff`, `Dataset.FailedRollbackLosesData`).
* The index of controllers is documented as independent of feed order. It is so exactly when no CID has two
  different best entries (`CidIndex.OrderFreeIff`); two frequencies under one callsign are a counterexample
  (`CidIndex.OrderMatters`).

## Model

| member | source | states |
|---|---|---|
| Frames.AddFramesSplit | vacs-audio/src/sources.rs:14-25 | mixing a buffer equals mixing its two parts, for any values and any cut at a frame boundary |
| Waveform.WaveformSource.constructor | vacs-audio/src/sources/waveform.rs:148-204 | rate, sine and at least one channel; segments keep order and tone with durations counted in samples, both fades are equal, only a looped source has a pause, the source is idle |
| Waveform.WaveformSource.PlayTone | vacs-audio/src/sources/waveform.rs:297-321 | the value of the current segment under segment and release envelope, and the move inside or to the next segment |
| Waveform.WaveformSource.AdvanceCycle | vacs-audio/src/sources/waveform.rs:334-383 | the wrap, restart or stop at the end of a cycle comes before the end of a completed release |
| Waveform.WaveformSource.MixFrame | vacs-audio/src/sources/waveform.rs:293-384 | one frame adds one value to all its samples, touches no other sample and is one step |
| Waveform.WaveformSource.MixInto | vacs-audio/src/sources/waveform.rs:287-385 | for every buffer, frames short or long, the samples gain exactly the emitted values, whatever the buffer held, and the state runs that many steps |
| Waveform.WaveformSource.StartPlaying | vacs-audio/src/sources/waveform.rs:388-396 | the whole new state |
| Waveform.WaveformSource.StopPlaying | vacs-audio/src/sources/waveform.rs:399-407 | a running release is not restarted, an idle source is untouched |
| Waveform.WaveformSource.RestartPlaying | vacs-audio/src/sources/waveform.rs:410-417 | an active source fades with a restart pending, an idle one starts |
| WaveformProofs.SplitIndependence | vacs-audio/src/sources/waveform.rs:287-385 | cutting a buffer at any frame boundary changes neither samples nor final state |
| WaveformProofs.StepAligned | vacs-audio/src/sources/waveform.rs:310-378 | a frame keeps position, segment and offset together in a sequence without gaps, restart jump included |
| WaveformProofs.AlignmentIffNoGap | vacs-audio/src/sources/waveform.rs:160-178 | in every run of calls and buffers the current segment is the one the position lies in, if and only if no empty segment precedes a sounding one |
| WaveformProofs.ClosedFormRefinement | vacs-audio/src/sources/waveform.rs:225-385 | a started source emits at frame t the segment value at t mod period when looped, and each value once otherwise |
| WaveformProofs.FadeShape | vacs-audio/src/sources/waveform.rs:252-262 | while tones last, a stopped source plays the values of its cycle under a linear fade |
| WaveformProofs.CycleValueScales | vacs-audio/src/sources/waveform.rs:300-309 | the value of a cycle under a gain is the undisturbed value times the gain |
| ToneShape.FadeScales | vacs-audio/src/sources/waveform.rs:252-303 | frame k after a stop or restart emits (1 - k / release) times what the same source would have emitted left alone |
| ToneShape.ToneEmits | vacs-audio/src/sources/waveform.rs:225-309 | a sounding tone emits its drawn waveform at amplitude and volume, in proportion to the samples played or left inside the fades of a segment |
| ToneShape.WaveDrawn | vacs-audio/src/sources/waveform.rs:233-249 | each form over its phase: square, rising saw, symmetric triangle from -1 to 1, the given sine |
| ToneShape.DrawnShapes | vacs-audio/src/sources/waveform.rs:241-248 | triangles are symmetric and peak in the middle, the halves of a square are opposite, saws rise from -1 |
| ToneShape.SilentStart | vacs-audio/src/sources/waveform.rs:264-283 | a segment with a fade in begins in silence, and one without a tone is silent |
| ToneShape.LinearInVolume | vacs-audio/src/sources/waveform.rs:300-330 | emission is proportional to the volume |
| ToneShape.WholeSamples | vacs-audio/src/sources/waveform.rs:160-178 | durations count whole samples |
| WaveformProofs.PlayReleaseOpen | vacs-audio/src/sources/waveform.rs:368-383 | in every run a release that still goes on has not used up its time |
| WaveformProofs.StopBound | vacs-audio/src/sources/waveform.rs:322-383 | outside pauseless loops a stop makes the source inactive within max(1, release) frames |
| WaveformProofs.NeverStops | vacs-audio/src/sources/waveform.rs:345-383 | a release at least as long as a pauseless cycle is thrown away at every wrap, for ever |
| WaveformProofs.StopsIff | vacs-audio/src/sources/waveform.rs:345-383 | a fading source eventually stops if and only if its release does not outlast a pauseless cycle |
| WaveformProofs.UnstoppableTone | vacs-audio/src/sources/waveform.rs:355-360 | a concrete tone that stays active after a stop for every number of frames |
| WaveformProofs.RestartBound | vacs-audio/src/sources/waveform.rs:345-417 | a restart of any active source reaches exactly the started state within max(1, release) + 4800 frames and never goes inactive before |
| WaveformProofs.RestartTakes | vacs-audio/src/sources/waveform.rs:334-383 | the exact number of frames of a pending restart: the rest of release or tones, then the pause, waiting throughout |
| WaveformProofs.PlayRestartSafe | vacs-audio/src/sources/waveform.rs:368-417 | in every run a restart that waits while tones play waits for a release to end |
| WaveformProofs.StopDuringRestart | vacs-audio/src/sources/waveform.rs:399-407 | in every run a stop while a restart is pending still ends in the started state, within the same bound |
| WaveformProofs.NeverLouderThanVolume | vacs-audio/src/sources/waveform.rs:225-283 | with a sine within one and amplitudes up to one, no state that keeps the invariant of every run is louder than its volume |
| Wav.Step | vacs-audio/src/sources/wav.rs:225-282 | sample index, pause and release counters never leave their range, and an active source never ends a frame exhausted |
| Wav.Apply | vacs-audio/src/sources/wav.rs:285-322 | every control call and every buffer keeps these ranges |
| Wav.WavSource.FromClip | vacs-audio/src/sources/wav.rs:136-173 | fails exactly when the rates differ and resampling fails; otherwise the idle source with the clip or its resampled form, release length and report interval |
| Wav.WavSource.Looped | vacs-audio/src/sources/wav.rs:176-181 | pause and edge length; the two edge fades do not overlap |
| Wav.WavSource.BeginRelease | vacs-audio/src/sources/wav.rs:187-197 | a new release fits the rest of the clip, a running one only changes its aim |
| Wav.WavSource.PlaySample | vacs-audio/src/sources/wav.rs:234-245 | the sample under volume, edge fade and release, and both counters moved on |
| Wav.WavSource.FinishSample | vacs-audio/src/sources/wav.rs:250-281 | end of release before end of clip before progress report |
| Wav.WavSource.MixInto | vacs-audio/src/sources/wav.rs:212-283 | samples, state and ordered progress reports of a whole buffer, the check for a finished clip included |
| Wav.WavSource.StopPlaying | vacs-audio/src/sources/wav.rs:290-297 | a release while playing, an immediate end otherwise |
| Wav.WavSource.RestartPlaying | vacs-audio/src/sources/wav.rs:299-308 | a release that ends in a restart while playing, an immediate one otherwise |
| Wav.WavSource.SkipFrames | vacs-audio/src/sources/wav.rs:314-317 | seeking forward stops at the last sample |
| Wav.WavSource.RewindFrames | vacs-audio/src/sources/wav.rs:319-322 | seeking back stops at the first sample |
| WavProofs.SplitIndependence | vacs-audio/src/sources/wav.rs:212-283 | one call on a ++ b equals a call on a and one on b: samples, state and ordered reports, also for empty parts and finished clips |
| WavProofs.LoopedClosedForm | vacs-audio/src/sources/wav.rs:176-283 | a looping clip of n samples and p pause frames has period n + p: edge-faded sample or silence, and the reports that go with it |
| WavProofs.OneShotClosedForm | vacs-audio/src/sources/wav.rs:225-274 | a clip that does not loop plays each sample once and ends |
| ClipShape.PlainSample | vacs-audio/src/sources/wav.rs:234-249 | outside both edges an undisturbed clip emits its sample times the volume |
| ClipShape.EdgeSample | vacs-audio/src/sources/wav.rs:235-240 | inside an edge it is scaled by the distance to the nearer end over the edge length |
| ClipShape.SilentOtherwise | vacs-audio/src/sources/wav.rs:219-233 | pauses and idle, muted or finished clips are silent |
| ClipShape.StopScales | vacs-audio/src/sources/wav.rs:187-244 | frame j after a stop emits what the same clip would have emitted left alone, times the part of the release that is left |
| ClipShape.ReleaseScales | vacs-audio/src/sources/wav.rs:241-244 | the same for any release, restarts included |
| ClipShape.LinearInVolume | vacs-audio/src/sources/wav.rs:234-234 | emission is proportional to the volume |
| ClipShape.SeeksExactly | vacs-audio/src/sources/wav.rs:314-322 | skip and rewind move by exactly the frames asked for inside the clip and stop at its ends |
| ClipShape.SeekRoundTrip | vacs-audio/src/sources/wav.rs:314-322 | seeking there and back changes nothing as long as no end is met |
| ClipShape.SkipIsPlaying | vacs-audio/src/sources/wav.rs:314-317 | a skip leads where playing the skipped frames would have led |
| ClipShape.ReportsExactly | vacs-audio/src/sources/wav.rs:261-281 | which frames report progress, and the part played that they report |
| WavProofs.EdgeFade | vacs-audio/src/sources/wav.rs:235-240 | the edge gain is symmetric, positive, does not fall towards the middle and is one exactly outside both edges |
| WavProofs.ProgressRises | vacs-audio/src/sources/wav.rs:261-281 | the progress reports of a clip that plays once rise strictly, never pass the part played, and end with one |
| WavProofs.PlayContained | vacs-audio/src/sources/wav.rs:187-322 | in every run without seeking a release fits the rest of the clip and a pause stands behind the last sample |
| WavProofs.StopBegins | vacs-audio/src/sources/wav.rs:187-197 | a stop needs at most the release length, ends inside this cycle and starts from the current level |
| WavProofs.StopFades | vacs-audio/src/sources/wav.rs:241-250 | every frame of the fade plays the next sample under a strictly smaller gain |
| WavProofs.StopSilences | vacs-audio/src/sources/wav.rs:250-259 | from the end of the release on the source is inactive and silent |
| WavProofs.StopsAtOnce | vacs-audio/src/sources/wav.rs:290-297 | a clip that is not playing, or in a pause, stops at once |
| WavProofs.FinishedGoesIdle | vacs-audio/src/sources/wav.rs:212-224 | a finished clip goes idle with the next buffer and reports its end |
| WavProofs.RestartFades | vacs-audio/src/sources/wav.rs:250-256 | a restart reaches the first sample in the same time without going inactive |
| WavProofs.LatestDecides | vacs-audio/src/sources/wav.rs:187-197 | whatever stops, restarts and buffers fall into a release, it ends on time and as the latest call asked |
| WavProofs.PlayReleasable | vacs-audio/src/sources/wav.rs:187-322 | in every run, seeks included, a running release can go on and is no longer than the clip and the release length |
| WavProofs.FadeTakes | vacs-audio/src/sources/wav.rs:212-274 | the exact number of frames of every release, a pending or crossed pause included, and whether it ends idle or at the beginning |
| WavProofs.StaysInCycleIff | vacs-audio/src/sources/wav.rs:212-274 | no sample of a later cycle is played before a release is over if and only if no pause is pending and the rest of the clip is long enough or the clip does not loop |
| WavProofs.SkipEscapesRelease | vacs-audio/src/sources/wav.rs:314-317 | in every looping clip a skip to the end during a release leads a stopped source into its next cycle |
| WavProofs.StopAfterSkipInPause | vacs-audio/src/sources/wav.rs:290-317 | in every clip that loops with a pause, a stop after a skip in the pause fades only in the next cycle |
| Opus.OpusSource.MixInto | vacs-audio/src/sources/opus.rs:162-184 | exactly min(frames, available) samples leave the ring, each scaled and added to its frame |
| Opus.Decoder.Decode | vacs-audio/src/sources/opus.rs:66-138 | with a resampler the carry-over stays below one chunk and chunks and carry-over equal the decoded stream; without one the frame itself is written; a full ring drops only the tail |
| Opus.Decoder.Take | vacs-audio/src/sources/opus.rs:162-184 | what comes out of the ring is what went in, in order |
| Opus.ReblockingPreservesStream | vacs-audio/src/sources/opus.rs:73-84 | chunks of the exact size, followed by the carry-over, are the decoded stream |
| Opus.CarryBoundedIff | vacs-audio/src/sources/opus.rs:73-84 | one chunk per frame keeps the carry-over below a chunk for every stream if and only if frames are no longer than chunks |
| Mixer.TotalAnyOrder | vacs-audio/src/mixer.rs:39-42 | any source may be taken first when contributions are summed |
| Mixer.OrderIrrelevant | vacs-audio/src/mixer.rs:39-42 | two orders of iteration over the same sources give the same sample |
| Mixer.SourceMixer.DeferDrop | vacs-audio/src/mixer.rs:28-32 | a source goes to the ring, or is freed inline when the ring is full |
| Mixer.SourceMixer.AddSource | vacs-audio/src/mixer.rs:50-54 | insertion, with a replaced source handed back |
| Mixer.SourceMixer.RemoveSource | vacs-audio/src/mixer.rs:56-60 | removal, with the source handed back |
| Mixer.SourceMixer.Mix | vacs-audio/src/mixer.rs:34-48 | every sample is the clamped sum of all contributions, whatever the order of the map and the old contents of the buffer, and all sources advance |
| SourceQueue.CalledKeeps | vacs-audio/src/stream/playback.rs:94-227 | every control call keeps bound, order and conservation, those that do not drain included |
| SourceQueue.CalledBackKeeps | vacs-audio/src/stream/playback.rs:50-60 | a callback applies exactly the oldest min(32, pending) operations in order, frees nothing and keeps the invariant |
| SourceQueue.CallTakesEffect | vacs-audio/src/stream/playback.rs:50-227 | a call that finds room in the next callback takes effect in it: the source is added, removed or changed |
| SourceQueue.EveryRun | vacs-audio/src/stream/playback.rs:42-227 | in every run pending removals and waiting sources fit the ring, nothing is freed inline, accepted operations are applied in order and every source is in exactly one place |
| HandbackOverlap.OverlapBound | vacs-audio/src/stream/playback.rs:94-140 | with k overlapping calls, additions pushed in any order of their identifiers, the load exceeds the ring by at most k, and no source is lost |
| HandbackOverlap.FreedExactly | vacs-audio/src/mixer.rs:28-60 | callbacks that empty the queue free inline exactly the hand-backs that exceed the ring |
| HandbackOverlap.NothingFreedIff | vacs-audio/src/mixer.rs:28-60 | they free nothing if and only if waiting sources and removals that find their source fit the ring |
| HandbackOverlap.RemovalFreesIff | vacs-audio/src/stream/playback.rs:129-140 | the push of a removal costs one more source exactly when it is accepted, finds its source and the hand-backs before it fill the ring |
| HandbackOverlap.OverlapFreesInline | vacs-audio/src/stream/playback.rs:129-140 | a run with at most one open call in which the audio thread frees a source |
| Playback.PlaybackStream.DrainRemovedSources | vacs-audio/src/stream/playback.rs:95-98 | all handed-back sources are freed on the control side |
| Playback.PlaybackStream.AddAudioSource | vacs-audio/src/stream/playback.rs:109-126 | one protocol step; identifiers are never reused |
| Playback.PlaybackStream.RemoveAudioSource | vacs-audio/src/stream/playback.rs:129-140 | one protocol step |
| Playback.PlaybackStream.Play | vacs-audio/src/stream/playback.rs:143-185 | start, stop and restart drain first and queue their change |
| Playback.PlaybackStream.Adjust | vacs-audio/src/stream/playback.rs:188-227 | volume, skip and rewind queue their change and do not drain |
| Playback.PlaybackStream.DataCallback | vacs-audio/src/stream/playback.rs:51-60 | one protocol step, and the clamped sum of the sources left after the operations |
| SourceControl.ChangeIsMixed | vacs-audio/src/stream/playback.rs:143-227 | the next callback mixes the same sources with one of them changed |
| SourceControl.SourceIsHeard | vacs-audio/src/mixer.rs:34-54 | a source put into the mixer adds its contribution to every sum |
| SourceControl.RemovedIsSilent | vacs-audio/src/mixer.rs:56-60 | a removed source is missing from every sum, and nothing else is |
| SourceControl.StartedTone | vacs-audio/src/stream/playback.rs:143-155 | after a start frame t of a tone is its closed form |
| SourceControl.StartedClip | vacs-audio/src/stream/playback.rs:143-155 | after a start a clip is active at its position, without a release |
| SourceControl.StartedLoop | vacs-audio/src/stream/playback.rs:143-155 | after its first start a looping clip emits its cycle |
| SourceControl.StoppedTone | vacs-audio/src/stream/playback.rs:158-170 | after a stop a tone outside a pauseless loop is idle within max(1, release) frames |
| SourceControl.StoppedClip | vacs-audio/src/stream/playback.rs:158-170 | after a stop a playing clip is idle within its release |
| SourceControl.RestartedTone | vacs-audio/src/stream/playback.rs:173-185 | after a restart a tone reaches the started state in bounded time |
| SourceControl.RestartedClip | vacs-audio/src/stream/playback.rs:173-185 | after a restart a clip plays from its first sample within its release |
| SourceControl.VolumeIsSet | vacs-audio/src/stream/playback.rs:188-199 | a volume call sets the clamped volume and nothing else |
| SourceControl.VolumeScales | vacs-audio/src/stream/playback.rs:188-199 | every value of every kind of source scales with the volume |
| SourceControl.SeekMovesClips | vacs-audio/src/stream/playback.rs:202-227 | seeking moves clips by exactly the frames inside them and leaves tones and voices alone |
| SourceControl.VoiceEmits | vacs-audio/src/sources/opus.rs:162-184 | a voice emits the samples of its ring at its gain and volume |
| SourceControl.MixTone | vacs-audio/src/sources/waveform.rs:287-385 | the value kept for a tone and its object are mixed alike |
| SourceControl.MixClip | vacs-audio/src/sources/wav.rs:212-283 | the value kept for a clip and its object are mixed alike |
| SourceControl.MixVoice | vacs-audio/src/sources/opus.rs:162-184 | the value kept for a voice and its object are mixed alike |
| MicChain.DcBounded | vacs-audio/src/dsp.rs:82-91 | for every endless input within B the output stays within 2B |
| MicChain.DcDecay | vacs-audio/src/dsp.rs:82-91 | a constant input decays exactly as the powers of the pole |
| MicChain.GateClosedForm | vacs-audio/src/dsp.rs:144-151 | within a frame the gain stays in [0, 1], moves monotonically and closes the distance to its target geometrically |
| MicChain.Hysteresis | vacs-audio/src/dsp.rs:136-142 | a frame keeps every gate's target if and only if its level lies strictly between the thresholds; from either threshold on the gate takes that side |
| MicChain.GateDirection | vacs-audio/src/dsp.rs:130-142 | a frame whose samples all reach the opening threshold opens the gate, one that stays within the closing threshold closes it |
| MicChain.FrameMovesGain | vacs-audio/src/dsp.rs:130-152 | a loud frame shrinks the distance of the gain to one by the attack once per sample, a quiet one the gain by the release |
| MicChain.GatedInProportion | vacs-audio/src/dsp.rs:150-150 | a sample is scaled by the gain |
| MicChain.LimiterShape | vacs-audio/src/dsp.rs:169-182 | odd, non-decreasing, never beyond 0.9999 |
| MicChain.LouderIff | vacs-audio/src/dsp.rs:173-179 | the exact levels that the limiter raises |
| MicChain.LimiterExact | vacs-audio/src/dsp.rs:169-182 | samples up to the threshold pass unchanged, and the exact knee above it |
| MicChain.FilteredExactly | vacs-audio/src/dsp.rs:214-223 | the filter hears exactly the DC-blocked input, each sample once and in order |
| MicChain.MicProcessor.GateFrame | vacs-audio/src/dsp.rs:130-152 | each sample is scaled by the gain after that sample, with the target set from the whole frame |
| MicChain.MicProcessor.ProcessFrame | vacs-audio/src/dsp.rs:214-223 | the four stages composed in order, every sample within 0.9999 for any input, and the gain moved as the level of the frame asks |
| Capture.BlockCounts | vacs-audio/src/stream/capture.rs:390-421 | k samples give k div 960 frames and leave k mod 960 |
| Capture.BlockContents | vacs-audio/src/stream/capture.rs:390-421 | frame i is the stream from 960 i on |
| Capture.SlicingIrrelevant | vacs-audio/src/stream/capture.rs:390-421 | frames and rest do not depend on how the input is sliced |
| Capture.ScaleExact | vacs-audio/src/stream/capture.rs:390-421 | each pushed sample is scaled by the gain |
| Capture.OpusFramer.PushSlice | vacs-audio/src/stream/capture.rs:390-421 | the frames handed over are exactly the 960-sample blocks of everything pushed, and what reaches the encoder is within the ceiling |
| Capture.OpusFramer.Drain | vacs-audio/src/stream/capture.rs:207-224 | every sample of the ring goes through once and in order |
| ReconnectGate.Reconnects.Prune | vacs-signaling/src/client.rs:847-855 | the loop drops the expired front of the deque |
| ReconnectGate.Reconnects.CanReconnect | vacs-signaling/src/client.rs:857-873 | verdict and new gate of a check |
| ReconnectGate.Reconnects.OnReconnect | vacs-signaling/src/client.rs:875-878 | new gate of a record |
| ReconnectGate.GrantedIff | vacs-signaling/src/client.rs:857-873 | a check is granted if and only if no suppression runs and the grants of the window behind it leave room |
| ReconnectGate.WindowBound | vacs-signaling/src/client.rs:834-878 | in every run without a clear the deque is the history cut to the window and no closed interval of one window holds more than the allowed grants |
| ReconnectGate.NoneBeforeExpiry | vacs-signaling/src/client.rs:858-863 | nothing is granted before a suppression ends, and refused checks do not prolong it |
| ReconnectGate.GrantedAfterExpiry | vacs-signaling/src/client.rs:857-873 | with a cooldown longer than the window the first check from the expiry on is granted |
| ReconnectGate.RefusedAfterExpiry | vacs-signaling/src/client.rs:857-873 | with any shorter cooldown a burst leads to a check that is refused again at expiry |
| ReconnectGate.ExpiryFreesIff | vacs-signaling/src/client.rs:857-878 | in every run the first check from the expiry on is granted, if and only if the cooldown is longer than the window |
| ReconnectGate.RefusalForgotten | vacs-signaling/src/client.rs:543-555 | after a refusal the supervisor's next attempt is granted |
| ReconnectGate.SupervisedExceeds | vacs-signaling/src/client.rs:543-555 | for every configuration 2 max + 1 supervised attempts at one instant give 2 max grants |
| ReconnectGate.BoundSinceRefusal | vacs-signaling/src/client.rs:543-555 | in every supervised run the gate knows exactly the grants since the last refusal, and these keep the window bound |
| ReconnectGate.SupervisedBoundIff | vacs-signaling/src/client.rs:543-555 | a supervised run keeps the window bound if and only if each attempt finds room among all grants or the grants since the last refusal fill its window |
| Supervisor.ConnectConvertibleIff | vacs-signaling/src/client.rs:368-490 | a connect error has a failure reason if and only if the transport's or token provider's own error has one |
| Supervisor.ErrorClasses | vacs-signaling/src/error.rs:43-74 | errors that need a session termination are reconnectable, reconnectable ones are fatal, and which errors separate the three classes |
| Supervisor.FailuresNamed | vacs-signaling/src/error.rs:96-116 | the reason a client is told for each way a connect can fail, in the order its steps can |
| Supervisor.NeverUnreachable | vacs-signaling/src/error.rs:96-116 | with such transports and providers no reconnect reaches the unreachable arm |
| Supervisor.Reconnect | vacs-signaling/src/client.rs:594-636 | at most the allowed connects, a session termination before each where needed, the last error converted, early end on success or shutdown |
| Supervisor.HandledBounded | vacs-signaling/src/client.rs:535-569 | one event makes at most the allowed connects and at most one event, which is never reconnectable |
| Supervisor.ReconnectsUntil | vacs-signaling/src/client.rs:594-636 | connects go on to the first that succeeds, is the last or meets a shutdown, and its outcome is the outcome |
| Supervisor.HandledExactly | vacs-signaling/src/client.rs:535-569 | refused until u if and only if that is the only event; otherwise success and failure are reported exactly when the connects end so, with the reason of the last |
| Supervisor.HandleEvent | vacs-signaling/src/client.rs:535-569 | the handling as written, with a termination before each connect where needed |
| Supervisor.QueueGetsLighter | vacs-signaling/src/client.rs:523-582 | handling an event lowers the weight of the queue |
| Supervisor.Supervise | vacs-signaling/src/client.rs:518-585 | without outside events the queue drains, and connects lie between the granted events and maxTries times as many |
| Session.NextKeeps | vacs-signaling/src/client.rs:266-515 | every await-to-await step of connect, disconnect, send and cleanup keeps the login gate |
| Session.LoginFirst | vacs-signaling/src/client.rs:282-315 | in every run a message other than Login is in a connection's queue only after that connection's login succeeded |
| Session.CleanAfterFailure | vacs-signaling/src/client.rs:484-515 | in every run a failed login ends disconnected, without channel, workers or waiters |
| Session.EveryMessage | vacs-signaling/src/client.rs:282-315 | in every run each message taken in is enqueued, on its way or dropped on a closed channel, exactly once, and there are no others |
| Session.LoginWorks | vacs-signaling/src/client.rs:368-482 | a connect whose steps all succeed ends logged in on the new connection with exactly its login enqueued |
| Session.SendWorks | vacs-signaling/src/client.rs:282-315 | a send of a client that is logged in is enqueued behind everything before it |
| Session.LogoutWorks | vacs-signaling/src/client.rs:264-279 | a disconnect sends the logout last and leaves nothing behind |
| Session.DisconnectPreventsIff | vacs-signaling/src/client.rs:264-515 | in every run a disconnect during a login keeps it from ever succeeding, if and only if the reply is not handed out yet or the token it watches is cancelled or the current one |
| Session.LoginEscapesDisconnect | vacs-signaling/src/client.rs:333-349 | a run in which a login succeeds after a disconnect and leaves the client logged in without channel and workers |
| Matcher.FirstMatch | vacs-signaling/src/matcher.rs:92-93 | the first accepting position |
| Matcher.ResponseMatcher.WaitFor | vacs-signaling/src/matcher.rs:46-53 | registration at the end of the queue |
| Matcher.ResponseMatcher.TryMatch | vacs-signaling/src/matcher.rs:88-97 | the search loop serves and removes that entry only |
| Matcher.ResponseMatcher.Clear | vacs-signaling/src/matcher.rs:102-104 | all queued waiters are cleared |
| Matcher.EveryRun | vacs-signaling/src/matcher.rs:38-104 | in every run each waiter is exactly one of queued, served once and cleared, and the queue is in order of registration |
| Matcher.EarliestServed | vacs-signaling/src/matcher.rs:85-97 | a message goes to the earliest registered queued waiter that accepts it and to nobody else, and the others keep their order |
| Matcher.WastedIff | vacs-signaling/src/matcher.rs:55-97 | a message is served to a waiter that timed out if and only if the first queued waiter that accepts it has |
| Matcher.StarvedIff | vacs-signaling/src/matcher.rs:85-97 | a waiter goes without a message it accepts if and only if an earlier queued one accepts it |
| Matcher.StarvedByAbandonedIff | vacs-signaling/src/matcher.rs:55-97 | a live waiter that accepts a message loses it to one that timed out if and only if the first one that accepts it stands ahead and has timed out |
| Matcher.StarvationBound | vacs-signaling/src/matcher.rs:38-97 | while the connection lasts, a waiter with k others ahead is served by the time more than k messages it accepts have come |
| Matcher.AbandonedWaiterServed | vacs-signaling/src/matcher.rs:55-61 | a run in which a waiter that timed out takes a message from a live one |
| Dataset.Disk.AtomicReplaceDir | vacs-server/src/dataset.rs:318-369 | every intermediate state, the final state and the verdict of a swap for every course of failures |
| Dataset.SwapIsSafe | vacs-server/src/dataset.rs:318-369 | with a target in place, at every point the old or new dataset is complete in target or backup; failure keeps the old one unless both renames failed |
| Dataset.SwapSucceedsIff | vacs-server/src/dataset.rs:318-369 | a swap succeeds exactly when the backup could be cleared and the renames worked, and then the new directory is in place |
| Dataset.InstallIsSafe | vacs-server/src/dataset.rs:227-263 | the same over swap and marker |
| Dataset.InstallSucceedsIff | vacs-server/src/dataset.rs:227-263 | an installation succeeds exactly when the swap does and the whole marker is written |
| Dataset.AvailableIff | vacs-server/src/dataset.rs:318-369 | availability survives every course and crash if and only if the target is there at the beginning |
| Dataset.FailedRollbackLosesData | vacs-server/src/dataset.rs:321-346 | a failed rollback and the next call lose the only copy |
| Dataset.TruthfulIff | vacs-server/src/dataset.rs:227-263 | markers stay truthful in every course if and only if the label written cannot be taken for another commit |
| Dataset.UpToDateIsSound | vacs-server/src/dataset.rs:82-95 | over whole runs of installations and crashes a marker equal to the deployed commit means that this commit is installed and complete |
| Dataset.SyncConverges | vacs-server/src/dataset.rs:273-310 | a sync that reports success or an up-to-date copy leaves the deployed dataset on disk, and the next one finds it |
| Dataset.SyncReports | vacs-server/src/dataset.rs:273-310 | exactly when a sync reports unresolved, up to date, installed or failed |
| Peer.Watchdog.OnTick | vacs-webrtc/src/peer.rs:483-509 | one tick and the event it emits |
| Peer.AtMostOnce | vacs-webrtc/src/peer.rs:497-509 | at most one event per start |
| Peer.FiresOnlyWhenDead | vacs-webrtc/src/peer.rs:487-509 | an event only if all ticks of the last 5 s saw the same counters or no RTP had come 15 s after the start |
| Peer.FiresInTime | vacs-webrtc/src/peer.rs:471-509 | if traffic freezes at x and ticks are at most g apart, the watchdog has fired by x + 5 s + 2g |
| Peer.FiresWithoutRtp | vacs-webrtc/src/peer.rs:497-509 | without any RTP the watchdog has fired by start + 15 s + g, whatever the RTCP traffic |
| Peer.FiresAtOnce | vacs-webrtc/src/peer.rs:487-509 | exactly when a tick fires |
| Peer.EveryRun | vacs-webrtc/src/peer.rs:237-312 | in every run a watchdog exists if and only if a sender does, and starts bound the events |
| Peer.StoppedForGood | vacs-webrtc/src/peer.rs:248-251 | a stopped peer never starts again |
| Peer.PauseAndStart | vacs-webrtc/src/peer.rs:237-293 | a paused peer starts again with a new watchdog |
| Peer.StopEnds | vacs-webrtc/src/peer.rs:296-312 | a stop ends sender and watchdog, and the peer unless the sender fails to stop |
| Peer.MediaPeer.StartPeer | vacs-webrtc/src/peer.rs:237-271 | start and its two refusals |
| Peer.MediaPeer.PausePeer | vacs-webrtc/src/peer.rs:280-293 | watchdog and sender are taken, the receiver stays |
| Peer.MediaPeer.StopPeer | vacs-webrtc/src/peer.rs:296-312 | as pause, and the receiver goes too unless the sender fails to stop |
| CidIndex.IndexByCid | vacs-vatsim/src/lib.rs:62-112 | keys are exactly the CIDs with an entry that is not a supervisor's, each mapped to one of its entries of maximal rank |
| CidIndex.RankOrder | vacs-vatsim/src/lib.rs:66-90 | ranks are totally ordered |
| CidIndex.Precedence | vacs-vatsim/src/lib.rs:51-90 | ranks follow the documented precedence: facility class, then range, then facility, then callsign |
| CidIndex.FacilityOrder | vacs-vatsim/src/lib.rs:121-135 | facilities rank in the order of their declaration |
| CidIndex.SupervisorSuffix | vacs-vatsim/src/lib.rs:96-98 | supervisors are the callsigns that end in the suffix |
| CidIndex.SingleEntry | vacs-vatsim/src/lib.rs:94-109 | a single entry is kept unless it is a supervisor's |
| CidIndex.IndexBestFor | vacs-vatsim/src/lib.rs:94-109 | among equal best entries the first one of the feed is kept |
| CidIndex.WinnerRankInvariant | vacs-vatsim/src/lib.rs:51-59 | keys and winning ranks do not depend on the order of the feed |
| CidIndex.OrderFreeIff | vacs-vatsim/src/lib.rs:51-59 | the whole index is independent of order if and only if no CID has two different best entries |
| CidIndex.DistinctCallsigns | vacs-vatsim/src/lib.rs:51-59 | distinct callsigns within each CID are enough |
| CidIndex.OrderMatters | vacs-vatsim/src/lib.rs:101-103 | two entries that differ only in frequency are kept in feed order |
| CidIndex.IndexConcat | vacs-vatsim/src/lib.rs:94-109 | indexing a ++ b is merging the two indexes by rank |

## Left out

- Rounding: samples are reals, so `f32` rounding, infinities and NaN are not modelled; durations are converted to frames exactly.
- Sine, exponentials and decibel conversions are parameters: the sine of a tone, the gate's coefficients and the limiter's threshold enter with the ranges the source documents.
- The high-pass filter, Opus coding and resampling are foreign components: the filter is a causal function, the resampler a function that may fail.
- MicChain.Hysteresis: compares mean squares with squared thresholds instead of taking the square root.
- Mixer.SourceMixer.Mix: keeps the state of each source as a value instead of a reference to its object; the classes of the three source kinds are proved separately to have exactly that effect.
- Capture.OpusFramer.Drain: the stash is a sequence of at most 1024 samples instead of a fixed array.
- Peer.Watchdog.OnTick: reads the clock once per tick where the source reads it up to three times.
- Session.LoginFirst: assumes that connects do not overlap and that the code between two awaits is one step; channel capacity only shows in a message arriving later than it was admitted.
- ReconnectGate.SupervisedBoundIff: a requested disconnect, which also clears the gate, is not part of supervised runs.
- Supervisor.Supervise: events that arrive from outside, and events lost by a lagging receiver, are not modelled.
- Supervisor.Reconnect: the delay between attempts is left out; it only sleeps.
- Dataset: download, unpacking and validation are taken to give a complete dataset without a marker or to fail before the swap.
- The capture branch with a resampler, level meters, deafening and muting flags, device selection, update selection, rate limiting, the server's call state, HTTP routes and the user interface would only add easy members or are I/O.
