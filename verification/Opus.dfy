/**
  Received voice: decoded frames are re-blocked into the resampler's fixed input chunks, pushed into a
  bounded ring, and taken out again by the output callback.
 */
module Opus {
  import opened Frames
  import opened Slices

  /** 20 ms at 48 kHz, the largest frame the decoder is asked for. */
  const FRAME_SIZE: nat := 960
  /** Input frames per call of the resampler for a default-sized device buffer. */
  const RESAMPLER_CHUNK: nat := 1024
  const RING_CAPACITY: nat := FRAME_SIZE * 10

  // ---------------------------------------------------------------- the output side

  datatype Voice = Voice(channels: nat, volume: real, amp: real, ring: seq<real>)

  predicate Built(v: Voice) {
    v.channels > 0
  }

  function Gained(v: Voice, sample: real): real {
    sample * v.amp * v.volume
  }

  /** One ring sample per frame, as long as there are any. */
  function Emissions(v: Voice, frames: nat): (e: seq<real>)
    ensures |e| == Min(frames, |v.ring|)
  {
    seq(Min(frames, |v.ring|), i requires 0 <= i < Min(frames, |v.ring|) => Gained(v, v.ring[i]))
  }

  function Consume(v: Voice, frames: nat): Voice {
    v.(ring := v.ring[Min(frames, |v.ring|)..])
  }

  lemma EmissionsSnoc(v: Voice, f: nat)
    requires f < |v.ring|
    ensures Emissions(v, f + 1) == Emissions(v, f) + [Gained(v, v.ring[f])]
    ensures Consume(v, f + 1) == Consume(v, f).(ring := v.ring[f..][1..])
  {
  }

  /** The source and the buffer after `f` frames. */
  ghost predicate Mixed(v: Voice, f: nat, buf: seq<real>, now: seq<real>, t: Voice)
    requires Built(v)
  {
    t == Consume(v, f) && now == AddFrames(buf, v.channels, Emissions(v, f))
  }

  /** Frames without a sample change nothing. */
  lemma DoneEarly(v: Voice, f: nat, n: nat)
    requires f <= n && (f == n || f >= |v.ring|)
    ensures Consume(v, f) == Consume(v, n) && Emissions(v, f) == Emissions(v, n)
  {
    assert Min(f, |v.ring|) == Min(n, |v.ring|);
  }

  class OpusSource {
    const channels: nat
    const amp: real
    var volume: real
    var ring: seq<real>

    function Snapshot(): Voice
      reads this
    {
      Voice(channels, volume, amp, ring)
    }

    constructor (outputChannels: nat, volume: real, amp: real)
      ensures Snapshot() == Voice(Max(outputChannels, 1), Clamp(volume, 0.0, 1.0), if amp < 0.1 then 0.1 else amp, [])
    {
      this.channels := Max(outputChannels, 1);
      this.volume := Clamp(volume, 0.0, 1.0);
      this.amp := if amp < 0.1 then 0.1 else amp;
      this.ring := [];
    }

    method MixFrame(output: array<real>, lo: nat, hi: nat)
      requires |ring| > 0 && lo <= hi <= output.Length
      modifies this, output
      ensures Snapshot() == Consume(old(Snapshot()), 1)
      ensures forall i :: lo <= i < hi ==> output[i] == old(output[i]) + old(Gained(Snapshot(), ring[0]))
      ensures forall i :: 0 <= i < output.Length && !(lo <= i < hi) ==> output[i] == old(output[i])
    {
      AddToFrame(output, lo, hi, ring[0] * amp * volume);
      ring := ring[1..];
    }

    /** Frame `f` of a buffer that was `before` when the source was in state `v`. */
    method MixNth(output: array<real>, f: nat, ghost v: Voice, ghost before: seq<real>)
      requires Built(v) && f < |v.ring| && f * channels < output.Length
      requires Mixed(v, f, before, output[..], Snapshot())
      modifies this, output
      ensures Mixed(v, f + 1, before, output[..], Snapshot())
    {
      ghost var now, value := output[..], Gained(v, v.ring[f]);
      assert Gained(Snapshot(), ring[0]) == value;
      var lo := f * channels;
      MixFrame(output, lo, Min(lo + channels, output.Length));
      EmissionsSnoc(v, f);
      AddFramesStep(before, now, output[..], v.channels, Emissions(v, f), value);
    }

    /** Exactly min(frames, available) samples leave the ring, and each of them reaches the output. */
    method MixInto(output: array<real>)
      requires Built(Snapshot())
      modifies this, output
      ensures var n := FrameCount(output.Length, channels);
        && Snapshot() == Consume(old(Snapshot()), n)
        && output[..] == AddFrames(old(output[..]), channels, Emissions(old(Snapshot()), n))
    {
      ghost var n := FrameCount(output.Length, channels);
      ghost var before, v := output[..], Snapshot();
      var f := 0;
      FrameStarts(0, output.Length, channels);
      assert output[..] == AddFrames(before, channels, []);
      while f * channels < output.Length && |ring| > 0
        invariant f <= n && f <= |v.ring|
        invariant Mixed(v, f, before, output[..], Snapshot())
        decreases |ring|
      {
        FrameStarts(f, output.Length, channels);
        MixNth(output, f, v, before);
        f := f + 1;
      }
      FrameStarts(f, output.Length, channels);
      DoneEarly(v, f, n);
    }

    method SetVolume(volume: real)
      modifies this
      ensures Snapshot() == old(Snapshot()).(volume := Clamp(volume, 0.0, 1.0))
    {
      this.volume := Clamp(volume, 0.0, 1.0);
    }
  }

  // ---------------------------------------------------------------- the decoder side

  /** Chunks handed to the resampler so far, and the samples carried over to the next one. */
  datatype Blocks = Blocks(chunks: seq<seq<real>>, carry: seq<real>)

  /** One decoded frame: at most one chunk is taken. */
  function Feed(b: Blocks, need: nat, frame: seq<real>): Blocks {
    var buf := b.carry + frame;
    if |buf| < need then b.(carry := buf) else Blocks(b.chunks + [buf[..need]], buf[need..])
  }

  function FeedAll(need: nat, frames: seq<seq<real>>): Blocks {
    if frames == [] then Blocks([], []) else Feed(FeedAll(need, frames[..|frames| - 1]), need, frames[|frames| - 1])
  }

  /** One frame in: chunks and carry-over together grow by exactly that frame. */
  lemma FeedPreserves(b: Blocks, need: nat, frame: seq<real>)
    ensures Concat(Feed(b, need, frame).chunks) + Feed(b, need, frame).carry == Concat(b.chunks) + b.carry + frame
  {
    var buf := b.carry + frame;
    if |buf| >= need {
      ConcatSnoc(b.chunks, buf[..need]);
      assert buf == buf[..need] + buf[need..];
    }
  }

  lemma {:induction false} ChunksAreFull(need: nat, frames: seq<seq<real>>)
    ensures forall i :: 0 <= i < |FeedAll(need, frames).chunks| ==> |FeedAll(need, frames).chunks[i]| == need
  {
    if frames != [] {
      ChunksAreFull(need, frames[..|frames| - 1]);
    }
  }

  lemma {:induction false} StreamKept(need: nat, frames: seq<seq<real>>, b: Blocks)
    requires b == FeedAll(need, frames)
    ensures Concat(b.chunks) + b.carry == Concat(frames)
  {
    if frames != [] {
      var init, frame := frames[..|frames| - 1], frames[|frames| - 1];
      var before := FeedAll(need, init);
      StreamKept(need, init, before);
      FeedPreserves(before, need, frame);
      assert b == Feed(before, need, frame) && Concat(frames) == Concat(init) + frame;
    }
  }

  /** Nothing is lost or reordered on the way into the resampler. */
  lemma ReblockingPreservesStream(need: nat, frames: seq<seq<real>>)
    ensures var b := FeedAll(need, frames);
      Concat(b.chunks) + b.carry == Concat(frames) && forall i :: 0 <= i < |b.chunks| ==> |b.chunks[i]| == need
  {
    StreamKept(need, frames, FeedAll(need, frames));
    ChunksAreFull(need, frames);
  }

  predicate FramesWithin(frames: seq<seq<real>>, limit: nat) {
    forall i :: 0 <= i < |frames| ==> |frames[i]| <= limit
  }

  lemma {:induction false} CarryStaysBelow(need: nat, limit: nat, frames: seq<seq<real>>)
    requires 0 < need && limit <= need && FramesWithin(frames, limit)
    ensures |FeedAll(need, frames).carry| < need
  {
    if frames != [] {
      CarryStaysBelow(need, limit, frames[..|frames| - 1]);
    }
  }

  function Uniform(k: nat, size: nat): seq<seq<real>> {
    seq(k, _ => seq(size, _ => 0.0))
  }

  /** `k` frames of `limit` samples: the carry-over grows by the surplus of every one of them. */
  lemma {:induction false} SurplusPilesUp(need: nat, limit: nat, k: nat)
    requires need < limit
    ensures |FeedAll(need, Uniform(k, limit)).carry| >= k
  {
    if k > 0 {
      SurplusPilesUp(need, limit, k - 1);
      assert Uniform(k, limit)[..k - 1] == Uniform(k - 1, limit);
    }
  }

  /** One chunk per frame is enough for every stream exactly when a frame never exceeds a chunk. */
  lemma CarryBoundedIff(need: nat, limit: nat)
    requires need > 0
    ensures (forall frames: seq<seq<real>> :: FramesWithin(frames, limit) ==> |FeedAll(need, frames).carry| < need)
       <==> limit <= need
  {
    if limit <= need {
      forall frames: seq<seq<real>> | FramesWithin(frames, limit)
        ensures |FeedAll(need, frames).carry| < need
      {
        CarryStaysBelow(need, limit, frames);
      }
    } else {
      SurplusPilesUp(need, limit, need);
      assert FramesWithin(Uniform(need, limit), limit);
    }
  }

  /** What a full ring takes of a slice: its beginning. */
  function Fitting(samples: seq<real>, used: nat): seq<real> {
    samples[..Min(|samples|, Max(0, RING_CAPACITY - used))]
  }

  /** The decoder task, with or without a resampler in front of the ring, and the ring's other end. */
  class Decoder {
    const resampling: bool
    var buf: seq<real>
    var ring: seq<real>
    ghost var frames: seq<seq<real>>
    ghost var chunks: seq<seq<real>>
    /** Everything that went into the ring, and everything that came out. */
    ghost var written: seq<real>
    ghost var taken: seq<real>

    ghost predicate Valid()
      reads this
    {
      && FramesWithin(frames, FRAME_SIZE)
      && Blocks(chunks, buf) == (if resampling then FeedAll(RESAMPLER_CHUNK, frames) else Blocks([], []))
      && |ring| <= RING_CAPACITY && written == taken + ring
    }

    constructor (resampling: bool)
      ensures Valid() && this.resampling == resampling
      ensures frames == [] && chunks == [] && ring == [] && written == [] && taken == []
    {
      this.resampling := resampling;
      buf, ring, frames, chunks, written, taken := [], [], [], [], [], [];
    }

    method PushSlice(samples: seq<real>)
      requires Valid()
      modifies this`ring, this`written
      ensures Valid() && written == old(written) + Fitting(samples, |old(ring)|)
    {
      ring := ring + samples[..Min(|samples|, RING_CAPACITY - |ring|)];
      written := written + Fitting(samples, |old(ring)|);
    }

    /** The output callback takes samples, oldest first. */
    method Take(n: nat) returns (samples: seq<real>)
      requires Valid()
      modifies this`ring, this`taken
      ensures Valid() && samples == old(ring)[..Min(n, |old(ring)|)]
      ensures taken == old(taken) + samples
    {
      samples := ring[..Min(n, |ring|)];
      ring := ring[Min(n, |ring|)..];
      taken := taken + samples;
    }

    /** At any time less than one chunk is carried over, and chunks and carry-over are the decoded stream. */
    lemma StreamSoFar()
      requires Valid() && resampling
      ensures |buf| < RESAMPLER_CHUNK && Concat(chunks) + buf == Concat(frames)
    {
      CarryStaysBelow(RESAMPLER_CHUNK, FRAME_SIZE, frames);
      ReblockingPreservesStream(RESAMPLER_CHUNK, frames);
    }

    /** Adds a frame to the carry-over and takes at most one chunk from it. */
    method Reblock(frame: seq<real>) returns (chunk: Option<seq<real>>)
      requires Valid() && resampling && |frame| <= FRAME_SIZE
      modifies this`buf, this`frames, this`chunks
      ensures Valid() && frames == old(frames) + [frame] && |buf| < RESAMPLER_CHUNK
      ensures chunks == old(chunks) + if chunk.Some? then [chunk.value] else []
    {
      ghost var before := Blocks(chunks, buf);
      frames := frames + [frame];
      assert FeedAll(RESAMPLER_CHUNK, frames) == Feed(before, RESAMPLER_CHUNK, frame) by {
        assert frames[..|frames| - 1] == old(frames);
      }
      CarryStaysBelow(RESAMPLER_CHUNK, FRAME_SIZE, frames);
      buf := buf + frame;
      if |buf| < RESAMPLER_CHUNK {
        return None;
      }
      chunk := Some(buf[..RESAMPLER_CHUNK]);
      buf := buf[RESAMPLER_CHUNK..];
      chunks := chunks + [chunk.value];
    }

    /**
      One received frame; a frame that cannot be decoded changes nothing. `resample` stands for the
      resampler: it may fail, and then the chunk produces no output. Without one the frame itself goes
      into the ring. A full ring takes what fits and drops the tail.
     */
    method Decode(decoded: Option<seq<real>>, resample: seq<real> -> Option<seq<real>>)
      requires Valid() && (decoded.Some? ==> |decoded.value| <= FRAME_SIZE)
      modifies this
      ensures Valid() && taken == old(taken)
      ensures frames == old(frames) + if decoded.Some? then [decoded.value] else []
      ensures resampling ==> |buf| < RESAMPLER_CHUNK && Concat(chunks) + buf == Concat(frames)
      ensures chunks == old(chunks) ==>
        written == old(written) + if resampling || decoded.None? then [] else Fitting(decoded.value, |old(ring)|)
      ensures chunks != old(chunks) ==>
        && |chunks| == |old(chunks)| + 1
        && var out := resample(chunks[|old(chunks)|]);
           written == old(written) + if out.None? then [] else Fitting(out.value, |old(ring)|)
    {
      if decoded.Some? {
        if resampling {
          var chunk := Reblock(decoded.value);
          if chunk.Some? {
            match resample(chunk.value) {
              case None =>
              case Some(samples) => PushSlice(samples);
            }
          }
        } else {
          frames := frames + [decoded.value];
          PushSlice(decoded.value);
        }
      }
      if resampling {
        StreamSoFar();
      }
    }
  }
}
