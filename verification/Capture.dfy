/**
  Capture-side framing: samples arrive in slices of any length and leave in frames of 960.
 */
module Capture {
  import opened Frames
  import opened Slices
  import opened MicChain

  const FRAME_SIZE: nat := 960
  const STASH_SIZE: nat := 1024

  function Scale(samples: seq<real>, gain: real): (scaled: seq<real>)
    ensures |scaled| == |samples|
  {
    seq(|samples|, i requires 0 <= i < |samples| => samples[i] * gain)
  }

  /** The complete blocks of `size` samples of a stream, in order. */
  function BlocksOf(stream: seq<real>, size: nat): (blocks: seq<seq<real>>)
    requires size > 0
    decreases |stream|
  {
    if |stream| < size then [] else [stream[..size]] + BlocksOf(stream[size..], size)
  }

  /** The samples behind the last complete block. */
  function RestOf(stream: seq<real>, size: nat): (rest: seq<real>)
    requires size > 0
    decreases |stream|
  {
    if |stream| < size then stream else RestOf(stream[size..], size)
  }

  /** The number of blocks is the quotient and the length of the rest the remainder. */
  lemma {:induction false} BlockCounts(stream: seq<real>, size: nat)
    requires size > 0
    ensures |BlocksOf(stream, size)| == |stream| / size
    ensures |RestOf(stream, size)| == |stream| % size
    decreases |stream|
  {
    var n := |stream|;
    if n < size {
      DivUnique(n, size, 0);
    } else {
      BlockCounts(stream[size..], size);
      var q := (n - size) / size;
      assert n - size == q * size + (n - size) % size;
      assert (q + 1) * size == q * size + size;
      DivUnique(n, size, q + 1);
    }
  }

  /** Block `k` is the stream from `k * size` on: nothing is lost, repeated or reordered. */
  lemma {:induction false} BlockContents(stream: seq<real>, size: nat, k: nat)
    requires size > 0 && k < |BlocksOf(stream, size)|
    ensures k * size + size <= |stream|
    ensures BlocksOf(stream, size)[k] == stream[k * size..k * size + size]
    decreases k
  {
    if k > 0 {
      BlockContents(stream[size..], size, k - 1);
      assert k * size == (k - 1) * size + size;
      var from := (k - 1) * size;
      assert stream[size..][from..from + size] == stream[size + from..size + from + size];
    }
  }

  /** Appending samples that complete at most one block. */
  lemma {:induction false} BlocksAppend(stream: seq<real>, more: seq<real>, size: nat)
    requires size > 0 && |RestOf(stream, size)| + |more| <= size
    ensures var rest := RestOf(stream, size) + more;
      if |rest| < size
      then BlocksOf(stream + more, size) == BlocksOf(stream, size) && RestOf(stream + more, size) == rest
      else BlocksOf(stream + more, size) == BlocksOf(stream, size) + [rest] && RestOf(stream + more, size) == []
    decreases |stream|
  {
    if |stream| < size {
      var whole := stream + more;
      if |whole| == size {
        assert whole[..size] == whole && whole[size..] == [];
        assert BlocksOf(whole, size) == [whole] + BlocksOf([], size);
      }
    } else {
      BlocksAppend(stream[size..], more, size);
      assert (stream + more)[..size] == stream[..size];
      assert (stream + more)[size..] == stream[size..] + more;
    }
  }

  class OpusFramer {
    const frame: array<real>
    const processor: MicProcessor
    var pos: nat
    /** Everything pushed so far, scaled. */
    ghost var stream: seq<real>
    /** The frames as they were handed to the processor, and as they went on to the encoder. */
    ghost var handed: seq<seq<real>>
    ghost var encoded: seq<seq<real>>

    ghost predicate Valid()
      reads this, frame, processor
    {
      && frame.Length == FRAME_SIZE && pos < FRAME_SIZE && processor.Valid()
      && handed == BlocksOf(stream, FRAME_SIZE)
      && frame[..pos] == RestOf(stream, FRAME_SIZE)
      && |encoded| == |handed|
      && forall k, i :: 0 <= k < |encoded| && 0 <= i < |encoded[k]| ==> -CEILING <= encoded[k][i] <= CEILING
    }

    constructor (processor: MicProcessor)
      requires processor.Valid()
      ensures Valid() && stream == [] && fresh(frame) && this.processor == processor
    {
      frame := new real[FRAME_SIZE](_ => 0.0);
      this.processor := processor;
      pos, stream, handed, encoded := 0, [], [], [];
    }

    method Fill(samples: seq<real>, gain: real)
      requires Valid() && pos + |samples| <= FRAME_SIZE
      modifies frame
      ensures frame[..pos + |samples|] == old(frame[..pos]) + Scale(samples, gain)
      ensures processor.Valid()
    {
      for i := 0 to |samples|
        invariant processor.Valid()
        invariant forall j :: 0 <= j < pos ==> frame[j] == old(frame[j])
        invariant forall j :: 0 <= j < i ==> frame[pos + j] == Scale(samples, gain)[j]
      {
        frame[pos + i] := samples[i] * gain;
      }
      forall j | 0 <= j < pos + |samples|
        ensures frame[j] == (old(frame[..pos]) + Scale(samples, gain))[j]
      {
        if j >= pos {
          assert frame[pos + (j - pos)] == Scale(samples, gain)[j - pos];
        }
      }
    }

    /** Takes as much as the current frame can hold and hands the frame over when it is full. */
    method Take(samples: seq<real>, gain: real)
      requires Valid() && pos + |samples| <= FRAME_SIZE
      modifies this, frame, processor
      ensures Valid() && stream == old(stream) + Scale(samples, gain)
    {
      ghost var rest := frame[..pos];
      Fill(samples, gain);
      BlocksAppend(stream, Scale(samples, gain), FRAME_SIZE);
      pos := pos + |samples|;
      stream := stream + Scale(samples, gain);
      assert frame[..pos] == rest + Scale(samples, gain);
      if pos == FRAME_SIZE {
        assert frame[..pos] == frame[..];
        handed := handed + [frame[..]];
        processor.ProcessFrame(frame);
        encoded := encoded + [frame[..]];
        pos := 0;
        assert frame[..pos] == [];
      }
    }

    method PushSlice(samples: seq<real>, gain: real)
      requires Valid()
      modifies this, frame, processor
      ensures Valid() && stream == old(stream) + Scale(samples, gain)
      ensures |handed| == |stream| / FRAME_SIZE && pos == |stream| % FRAME_SIZE
    {
      var done := 0;
      assert stream == old(stream) + Scale(samples[..0], gain);
      while done < |samples|
        invariant Valid() && done <= |samples|
        invariant stream == old(stream) + Scale(samples[..done], gain)
      {
        var take := Min(FRAME_SIZE - pos, |samples| - done);
        Take(samples[done..done + take], gain);
        assert samples[..done + take] == samples[..done] + samples[done..done + take];
        ScaleConcat(samples[..done], samples[done..done + take], gain);
        done := done + take;
      }
      assert samples[..done] == samples;
      BlockCounts(stream, FRAME_SIZE);
    }

    /** The drain without a resampler: every sample of the ring goes through, in order, over the stash. */
    method Drain(ring: seq<real>, gain: real) returns (popped: nat)
      requires Valid()
      modifies this, frame, processor
      ensures Valid() && popped == |ring| && stream == old(stream) + Scale(ring, gain)
      ensures |handed| == |stream| / FRAME_SIZE && pos == |stream| % FRAME_SIZE
    {
      popped := 0;
      var stash: seq<real> := [];
      assert ring[..0] == [] && old(stream) + Scale([], gain) == old(stream);
      while popped < |ring|
        invariant Valid() && popped <= |ring| && |stash| <= STASH_SIZE && |stash| <= popped
        invariant stash == ring[popped - |stash|..popped]
        invariant stream == old(stream) + Scale(ring[..popped - |stash|], gain)
      {
        var sample := ring[popped];
        if |stash| == STASH_SIZE {
          Flush(stash, gain, ring, popped, old(stream));
          stash := [];
        }
        popped := popped + 1;
        stash := stash + [sample];
      }
      if |stash| > 0 {
        Flush(stash, gain, ring, popped, old(stream));
      }
      assert ring[..|ring|] == ring;
      BlockCounts(stream, FRAME_SIZE);
    }

    /** Pushes the stash, which holds the newest samples popped from the ring. */
    method Flush(stash: seq<real>, gain: real, ghost ring: seq<real>, ghost popped: nat, ghost before: seq<real>)
      requires Valid() && |stash| <= popped <= |ring| && stash == ring[popped - |stash|..popped]
      requires stream == before + Scale(ring[..popped - |stash|], gain)
      modifies this, frame, processor
      ensures Valid() && stream == before + Scale(ring[..popped], gain)
    {
      PushSlice(stash, gain);
      assert ring[..popped] == ring[..popped - |stash|] + stash;
      ScaleConcat(ring[..popped - |stash|], stash, gain);
    }
  }

  /** Pushed samples are scaled by the gain, each by itself; a gain of one leaves them alone. */
  lemma ScaleExact(samples: seq<real>, gain: real, i: nat)
    requires i < |samples|
    ensures Scale(samples, 1.0) == samples && Scale(samples, gain)[i] == gain * samples[i]
  {
  }

  lemma ScaleConcat(a: seq<real>, b: seq<real>, gain: real)
    ensures Scale(a + b, gain) == Scale(a, gain) + Scale(b, gain)
  {
    forall i | 0 <= i < |a + b|
      ensures Scale(a + b, gain)[i] == (Scale(a, gain) + Scale(b, gain))[i]
    {
      if i < |a| {
        assert (a + b)[i] == a[i];
      } else {
        assert (a + b)[i] == b[i - |a|];
      }
    }
  }

  /** The stream after pushing a sequence of slices. */
  function PushedStream(stream: seq<real>, slices: seq<seq<real>>, gain: real): seq<real> {
    if slices == [] then stream
    else PushedStream(stream, slices[..|slices| - 1], gain) + Scale(slices[|slices| - 1], gain)
  }

  lemma {:induction false} PushedIsConcat(stream: seq<real>, slices: seq<seq<real>>, gain: real)
    ensures PushedStream(stream, slices, gain) == stream + Scale(Concat(slices), gain)
  {
    if slices == [] {
      assert stream + Scale([], gain) == stream;
    } else {
      var init, last := slices[..|slices| - 1], slices[|slices| - 1];
      PushedIsConcat(stream, init, gain);
      ScaleConcat(Concat(init), last, gain);
    }
  }

  /** However the input is sliced, the processor is handed the same frames and the same rest is kept. */
  lemma SlicingIrrelevant(stream: seq<real>, one: seq<seq<real>>, other: seq<seq<real>>, gain: real)
    requires Concat(one) == Concat(other)
    ensures var p, q := PushedStream(stream, one, gain), PushedStream(stream, other, gain);
      BlocksOf(p, FRAME_SIZE) == BlocksOf(q, FRAME_SIZE) && RestOf(p, FRAME_SIZE) == RestOf(q, FRAME_SIZE)
  {
    PushedIsConcat(stream, one, gain);
    PushedIsConcat(stream, other, gain);
  }
}
