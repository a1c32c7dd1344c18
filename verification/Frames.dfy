/**
  Interleaved sample buffers.

  An output callback hands every source one buffer of interleaved samples. Each source walks it in
  frames of `channels` samples (the last frame may be short) and adds one mono value to every sample
  of a frame. `AddFrames` is that effect stated once, for any source that emits one value per frame.
 */
module Frames {

  datatype Option<+T> = None | Some(value: T)

  function Min(a: int, b: int): int {
    if a <= b then a else b
  }

  function Max(a: int, b: int): int {
    if a >= b then a else b
  }

  function Clamp(x: real, lo: real, hi: real): real {
    if x < lo then lo else if x > hi then hi else x
  }

  /** Number of frames that `chunks_mut(channels)` yields for a buffer of `len` samples. */
  function FrameCount(len: nat, channels: nat): nat
    requires channels > 0
  {
    (len + channels - 1) / channels
  }

  /** Quotient and remainder are determined by the usual bounds. */
  lemma DivUnique(a: int, d: int, q: int)
    requires d > 0 && q * d <= a < q * d + d
    ensures a / d == q
  {
    var k := a / d;
    assert k * d <= a < k * d + d by {
      assert a == d * k + a % d;
    }
    Order(k, q, d);
    Order(q, k, d);
  }

  /** Distinct multiples of `d` are at least `d` apart. */
  lemma {:induction false} Order(k: int, q: int, d: int)
    requires d > 0
    ensures k < q ==> k * d + d <= q * d
    decreases q - k
  {
    if k + 1 < q {
      Order(k + 1, q, d);
    }
    assert (k + 1) * d == k * d + d;
  }

  /** Stepping through a cycle. */
  lemma NextPosition(t: nat, period: nat)
    requires period > 0
    ensures (t + 1) % period == if t % period + 1 == period then 0 else t % period + 1
  {
    var q, r := t / period, t % period;
    assert t == q * period + r;
    if r + 1 == period {
      assert t + 1 == (q + 1) * period + 0;
      DivUnique(t + 1, period, q + 1);
    } else {
      DivUnique(t + 1, period, q);
    }
  }

  /** Every sample index belongs to one of the counted frames. */
  lemma FrameInRange(i: nat, len: nat, channels: nat)
    requires channels > 0 && i < len
    ensures 0 <= i / channels < FrameCount(len, channels)
  {
    var q := i / channels;
    var n := FrameCount(len, channels);
    assert q * channels <= i;
    assert n * channels >= len by {
      assert len + channels - 1 == n * channels + (len + channels - 1) % channels;
    }
    Order(n - 1, q, channels);
    assert (n - 1) * channels + channels == n * channels;
  }

  /** Frame `f` is counted exactly when it starts inside the buffer. */
  lemma FrameStarts(f: nat, len: nat, channels: nat)
    requires channels > 0
    ensures f < FrameCount(len, channels) <==> f * channels < len
  {
    var n := FrameCount(len, channels);
    var r := (len + channels - 1) % channels;
    assert len + channels - 1 == n * channels + r;
    Order(f, n, channels);
    Order(n - 1, f, channels);
    assert (n - 1) * channels + channels == n * channels;
  }

  /** A buffer that ends on a frame boundary splits the frame count. */
  lemma FrameCountSplit(a: nat, b: nat, channels: nat)
    requires channels > 0 && a % channels == 0
    ensures FrameCount(a + b, channels) == a / channels + FrameCount(b, channels)
    ensures FrameCount(a, channels) == a / channels
  {
    var q := a / channels;
    assert a == q * channels;
    var n := FrameCount(b, channels);
    assert b + channels - 1 == n * channels + (b + channels - 1) % channels;
    assert (q + n) * channels == q * channels + n * channels;
    DivUnique(a + b + channels - 1, channels, q + n);
    DivUnique(a + channels - 1, channels, q);
  }

  /** Shifting an index by whole frames shifts its frame number. */
  lemma FrameShift(j: nat, q: nat, channels: nat)
    requires channels > 0
    ensures (q * channels + j) / channels == q + j / channels
  {
    var k := j / channels;
    assert j == k * channels + j % channels;
    assert (q + k) * channels == q * channels + k * channels;
    DivUnique(q * channels + j, channels, q + k);
  }

  /** The value emitted for frame `k`; frames beyond the emitted ones add nothing. */
  function ValueAt(emitted: seq<real>, k: int): real {
    if 0 <= k < |emitted| then emitted[k] else 0.0
  }

  /** Sample `i` gains the value emitted for the frame it belongs to. */
  function AddFrames(buf: seq<real>, channels: nat, emitted: seq<real>): (mixed: seq<real>)
    requires channels > 0
    ensures |mixed| == |buf|
  {
    seq(|buf|, i requires 0 <= i < |buf| => buf[i] + ValueAt(emitted, i / channels))
  }

  predicate Silent(emitted: seq<real>) {
    forall k :: 0 <= k < |emitted| ==> emitted[k] == 0.0
  }

  lemma InFrame(i: nat, f: nat, channels: nat)
    requires channels > 0
    ensures i / channels == f <==> f * channels <= i < f * channels + channels
  {
    if f * channels <= i < f * channels + channels {
      DivUnique(i, channels, f);
    }
    assert i == (i / channels) * channels + i % channels;
  }

  /** Adding one more value to one more frame. */
  lemma AddFramesStep(buf: seq<real>, now: seq<real>, next: seq<real>, channels: nat, emitted: seq<real>, value: real)
    requires channels > 0 && now == AddFrames(buf, channels, emitted) && |next| == |now|
    requires forall i :: 0 <= i < |now| && |emitted| * channels <= i < |emitted| * channels + channels ==>
      next[i] == now[i] + value
    requires forall i :: 0 <= i < |now| && !(|emitted| * channels <= i < |emitted| * channels + channels) ==>
      next[i] == now[i]
    ensures next == AddFrames(buf, channels, emitted + [value])
  {
    forall i | 0 <= i < |next|
      ensures next[i] == AddFrames(buf, channels, emitted + [value])[i]
    {
      InFrame(i, |emitted|, channels);
    }
  }

  /** Zero values change nothing. */
  lemma AddFramesPad(buf: seq<real>, channels: nat, emitted: seq<real>, more: seq<real>)
    requires channels > 0
    requires Silent(more)
    ensures AddFrames(buf, channels, emitted + more) == AddFrames(buf, channels, emitted)
  {
    forall i | 0 <= i < |buf|
      ensures AddFrames(buf, channels, emitted + more)[i] == AddFrames(buf, channels, emitted)[i]
    {
    }
  }

  /** Mixing a buffer equals mixing its two halves, for every cut at a frame boundary. */
  lemma AddFramesSplit(a: seq<real>, b: seq<real>, channels: nat, ea: seq<real>, eb: seq<real>)
    requires channels > 0 && |a| % channels == 0
    requires |ea| == FrameCount(|a|, channels) && |eb| == FrameCount(|b|, channels)
    ensures AddFrames(a + b, channels, ea + eb) == AddFrames(a, channels, ea) + AddFrames(b, channels, eb)
  {
    FrameCountSplit(|a|, |b|, channels);
    var q := |a| / channels;
    assert |a| == q * channels;
    var whole, parts := AddFrames(a + b, channels, ea + eb), AddFrames(a, channels, ea) + AddFrames(b, channels, eb);
    forall i | 0 <= i < |a|
      ensures whole[i] == parts[i]
    {
      FrameInRange(i, |a|, channels);
    }
    forall i | |a| <= i < |a + b|
      ensures whole[i] == parts[i]
    {
      FrameInRange(i - |a|, |b|, channels);
      FrameShift(i - |a|, q, channels);
    }
    assert whole == parts;
  }

  /** Adds `value` to the samples of one frame. */
  method AddToFrame(output: array<real>, lo: nat, hi: nat, value: real)
    requires lo <= hi <= output.Length
    modifies output
    ensures forall i :: lo <= i < hi ==> output[i] == old(output[i]) + value
    ensures forall i :: 0 <= i < output.Length && !(lo <= i < hi) ==> output[i] == old(output[i])
  {
    for i := lo to hi
      invariant forall j :: lo <= j < i ==> output[j] == old(output[j]) + value
      invariant forall j :: 0 <= j < output.Length && !(lo <= j < i) ==> output[j] == old(output[j])
    {
      output[i] := output[i] + value;
    }
  }
}
