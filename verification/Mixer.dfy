/**
  The mixer: a map of sources summed into one buffer, and a bounded ring for the sources it lets go.
 */
module Mixer {
  import opened Frames
  import Waveform
  import Wav
  import Opus
  import opened SourceQueue

  datatype AnySource =
    | ToneSource(cfg: Waveform.Config, tone: Waveform.State)
    | ClipSource(clip: Wav.Clip, wav: Wav.State)
    | VoiceSource(voice: Opus.Voice)

  predicate Sound(src: AnySource) {
    match src
    case ToneSource(cfg, s) => Waveform.Built(cfg) && Waveform.InRange(cfg, s)
    case ClipSource(clip, s) => Wav.Built(clip) && Wav.Safe(clip, s)
    case VoiceSource(v) => Opus.Built(v)
  }

  /** A source as its constructor builds it and its own methods keep it. */
  type Source = src: AnySource | Sound(src) witness VoiceSource(Opus.Voice(1, 0.0, 0.0, []))

  function Channels(src: Source): (n: nat)
    ensures n > 0
  {
    match src
    case ToneSource(cfg, _) => cfg.channels
    case ClipSource(clip, _) => clip.channels
    case VoiceSource(v) => v.channels
  }

  /** The values a source emits for the frames of a buffer of `len` samples. */
  function Emitted(src: Source, len: nat): seq<real> {
    var n := FrameCount(len, Channels(src));
    match src
    case ToneSource(cfg, s) => Waveform.Emissions(cfg, s, n)
    case ClipSource(clip, s) => Wav.Emissions(clip, Wav.Settle(clip, s), n)
    case VoiceSource(v) => Opus.Emissions(v, n)
  }

  /** The source after a buffer of `len` samples. */
  function Advanced(src: Source, len: nat): Source {
    var n := FrameCount(len, Channels(src));
    match src
    case ToneSource(cfg, s) => ToneSource(cfg, Waveform.Run(cfg, s, n))
    case ClipSource(clip, s) => ClipSource(clip, Wav.Mix(clip, s, n))
    case VoiceSource(v) => VoiceSource(Opus.Consume(v, n))
  }

  /** What each source's own mixing does to a buffer. */
  function MixedBy(src: Source, buf: seq<real>): (mixed: seq<real>)
    ensures |mixed| == |buf|
  {
    AddFrames(buf, Channels(src), Emitted(src, |buf|))
  }

  /** The contribution of a source to sample `i`; it does not mention the buffer's contents. */
  function Contribution(src: Source, len: nat, i: nat): real
    requires i < len
  {
    ValueAt(Emitted(src, len), i / Channels(src))
  }

  // ---------------------------------------------------------------- control of one source

  datatype Change =
    | Starting
    | Stopping
    | Restarting
    | Volume(volume: real)
    | Skipping(frames: nat)
    | Rewinding(frames: nat)

  /** Only clips can be sought; a voice has nothing to start or stop. */
  function Changed(src: Source, change: Change): Source {
    match src
    case ToneSource(cfg, s) =>
      ToneSource(cfg, match change
        case Starting => Waveform.Start(s)
        case Stopping => Waveform.Stop(s)
        case Restarting => Waveform.Restart(s)
        case Volume(v) => s.(volume := Clamp(v, 0.0, 1.0))
        case _ => s)
    case ClipSource(clip, s) =>
      ClipSource(clip, match change
        case Starting => Wav.Start(s)
        case Stopping => Wav.Stop(clip, s)
        case Restarting => Wav.Restart(clip, s)
        case Volume(v) => s.(volume := Clamp(v, 0.0, 1.0))
        case Skipping(n) => Wav.Skip(clip, s, n)
        case Rewinding(n) => Wav.Rewind(s, n))
    case VoiceSource(v) =>
      if change.Volume? then VoiceSource(v.(volume := Clamp(change.volume, 0.0, 1.0))) else src
  }

  // ---------------------------------------------------------------- sums over sources

  /** The sum of the contributions of the sources in `ids`, taken in some order. */
  ghost function Total(sources: map<Id, Source>, ids: set<Id>, len: nat, i: nat): real
    requires ids <= sources.Keys && i < len
    decreases ids
  {
    if ids == {} then 0.0
    else
      var id :| id in ids;
      Contribution(sources[id], len, i) + Total(sources, ids - {id}, len, i)
  }

  /** Any source may be taken first: the sum does not depend on the order of iteration. */
  lemma {:induction false} TotalAnyOrder(sources: map<Id, Source>, ids: set<Id>, id: Id, len: nat, i: nat)
    requires ids <= sources.Keys && id in ids && i < len
    ensures Total(sources, ids, len, i) == Contribution(sources[id], len, i) + Total(sources, ids - {id}, len, i)
    decreases ids
  {
    var first :| first in ids
      && Total(sources, ids, len, i) == Contribution(sources[first], len, i) + Total(sources, ids - {first}, len, i);
    if first != id {
      TotalAnyOrder(sources, ids - {first}, id, len, i);
      TotalAnyOrder(sources, ids - {id}, first, len, i);
      assert ids - {first} - {id} == ids - {id} - {first};
    }
  }

  function IdSet(order: seq<Id>): set<Id> {
    if order == [] then {} else {order[0]} + IdSet(order[1..])
  }

  predicate Distinct(order: seq<Id>) {
    order != [] ==> order[0] !in IdSet(order[1..]) && Distinct(order[1..])
  }

  /** The sum over a list of sources, in the order of the list. */
  function ListTotal(sources: map<Id, Source>, order: seq<Id>, len: nat, i: nat): real
    requires i < len && IdSet(order) <= sources.Keys
  {
    if order == [] then 0.0
    else Contribution(sources[order[0]], len, i) + ListTotal(sources, order[1..], len, i)
  }

  lemma {:induction false} ListTotalIsTotal(sources: map<Id, Source>, order: seq<Id>, len: nat, i: nat)
    requires i < len && IdSet(order) <= sources.Keys && Distinct(order)
    ensures ListTotal(sources, order, len, i) == Total(sources, IdSet(order), len, i)
  {
    if order != [] {
      ListTotalIsTotal(sources, order[1..], len, i);
      assert IdSet(order) - {order[0]} == IdSet(order[1..]);
      TotalAnyOrder(sources, IdSet(order), order[0], len, i);
    }
  }

  /** Two orders of iteration over the same sources give the same sample. */
  lemma OrderIrrelevant(sources: map<Id, Source>, one: seq<Id>, other: seq<Id>, len: nat, i: nat)
    requires i < len && IdSet(one) == IdSet(other) <= sources.Keys
    requires Distinct(one) && Distinct(other)
    ensures ListTotal(sources, one, len, i) == ListTotal(sources, other, len, i)
  {
    ListTotalIsTotal(sources, one, len, i);
    ListTotalIsTotal(sources, other, len, i);
  }

  // ---------------------------------------------------------------- the mixer

  class SourceMixer {
    var sources: map<Id, Source>
    /** Sources waiting to be freed on the control side. */
    var removed: seq<Parked<Source>>
    /** Sources that found the ring full and were freed on the audio thread. */
    var freedInline: seq<Parked<Source>>

    constructor WithDeferredDrop()
      ensures sources == map[] && removed == [] && freedInline == []
    {
      sources, removed, freedInline := map[], [], [];
    }

    method DeferDrop(id: Id, source: Source)
      modifies this`removed, this`freedInline
      ensures (removed, freedInline) == Deferred(old(removed), old(freedInline), Parked(id, source))
    {
      if |removed| < REMOVED_CAPACITY {
        removed := removed + [Parked(id, source)];
      } else {
        freedInline := freedInline + [Parked(id, source)];
      }
    }

    method AddSource(id: Id, source: Source)
      modifies this
      ensures sources == old(sources)[id := source]
      ensures (removed, freedInline) == DeferredFrom(old(removed), old(freedInline), old(sources), id)
    {
      if id in sources {
        DeferDrop(id, sources[id]);
      }
      sources := sources[id := source];
    }

    method RemoveSource(id: Id)
      modifies this
      ensures sources == old(sources) - {id}
      ensures (removed, freedInline) == DeferredFrom(old(removed), old(freedInline), old(sources), id)
    {
      if id in sources {
        DeferDrop(id, sources[id]);
      }
      sources := sources - {id};
    }

    method ChangeSource(id: Id, change: Source -> Source)
      modifies this`sources
      ensures sources == ChangedAt(old(sources), id, change)
    {
      if id in sources {
        sources := sources[id := change(sources[id])];
      }
    }

    /** Lets one source add its samples. */
    method MixSource(id: Id, output: array<real>)
      requires id in sources
      modifies this`sources, output
      ensures sources == old(sources)[id := Advanced(old(sources)[id], output.Length)]
      ensures output[..] == MixedBy(old(sources)[id], old(output[..]))
    {
      var src := sources[id];
      AddInto(output, Channels(src), Emitted(src, output.Length));
      sources := sources[id := Advanced(src, output.Length)];
    }

    /**
      Whatever order the map is walked in, every sample is the clamped sum of all contributions and
      every source has advanced by the buffer.
     */
    method Mix(output: array<real>)
      modifies this`sources, output
      ensures sources == AdvancedAll(old(sources), src => Advanced(src, output.Length))
      ensures forall i :: 0 <= i < output.Length ==>
        output[i] == Clamp(Total(old(sources), old(sources).Keys, output.Length, i), -1.0, 1.0)
    {
      ghost var start, n := sources, output.Length;
      Fill(output, 0.0);
      var left := sources.Keys;
      assert start.Keys - left == {};
      while left != {}
        invariant left <= start.Keys == sources.Keys
        invariant forall id :: id in left ==> sources[id] == start[id]
        invariant forall id :: id in start.Keys - left ==> sources[id] == Advanced(start[id], n)
        invariant forall i :: 0 <= i < n ==> output[i] == Total(start, start.Keys - left, n, i)
        decreases left
      {
        var id :| id in left;
        ghost var now := output[..];
        MixSource(id, output);
        forall i | 0 <= i < n
          ensures output[i] == Total(start, start.Keys - (left - {id}), n, i)
        {
          assert output[..][i] == MixedBy(start[id], now)[i];
          var done := start.Keys - (left - {id});
          assert done - {id} == start.Keys - left;
          TotalAnyOrder(start, done, id, n, i);
        }
        left := left - {id};
      }
      assert start.Keys - left == start.Keys;
      ClampAll(output);
    }
  }

  method Fill(output: array<real>, value: real)
    modifies output
    ensures forall i :: 0 <= i < output.Length ==> output[i] == value
  {
    for i := 0 to output.Length
      invariant forall j :: 0 <= j < i ==> output[j] == value
    {
      output[i] := value;
    }
  }

  method AddInto(output: array<real>, channels: nat, emitted: seq<real>)
    requires channels > 0
    modifies output
    ensures output[..] == AddFrames(old(output[..]), channels, emitted)
  {
    for i := 0 to output.Length
      invariant forall j :: 0 <= j < i ==> output[j] == AddFrames(old(output[..]), channels, emitted)[j]
      invariant forall j :: i <= j < output.Length ==> output[j] == old(output[j])
    {
      output[i] := output[i] + ValueAt(emitted, i / channels);
    }
  }

  method ClampAll(output: array<real>)
    modifies output
    ensures forall i :: 0 <= i < output.Length ==> output[i] == Clamp(old(output[i]), -1.0, 1.0)
  {
    for i := 0 to output.Length
      invariant forall j :: 0 <= j < i ==> output[j] == Clamp(old(output[j]), -1.0, 1.0)
      invariant forall j :: i <= j < output.Length ==> output[j] == old(output[j])
    {
      output[i] := Clamp(output[i], -1.0, 1.0);
    }
  }
}
