/**
  The playback stream as written: every control call queues a closure for the audio thread, and the
  audio callback runs a bounded number of them before it mixes. Each method is proved to be one step of
  the queue protocol, so what holds in every run of the protocol holds for the stream.
 */
module Playback {
  import opened Frames
  import opened SourceQueue
  import opened Mixer

  class PlaybackStream {
    const mixer: SourceMixer
    var ops: seq<Op<Source>>
    /** Process-wide: other streams may take identifiers between two calls. */
    var nextId: nat
    ghost var freed: seq<Parked<Source>>
    ghost var issued: set<Id>
    ghost var accepted: seq<Op<Source>>
    ghost var applied: seq<Op<Source>>

    ghost function Snapshot(): World<Source>
      reads this, mixer
    {
      World(ops, mixer.sources, mixer.removed, mixer.freedInline, freed, nextId, issued, accepted, applied)
    }

    constructor (firstId: nat)
      ensures Snapshot() == Opened(firstId) && fresh(mixer)
    {
      mixer := new SourceMixer.WithDeferredDrop();
      ops, nextId, freed, issued, accepted, applied := [], firstId, [], {}, [], [];
    }

    /** Frees what the audio callback handed back. */
    method DrainRemovedSources()
      modifies this`freed, mixer`removed
      ensures Snapshot() == Drained(old(Snapshot()))
    {
      while |mixer.removed| > 0
        invariant freed + mixer.removed == old(freed) + old(mixer.removed)
        decreases |mixer.removed|
      {
        freed := freed + [mixer.removed[0]];
        mixer.removed := mixer.removed[1..];
      }
      assert freed + [] == freed;
    }

    method TryPush(op: Op<Source>)
      modifies this`ops, this`accepted, this`freed
      ensures Snapshot() == Pushed(old(Snapshot()), op)
    {
      if |ops| < OPS_CAPACITY {
        ops := ops + [op];
        accepted := accepted + [op];
      } else if op.AddOp? {
        freed := freed + [Parked(op.id, op.source)];
      }
    }

    method AddAudioSource(source: Source, skipped: nat) returns (id: Id)
      modifies this, mixer
      ensures Snapshot() == Called(old(Snapshot()), Adding(source), skipped)
      ensures id == old(nextId) + skipped
    {
      DrainRemovedSources();
      id := nextId + skipped;
      nextId := id + 1;
      issued := issued + {id};
      TryPush(AddOp(id, source));
    }

    method RemoveAudioSource(id: Id)
      modifies this, mixer
      ensures Snapshot() == Called(old(Snapshot()), Removing(id), 0)
    {
      DrainRemovedSources();
      TryPush(RemoveOp(id));
    }

    /** Start, stop and restart, by the change they queue. */
    method Play(id: Id, change: Change) returns (ghost effect: Source -> Source)
      requires change.Starting? || change.Stopping? || change.Restarting?
      modifies this, mixer
      ensures forall src: Source :: effect(src) == Changed(src, change)
      ensures Snapshot() == Called(old(Snapshot()), Changing(id, effect, true), 0)
    {
      DrainRemovedSources();
      var closure := (src: Source) => Changed(src, change);
      effect := closure;
      TryPush(ChangeOp(id, closure));
    }

    /** Volume, skip and rewind leave the ring of removed sources alone. */
    method Adjust(id: Id, change: Change) returns (ghost effect: Source -> Source)
      requires change.Volume? || change.Skipping? || change.Rewinding?
      modifies this, mixer
      ensures forall src: Source :: effect(src) == Changed(src, change)
      ensures Snapshot() == Called(old(Snapshot()), Changing(id, effect, false), 0)
    {
      var closure := (src: Source) => Changed(src, change);
      effect := closure;
      TryPush(ChangeOp(id, closure));
    }

    method ApplyNext()
      requires |ops| > 0
      modifies this`ops, this`applied, mixer
      ensures Snapshot() == Applied(old(Snapshot()))
    {
      var op := ops[0];
      ops := ops[1..];
      applied := applied + [op];
      match op {
        case AddOp(id, source) => mixer.AddSource(id, source);
        case RemoveOp(id) => mixer.RemoveSource(id);
        case ChangeOp(id, change) => mixer.ChangeSource(id, change);
      }
    }

    method ApplySome()
      modifies this`ops, this`applied, mixer
      ensures Snapshot() == AppliedMany(old(Snapshot()), OPS_PER_CALLBACK)
    {
      ghost var w := Snapshot();
      var n := 0;
      while n < OPS_PER_CALLBACK && |ops| > 0
        invariant n <= OPS_PER_CALLBACK
        invariant AppliedMany(Snapshot(), OPS_PER_CALLBACK - n) == AppliedMany(w, OPS_PER_CALLBACK)
        decreases OPS_PER_CALLBACK - n
      {
        ApplyNext();
        n := n + 1;
      }
    }

    /** The audio callback: at most 32 operations, oldest first, and then the clamped sum of all sources. */
    method DataCallback(output: array<real>)
      modifies this`ops, this`applied, mixer, output
      ensures Snapshot() == CalledBack(old(Snapshot()), src => Advanced(src, output.Length))
      ensures var mixed := AppliedMany(old(Snapshot()), OPS_PER_CALLBACK).sources;
        forall i :: 0 <= i < output.Length ==>
          output[i] == Clamp(Total(mixed, mixed.Keys, output.Length, i), -1.0, 1.0)
    {
      ApplySome();
      mixer.Mix(output);
    }
  }
}
