/**
  The two bounded queues between the control threads and the audio thread.

  Operations travel to the audio thread over one ring; sources that the mixer lets go travel back over
  another, so that the audio thread does not free them. What a source is does not matter here: an
  operation that changes one is a function on sources, as the queued closures are.
 */
module SourceQueue {
  import opened Frames

  type Id = nat

  const OPS_CAPACITY: nat := 256
  const REMOVED_CAPACITY: nat := 256
  const OPS_PER_CALLBACK: nat := 32

  datatype Op<!S> = AddOp(id: Id, source: S) | RemoveOp(id: Id) | ChangeOp(id: Id, change: S -> S)

  /** A source that has left the mixer, with the identifier it was issued under. */
  datatype Parked<+S> = Parked(id: Id, source: S)

  datatype World<!S> = World(
    ops: seq<Op<S>>,
    sources: map<Id, S>,
    removed: seq<Parked<S>>,
    freedInline: seq<Parked<S>>,
    freed: seq<Parked<S>>,
    nextId: nat,
    issued: set<Id>,
    accepted: seq<Op<S>>,
    applied: seq<Op<S>>
  )

  function Opened<S>(nextId: nat): World<S> {
    World([], map[], [], [], [], nextId, {}, [], [])
  }

  // ---------------------------------------------------------------- control side

  function Drained<S>(w: World<S>): World<S> {
    w.(removed := [], freed := w.freed + w.removed)
  }

  /** A full queue drops the operation, and with it the source an addition carries. */
  function Pushed<S>(w: World<S>, op: Op<S>): World<S> {
    if |w.ops| < OPS_CAPACITY then w.(ops := w.ops + [op], accepted := w.accepted + [op])
    else if op.AddOp? then w.(freed := w.freed + [Parked(op.id, op.source)])
    else w
  }

  /** Takes an identifier and queues the addition; identifiers not issued here may belong to other streams. */
  function Added<S>(w: World<S>, id: Id, source: S): World<S> {
    Pushed(w.(nextId := Max(w.nextId, id + 1), issued := w.issued + {id}), AddOp(id, source))
  }

  /** Changing a source drains the ring of removed sources only for start, stop and restart. */
  datatype Call<!S> = Adding(source: S) | Removing(id: Id) | Changing(id: Id, change: S -> S, drains: bool)

  /** `skipped` identifiers have been taken by other streams of the process in the meantime. */
  function Called<S>(w: World<S>, call: Call<S>, skipped: nat): World<S> {
    match call
    case Adding(source) => Added(Drained(w), w.nextId + skipped, source)
    case Removing(id) => Pushed(Drained(w), RemoveOp(id))
    case Changing(id, change, drains) => Pushed(if drains then Drained(w) else w, ChangeOp(id, change))
  }

  // ---------------------------------------------------------------- audio side

  /** Hands a source to the ring; a full ring means it is freed on the spot. */
  function Deferred<S>(removed: seq<Parked<S>>, freedInline: seq<Parked<S>>, p: Parked<S>)
    : (seq<Parked<S>>, seq<Parked<S>>)
  {
    if |removed| < REMOVED_CAPACITY then (removed + [p], freedInline) else (removed, freedInline + [p])
  }

  function DeferredFrom<S>(removed: seq<Parked<S>>, freedInline: seq<Parked<S>>, sources: map<Id, S>, id: Id)
    : (seq<Parked<S>>, seq<Parked<S>>)
  {
    if id in sources then Deferred(removed, freedInline, Parked(id, sources[id])) else (removed, freedInline)
  }

  function ChangedAt<S>(sources: map<Id, S>, id: Id, change: S -> S): map<Id, S> {
    if id in sources then sources[id := change(sources[id])] else sources
  }

  function AdvancedAll<S>(sources: map<Id, S>, advance: S -> S): map<Id, S> {
    map id | id in sources :: advance(sources[id])
  }

  /** Applies the oldest operation. */
  function Applied<S>(w: World<S>): World<S>
    requires |w.ops| > 0
  {
    var u := w.(ops := w.ops[1..], applied := w.applied + [w.ops[0]]);
    match w.ops[0]
    case AddOp(id, source) =>
      var d := DeferredFrom(u.removed, u.freedInline, u.sources, id);
      u.(sources := u.sources[id := source], removed := d.0, freedInline := d.1)
    case RemoveOp(id) =>
      var d := DeferredFrom(u.removed, u.freedInline, u.sources, id);
      u.(sources := u.sources - {id}, removed := d.0, freedInline := d.1)
    case ChangeOp(id, change) => u.(sources := ChangedAt(u.sources, id, change))
  }

  function AppliedMany<S>(w: World<S>, n: nat): World<S>
    decreases |w.ops|
  {
    if n == 0 || |w.ops| == 0 then w else AppliedMany(Applied(w), n - 1)
  }

  /** One callback: a bounded number of operations, and then every source plays the buffer. */
  function CalledBack<S>(w: World<S>, advance: S -> S): World<S> {
    var u := AppliedMany(w, OPS_PER_CALLBACK);
    u.(sources := AdvancedAll(u.sources, advance))
  }

  // ---------------------------------------------------------------- what every run keeps

  function Removals<S>(ops: seq<Op<S>>): nat {
    if ops == [] then 0 else (if ops[0].RemoveOp? then 1 else 0) + Removals(ops[1..])
  }

  function ParkedCopies<S>(parked: seq<Parked<S>>, id: Id): nat {
    if parked == [] then 0 else (if parked[0].id == id then 1 else 0) + ParkedCopies(parked[1..], id)
  }

  /** How often a source waits in an addition. */
  function WaitingCopies<S>(ops: seq<Op<S>>, id: Id): nat {
    if ops == [] then 0
    else (if ops[0].AddOp? && ops[0].id == id then 1 else 0) + WaitingCopies(ops[1..], id)
  }

  /** In how many places a source is: queue, mixer, ring of removed sources, freed on either side. */
  function Copies<S>(w: World<S>, id: Id): nat {
    WaitingCopies(w.ops, id) + (if id in w.sources then 1 else 0) + ParkedCopies(w.removed, id)
      + ParkedCopies(w.freed, id) + ParkedCopies(w.freedInline, id)
  }

  /** The ring has room for everything that may still be removed, and nothing was freed inline. */
  ghost predicate Bounded<S>(w: World<S>) {
    && |w.ops| <= OPS_CAPACITY
    && Removals(w.ops) + |w.removed| <= REMOVED_CAPACITY
    && w.freedInline == []
  }

  /** Accepted operations are applied in the order of their acceptance. */
  ghost predicate Ordered<S>(w: World<S>) {
    w.accepted == w.applied + w.ops
  }

  /** Every source passed in is in exactly one place. */
  ghost predicate Conserved<S>(w: World<S>) {
    && (forall id :: id in w.issued ==> id < w.nextId)
    && forall id: Id :: Copies(w, id) == if id in w.issued then 1 else 0
  }

  ghost predicate Invariant<S>(w: World<S>) {
    Bounded(w) && Ordered(w) && Conserved(w)
  }

  lemma {:induction false} RemovalsAppend<S>(ops: seq<Op<S>>, op: Op<S>)
    ensures Removals(ops + [op]) == Removals(ops) + if op.RemoveOp? then 1 else 0
  {
    if ops == [] {
      assert ops + [op] == [op];
    } else {
      assert (ops + [op])[1..] == ops[1..] + [op];
      RemovalsAppend(ops[1..], op);
    }
  }

  lemma {:induction false} WaitingAppend<S>(ops: seq<Op<S>>, op: Op<S>, id: Id)
    ensures WaitingCopies(ops + [op], id) == WaitingCopies(ops, id) + if op.AddOp? && op.id == id then 1 else 0
  {
    if ops == [] {
      assert ops + [op] == [op];
    } else {
      assert (ops + [op])[1..] == ops[1..] + [op];
      WaitingAppend(ops[1..], op, id);
    }
  }

  lemma {:induction false} RemovalsBound<S>(ops: seq<Op<S>>)
    ensures Removals(ops) <= |ops|
  {
    if ops != [] {
      RemovalsBound(ops[1..]);
    }
  }

  lemma {:induction false} ParkedConcat<S>(a: seq<Parked<S>>, b: seq<Parked<S>>, id: Id)
    ensures ParkedCopies(a + b, id) == ParkedCopies(a, id) + ParkedCopies(b, id)
  {
    if a == [] {
      assert a + b == b;
    } else {
      assert (a + b)[1..] == a[1..] + b;
      ParkedConcat(a[1..], b, id);
    }
  }

  lemma DrainedConserves<S>(w: World<S>)
    requires Conserved(w)
    ensures Conserved(Drained(w))
  {
    forall id: Id
      ensures Copies(Drained(w), id) == Copies(w, id)
    {
      ParkedConcat(w.freed, w.removed, id);
    }
  }

  lemma PushedConserves<S>(w: World<S>, op: Op<S>)
    requires Conserved(w) && !op.AddOp?
    ensures Conserved(Pushed(w, op))
  {
    forall id: Id
      ensures Copies(Pushed(w, op), id) == Copies(w, id)
    {
      WaitingAppend(w.ops, op, id);
    }
  }

  lemma AddedConserves<S>(w: World<S>, id: Id, source: S)
    requires Conserved(w) && id !in w.issued
    ensures Conserved(Added(w, id, source))
  {
    forall other: Id
      ensures Copies(Added(w, id, source), other) == Copies(w, other) + if other == id then 1 else 0
    {
      WaitingAppend(w.ops, AddOp(id, source), other);
      ParkedConcat(w.freed, [Parked(id, source)], other);
    }
  }

  lemma DrainedKeeps<S>(w: World<S>)
    requires Invariant(w)
    ensures Invariant(Drained(w)) && Drained(w).removed == []
  {
    DrainedConserves(w);
  }

  /** A push keeps everything as long as a removal finds the ring empty. */
  lemma PushedKeeps<S>(w: World<S>, op: Op<S>)
    requires Invariant(w) && !op.AddOp? && (op.RemoveOp? ==> w.removed == [])
    ensures Invariant(Pushed(w, op))
  {
    var t := Pushed(w, op);
    assert Conserved(t) by {
      PushedConserves(w, op);
    }
    assert Bounded(t) by {
      RemovalsAppend(w.ops, op);
      RemovalsBound(w.ops + [op]);
    }
    assert Ordered(t) by {
      assert w.applied + (w.ops + [op]) == w.applied + w.ops + [op];
    }
  }

  lemma AddedKeeps<S>(w: World<S>, id: Id, source: S)
    requires Invariant(w) && id !in w.issued
    ensures Invariant(Added(w, id, source))
  {
    var t, op := Added(w, id, source), AddOp(id, source);
    assert Conserved(t) by {
      AddedConserves(w, id, source);
    }
    assert Bounded(t) by {
      RemovalsAppend(w.ops, op);
    }
    assert Ordered(t) by {
      assert w.applied + (w.ops + [op]) == w.applied + w.ops + [op];
    }
  }

  lemma CalledKeeps<S>(w: World<S>, call: Call<S>, skipped: nat)
    requires Invariant(w)
    ensures Invariant(Called(w, call, skipped))
  {
    DrainedKeeps(w);
    match call {
      case Adding(source) => AddedKeeps(Drained(w), w.nextId + skipped, source);
      case Removing(id) => PushedKeeps(Drained(w), RemoveOp(id));
      case Changing(id, change, drains) => PushedKeeps(if drains then Drained(w) else w, ChangeOp(id, change));
    }
  }

  /** A source that waits in the queue is not in the mixer yet, so no addition replaces another. */
  lemma NotYetMixed<S>(w: World<S>)
    requires Conserved(w) && |w.ops| > 0 && w.ops[0].AddOp?
    ensures w.ops[0].id !in w.sources
  {
    assert Copies(w, w.ops[0].id) <= 1;
  }

  lemma DeferredCopies<S>(removed: seq<Parked<S>>, freedInline: seq<Parked<S>>, p: Parked<S>, id: Id)
    ensures var d := Deferred(removed, freedInline, p);
      ParkedCopies(d.0, id) + ParkedCopies(d.1, id)
        == ParkedCopies(removed, id) + ParkedCopies(freedInline, id) + if p.id == id then 1 else 0
  {
    ParkedConcat(removed, [p], id);
    ParkedConcat(freedInline, [p], id);
  }

  /** No operation loses or duplicates a source, not even one that finds the ring full. */
  lemma AppliedCopies<S>(w: World<S>, id: Id)
    requires |w.ops| > 0 && (w.ops[0].AddOp? ==> w.ops[0].id !in w.sources)
    ensures Copies(Applied(w), id) == Copies(w, id)
  {
    var op := w.ops[0];
    if op.RemoveOp? && op.id in w.sources {
      DeferredCopies(w.removed, w.freedInline, Parked(op.id, w.sources[op.id]), id);
    }
  }

  lemma AppliedConserves<S>(w: World<S>)
    requires Conserved(w) && |w.ops| > 0
    ensures Conserved(Applied(w))
  {
    if w.ops[0].AddOp? {
      NotYetMixed(w);
    }
    forall id: Id
      ensures Copies(Applied(w), id) == Copies(w, id)
    {
      AppliedCopies(w, id);
    }
    AppliedFields(w);
  }

  /** Pending removals and occupied slots together never grow when an operation is applied. */
  lemma AppliedLoad<S>(w: World<S>)
    requires |w.ops| > 0 && (w.ops[0].AddOp? ==> w.ops[0].id !in w.sources)
    ensures Removals(Applied(w).ops) + |Applied(w).removed| <= Removals(w.ops) + |w.removed|
    ensures w.freedInline == [] && Removals(w.ops) + |w.removed| <= REMOVED_CAPACITY ==> Applied(w).freedInline == []
  {
  }

  lemma AppliedKeeps<S>(w: World<S>)
    requires Invariant(w) && |w.ops| > 0
    ensures Invariant(Applied(w))
  {
    var t := Applied(w);
    assert Conserved(t) by {
      AppliedConserves(w);
    }
    assert Bounded(t) by {
      if w.ops[0].AddOp? {
        NotYetMixed(w);
      }
      AppliedLoad(w);
      AppliedFields(w);
    }
    assert Ordered(t) by {
      AppliedFields(w);
      assert w.applied + w.ops == w.applied + [w.ops[0]] + w.ops[1..];
    }
  }

  lemma AppliedFields<S>(w: World<S>)
    requires |w.ops| > 0
    ensures var t := Applied(w);
      && t.ops == w.ops[1..] && t.applied == w.applied + [w.ops[0]] && t.accepted == w.accepted
      && t.issued == w.issued && t.nextId == w.nextId
  {
  }

  lemma {:induction false} AppliedManyKeeps<S>(w: World<S>, n: nat)
    requires Invariant(w)
    ensures Invariant(AppliedMany(w, n))
    decreases n
  {
    if n > 0 && |w.ops| > 0 {
      AppliedKeeps(w);
      AppliedManyKeeps(Applied(w), n - 1);
    }
  }

  lemma {:induction false} AppliedInOrder<S>(w: World<S>, n: nat)
    ensures var k := Min(n, |w.ops|);
      AppliedMany(w, n).applied == w.applied + w.ops[..k] && AppliedMany(w, n).ops == w.ops[k..]
    decreases n
  {
    if n > 0 && |w.ops| > 0 {
      var u, k := Applied(w), Min(n, |w.ops|);
      AppliedFields(w);
      AppliedInOrder(u, n - 1);
      assert AppliedMany(w, n) == AppliedMany(u, n - 1);
      assert Min(n - 1, |u.ops|) == k - 1;
      assert w.ops[..k] == [w.ops[0]] + w.ops[1..][..k - 1];
      assert w.ops[1..][k - 1..] == w.ops[k..];
    }
  }

  /** The sources after one operation on them. */
  function AppliedTo<S>(sources: map<Id, S>, op: Op<S>): map<Id, S> {
    match op
    case AddOp(id, source) => sources[id := source]
    case RemoveOp(id) => sources - {id}
    case ChangeOp(id, change) => ChangedAt(sources, id, change)
  }

  /** An operation behind the pending ones works on the sources as these leave them. */
  lemma {:induction false} LastApplied<S>(w: World<S>, v: World<S>, op: Op<S>, n: nat)
    requires v.ops == w.ops + [op] && v.sources == w.sources && |w.ops| < n
    ensures AppliedMany(v, n).sources == AppliedTo(AppliedMany(w, n).sources, op)
    decreases |w.ops|
  {
    var u := Applied(v);
    assert AppliedMany(v, n) == AppliedMany(u, n - 1);
    if w.ops == [] {
      assert u.ops == [] && AppliedMany(u, n - 1) == u;
    } else {
      assert u.ops == w.ops[1..] + [op];
      LastApplied(Applied(w), u, op, n - 1);
    }
  }

  lemma CallPushes<S>(w: World<S>, call: Call<S>, skipped: nat) returns (op: Op<S>)
    requires |w.ops| < OPS_CAPACITY
    ensures Called(w, call, skipped).ops == w.ops + [op] && Called(w, call, skipped).sources == w.sources
    ensures call.Adding? ==> op == AddOp(w.nextId + skipped, call.source)
    ensures call.Removing? ==> op == RemoveOp(call.id)
    ensures call.Changing? ==> op == ChangeOp(call.id, call.change)
  {
    op := match call
      case Adding(source) => AddOp(w.nextId + skipped, source)
      case Removing(id) => RemoveOp(id)
      case Changing(id, change, _) => ChangeOp(id, change);
  }

  /**
    A control call that finds room among the `n` operations of the next callback takes effect in it: a
    source that is added is in the mixer, one that is removed is not, one that is changed has changed.
   */
  lemma CallTakesEffect<S>(w: World<S>, call: Call<S>, skipped: nat, n: nat)
    requires |w.ops| < n <= OPS_CAPACITY
    ensures var before, after := AppliedMany(w, n).sources, AppliedMany(Called(w, call, skipped), n).sources;
      && (call.Adding? ==> after == before[w.nextId + skipped := call.source])
      && (call.Removing? ==> after == before - {call.id})
      && (call.Changing? && call.id in before ==> after == before[call.id := call.change(before[call.id])])
      && (call.Changing? && call.id !in before ==> after == before)
  {
    var op := CallPushes(w, call, skipped);
    LastApplied(w, Called(w, call, skipped), op, n);
  }

  /** A callback applies the oldest min(32, pending) operations in order and frees nothing itself. */
  lemma CalledBackKeeps<S>(w: World<S>, advance: S -> S)
    requires Invariant(w)
    ensures var t := CalledBack(w, advance);
      var k := Min(OPS_PER_CALLBACK, |w.ops|);
      Invariant(t) && t.ops == w.ops[k..] && t.applied == w.applied + w.ops[..k]
  {
    AppliedManyKeeps(w, OPS_PER_CALLBACK);
    AppliedInOrder(w, OPS_PER_CALLBACK);
    var u := AppliedMany(w, OPS_PER_CALLBACK);
    var t := CalledBack(w, advance);
    assert forall id: Id :: Copies(t, id) == Copies(u, id);
  }

  datatype Event<!S> = Control(call: Call<S>, skipped: nat) | Callback(advance: S -> S)

  ghost predicate Next<S>(w: World<S>, e: Event<S>, t: World<S>) {
    match e
    case Control(call, skipped) => t == Called(w, call, skipped)
    case Callback(advance) => t == CalledBack(w, advance)
  }

  ghost predicate IsRun<S>(trace: seq<World<S>>, events: seq<Event<S>>) {
    && |trace| == |events| + 1
    && trace[0] == Opened(trace[0].nextId)
    && forall i :: 0 <= i < |events| ==> Next(trace[i], events[i], trace[i + 1])
  }

  /**
    In every run: pending removals and waiting removed sources fit the ring together, so the audio
    thread never frees a source; accepted operations are applied in order; and every source ever
    passed in is in exactly one place.
   */
  lemma {:induction false} EveryRun<S>(trace: seq<World<S>>, events: seq<Event<S>>, i: nat)
    requires IsRun(trace, events) && i < |trace|
    ensures Invariant(trace[i])
    decreases i
  {
    if i > 0 {
      EveryRun(trace, events, i - 1);
      assert Next(trace[i - 1], events[i - 1], trace[i]);
      match events[i - 1] {
        case Control(call, skipped) => CalledKeeps(trace[i - 1], call, skipped);
        case Callback(advance) => CalledBackKeeps(trace[i - 1], advance);
      }
    }
  }
}
