/**
  The hand-back bound when the drain and the push of a control call are two steps.

  A callback may run between them, and another addition between taking an identifier and its push. Then
  the bound is looser by the number of calls that overlap, and one overlapping call is enough for the
  audio thread to free a source itself: as many as the pending operations hand back beyond the ring.
 */
module HandbackOverlap {
  import opened Frames
  import opened SourceQueue

  /** `open` calls have drained the ring and not yet pushed their operation. */
  datatype Split<!S> = Split(world: World<S>, open: nat)

  datatype Step<!S> =
    | Begin
    | FinishAdd(id: Id, source: S)
    | Finish(op: Op<S>)
    | Quick(op: Op<S>)
    | Audio(advance: S -> S)

  /** `limit` is the number of control calls that may overlap. */
  ghost predicate Next<S>(s: Split<S>, e: Step<S>, t: Split<S>, limit: nat) {
    match e
    case Begin => s.open < limit && t == Split(Drained(s.world), s.open + 1)
    case FinishAdd(id, source) =>
      s.open > 0 && id !in s.world.issued && t == Split(Added(s.world, id, source), s.open - 1)
    case Finish(op) => s.open > 0 && !op.AddOp? && t == Split(Pushed(s.world, op), s.open - 1)
    case Quick(op) => op.ChangeOp? && t == Split(Pushed(s.world, op), s.open)
    case Audio(advance) => t == Split(CalledBack(s.world, advance), s.open)
  }

  function Load<S>(w: World<S>): nat {
    Removals(w.ops) + |w.removed|
  }

  ghost predicate Within<S>(s: Split<S>, limit: nat) {
    && s.open <= limit
    && |s.world.ops| <= OPS_CAPACITY
    && |s.world.removed| <= REMOVED_CAPACITY
    && Load(s.world) + s.open <= REMOVED_CAPACITY + limit
    && Conserved(s.world)
  }

  lemma {:induction false} AppliedManyWithin<S>(w: World<S>, n: nat)
    requires Conserved(w)
    ensures Conserved(AppliedMany(w, n)) && Load(AppliedMany(w, n)) <= Load(w)
    ensures |AppliedMany(w, n).ops| <= |w.ops|
    ensures |w.removed| <= REMOVED_CAPACITY ==> |AppliedMany(w, n).removed| <= REMOVED_CAPACITY
    decreases n
  {
    if n > 0 && |w.ops| > 0 {
      var u := Applied(w);
      assert Conserved(u) by {
        AppliedConserves(w);
      }
      assert Load(u) <= Load(w) && |u.ops| == |w.ops| - 1 by {
        if w.ops[0].AddOp? {
          NotYetMixed(w);
        }
        AppliedLoad(w);
        AppliedFields(w);
      }
      AppliedManyWithin(u, n - 1);
    }
  }

  lemma AddedWithin<S>(s: Split<S>, id: Id, source: S, limit: nat)
    requires Within(s, limit) && s.open > 0 && id !in s.world.issued
    ensures Within(Split(Added(s.world, id, source), s.open - 1), limit)
  {
    RemovalsAppend(s.world.ops, AddOp(id, source));
    AddedConserves(s.world, id, source);
  }

  lemma PushedWithin<S>(s: Split<S>, op: Op<S>, open: nat, limit: nat)
    requires Within(s, limit) && !op.AddOp? && open + (if op.RemoveOp? then 1 else 0) <= s.open
    ensures Within(Split(Pushed(s.world, op), open), limit)
  {
    RemovalsAppend(s.world.ops, op);
    PushedConserves(s.world, op);
  }

  lemma AudioWithin<S>(s: Split<S>, advance: S -> S, limit: nat)
    requires Within(s, limit)
    ensures Within(Split(CalledBack(s.world, advance), s.open), limit)
  {
    AppliedManyWithin(s.world, OPS_PER_CALLBACK);
    var u, t := AppliedMany(s.world, OPS_PER_CALLBACK), CalledBack(s.world, advance);
    assert forall id: Id :: Copies(t, id) == Copies(u, id);
  }

  lemma BeginWithin<S>(s: Split<S>, limit: nat)
    requires Within(s, limit) && s.open < limit
    ensures Within(Split(Drained(s.world), s.open + 1), limit)
  {
    RemovalsBound(s.world.ops);
    DrainedConserves(s.world);
  }

  lemma NextWithin<S>(s: Split<S>, e: Step<S>, t: Split<S>, limit: nat)
    requires Within(s, limit) && Next(s, e, t, limit)
    ensures Within(t, limit)
  {
    match e {
      case Begin => BeginWithin(s, limit);
      case FinishAdd(id, source) => AddedWithin(s, id, source, limit);
      case Finish(op) => PushedWithin(s, op, s.open - 1, limit);
      case Quick(op) => PushedWithin(s, op, s.open, limit);
      case Audio(advance) => AudioWithin(s, advance, limit);
    }
  }

  ghost predicate IsRun<S>(trace: seq<Split<S>>, steps: seq<Step<S>>, limit: nat) {
    && |trace| == |steps| + 1
    && trace[0] == Split(Opened(trace[0].world.nextId), 0)
    && forall i :: 0 <= i < |steps| ==> Next(trace[i], steps[i], trace[i + 1], limit)
  }

  /** With `limit` overlapping calls the load exceeds the ring by at most `limit`; nothing is ever lost. */
  lemma {:induction false} OverlapBound<S>(trace: seq<Split<S>>, steps: seq<Step<S>>, limit: nat, i: nat)
    requires IsRun(trace, steps, limit) && i < |trace|
    ensures Load(trace[i].world) <= REMOVED_CAPACITY + limit && Conserved(trace[i].world)
    ensures Within(trace[i], limit)
    decreases i
  {
    if i > 0 {
      OverlapBound(trace, steps, limit, i - 1);
      assert Next(trace[i - 1], steps[i - 1], trace[i], limit);
      NextWithin(trace[i - 1], steps[i - 1], trace[i], limit);
    }
  }

  // ---------------------------------------------------------------- what is freed inline, exactly

  /** The sources in the mixer after one operation, for those in it now. */
  function KeysNext<S>(op: Op<S>, keys: set<Id>): set<Id> {
    match op
    case AddOp(id, _) => keys + {id}
    case RemoveOp(id) => keys - {id}
    case ChangeOp(_, _) => keys
  }

  function KeysAfter<S>(ops: seq<Op<S>>, keys: set<Id>): set<Id> {
    if ops == [] then keys else KeysAfter(ops[1..], KeysNext(ops[0], keys))
  }

  /** Pending removals that will find their source. */
  function Handbacks<S>(ops: seq<Op<S>>, keys: set<Id>): nat {
    if ops == [] then 0
    else (if ops[0].RemoveOp? && ops[0].id in keys then 1 else 0) + Handbacks(ops[1..], KeysNext(ops[0], keys))
  }

  function Due<S>(w: World<S>): nat {
    |w.removed| + Handbacks(w.ops, w.sources.Keys)
  }

  /** Sources freed inline once everything pending is applied and nobody drains the ring. */
  function FreedInTheEnd<S>(w: World<S>): nat {
    |w.freedInline| + Max(0, Due(w) - REMOVED_CAPACITY)
  }

  /** Applying operations leaves alone what they will lead to. */
  ghost predicate SameFate<S>(w: World<S>, t: World<S>) {
    && KeysAfter(t.ops, t.sources.Keys) == KeysAfter(w.ops, w.sources.Keys)
    && |t.freedInline| + Due(t) == |w.freedInline| + Due(w)
    && FreedInTheEnd(t) == FreedInTheEnd(w)
  }

  ghost predicate Fits<S>(w: World<S>) {
    Conserved(w) && |w.removed| <= REMOVED_CAPACITY
  }

  lemma AppliedFate<S>(w: World<S>)
    requires Fits(w) && |w.ops| > 0
    ensures Fits(Applied(w)) && SameFate(w, Applied(w))
  {
    var u := Applied(w);
    AppliedConserves(w);
    AppliedFields(w);
    if w.ops[0].AddOp? {
      NotYetMixed(w);
    }
    assert u.sources.Keys == KeysNext(w.ops[0], w.sources.Keys);
  }

  lemma {:induction false} AppliedManyFate<S>(w: World<S>, n: nat)
    requires Fits(w)
    ensures Fits(AppliedMany(w, n)) && SameFate(w, AppliedMany(w, n))
    decreases n
  {
    if n > 0 && |w.ops| > 0 {
      AppliedFate(w);
      AppliedManyFate(Applied(w), n - 1);
    }
  }

  lemma CalledBackFate<S>(w: World<S>, advance: S -> S)
    requires Fits(w)
    ensures var t := CalledBack(w, advance);
      Fits(t) && SameFate(w, t) && |t.ops| == Max(0, |w.ops| - OPS_PER_CALLBACK)
  {
    AppliedManyFate(w, OPS_PER_CALLBACK);
    AppliedInOrder(w, OPS_PER_CALLBACK);
    var u, t := AppliedMany(w, OPS_PER_CALLBACK), CalledBack(w, advance);
    assert forall id: Id :: Copies(t, id) == Copies(u, id);
    assert t.sources.Keys == u.sources.Keys;
  }

  /** `k` callbacks in a row. */
  function Callbacks<S>(w: World<S>, advance: S -> S, k: nat): World<S>
    decreases k
  {
    if k == 0 then w else Callbacks(CalledBack(w, advance), advance, k - 1)
  }

  /** Callbacks that empty the queue free exactly the hand-backs that exceed the ring. */
  lemma {:induction false} FreedExactly<S>(w: World<S>, advance: S -> S, k: nat)
    requires Fits(w) && |w.ops| <= k * OPS_PER_CALLBACK
    ensures var t := Callbacks(w, advance, k);
      t.ops == [] && |t.freedInline| == |w.freedInline| + Max(0, Due(w) - REMOVED_CAPACITY)
    decreases k
  {
    if k > 0 {
      CalledBackFate(w, advance);
      FreedExactly(CalledBack(w, advance), advance, k - 1);
    }
  }

  /** The audio thread frees nothing of what is pending exactly when all hand-backs fit the ring. */
  lemma NothingFreedIff<S>(w: World<S>, advance: S -> S, k: nat)
    requires Fits(w) && |w.ops| <= k * OPS_PER_CALLBACK
    ensures Callbacks(w, advance, k).freedInline == w.freedInline <==> Due(w) <= REMOVED_CAPACITY
  {
    FreedExactly(w, advance, k);
    FreedGrows(w, advance, k);
  }

  lemma {:induction false} FreedGrowsMany<S>(w: World<S>, n: nat)
    ensures w.freedInline <= AppliedMany(w, n).freedInline
    decreases n
  {
    if n > 0 && |w.ops| > 0 {
      FreedGrowsMany(Applied(w), n - 1);
    }
  }

  lemma {:induction false} FreedGrows<S>(w: World<S>, advance: S -> S, k: nat)
    ensures w.freedInline <= Callbacks(w, advance, k).freedInline
    decreases k
  {
    if k > 0 {
      FreedGrowsMany(w, OPS_PER_CALLBACK);
      FreedGrows(CalledBack(w, advance), advance, k - 1);
    }
  }

  lemma {:induction false} FateAppend<S>(ops: seq<Op<S>>, keys: set<Id>, id: Id)
    ensures var all := ops + [RemoveOp(id)];
      && KeysAfter(all, keys) == KeysAfter(ops, keys) - {id}
      && Handbacks(all, keys) == Handbacks(ops, keys) + if id in KeysAfter(ops, keys) then 1 else 0
    decreases |ops|
  {
    var all := ops + [RemoveOp(id)];
    if ops == [] {
      assert all[1..] == [];
    } else {
      assert all[1..] == ops[1..] + [RemoveOp(id)];
      FateAppend(ops[1..], KeysNext(ops[0], keys), id);
    }
  }

  /**
    The push of a removal costs the audio thread one more source exactly when it is accepted, finds its
    source, and the hand-backs before it already fill the ring.
   */
  lemma RemovalFreesIff<S>(w: World<S>, id: Id)
    ensures FreedInTheEnd(Pushed(w, RemoveOp(id))) == FreedInTheEnd(w) + if
      |w.ops| < OPS_CAPACITY && id in KeysAfter(w.ops, w.sources.Keys) && Due(w) >= REMOVED_CAPACITY then 1 else 0
  {
    FateAppend(w.ops, w.sources.Keys, id);
  }

  // ---------------------------------------------------------------- one overlapping call is enough

  ghost predicate Reachable<S(!new)>(s: Split<S>, limit: nat) {
    exists trace: seq<Split<S>>, steps: seq<Step<S>> :: IsRun(trace, steps, limit) && trace[|steps|] == s
  }

  lemma ReachableNext<S(!new)>(s: Split<S>, e: Step<S>, t: Split<S>, limit: nat)
    requires Reachable(s, limit) && Next(s, e, t, limit)
    ensures Reachable(t, limit)
  {
    var trace: seq<Split<S>>, steps: seq<Step<S>> :| IsRun(trace, steps, limit) && trace[|steps|] == s;
    var longer, more := trace + [t], steps + [e];
    forall i | 0 <= i < |more|
      ensures Next(longer[i], more[i], longer[i + 1], limit)
    {
      if i < |steps| {
        assert Next(trace[i], steps[i], trace[i + 1], limit);
      }
    }
    assert IsRun(longer, more, limit);
  }

  lemma ReachableFits<S(!new)>(s: Split<S>, limit: nat)
    requires Reachable(s, limit)
    ensures Within(s, limit) && Fits(s.world)
  {
    var trace: seq<Split<S>>, steps: seq<Step<S>> :| IsRun(trace, steps, limit) && trace[|steps|] == s;
    OverlapBound(trace, steps, limit, |steps|);
  }

  lemma {:induction false} ReachableCallbacks<S(!new)>(s: Split<S>, advance: S -> S, k: nat, limit: nat)
    requires Reachable(s, limit)
    ensures Reachable(Split(Callbacks(s.world, advance, k), s.open), limit)
    decreases k
  {
    if k > 0 {
      var t := Split(CalledBack(s.world, advance), s.open);
      ReachableNext(s, Audio(advance), t, limit);
      ReachableCallbacks(t, advance, k - 1, limit);
    }
  }

  /** Sources 0 to n - 1 are in the mixer, nothing was removed yet, and this is all the stream has seen. */
  ghost predicate Holding(w: World<int>, n: nat) {
    && (forall id: Id :: id in w.sources <==> id < n)
    && (forall id: Id :: id in w.issued ==> id < n)
    && w.removed == [] && w.freedInline == []
  }

  lemma OneAdded(w: World<int>, n: nat, advance: int -> int)
    requires Holding(w, n) && w.ops == []
    ensures var t := CalledBack(Added(w, n, 0), advance);
      Holding(t, n + 1) && t.ops == []
  {
    var u := Added(w, n, 0);
    assert u.ops == [AddOp(n, 0)];
    var v := Applied(u);
    assert v.ops == [];
    assert AppliedMany(u, OPS_PER_CALLBACK) == AppliedMany(v, OPS_PER_CALLBACK - 1) == v;
  }

  lemma FilledStep(r: Split<int>, n: nat) returns (s: Split<int>)
    requires Reachable(r, 1) && r.open == 0 && r.world.ops == [] && Holding(r.world, n)
    ensures Reachable(s, 1) && s.open == 0 && s.world.ops == [] && Holding(s.world, n + 1)
  {
    var d := Drained(r.world);
    var a := Added(d, n, 0);
    var advance := (x: int) => x;
    OneAdded(d, n, advance);
    s := Split(CalledBack(a, advance), 0);
    ReachableNext(r, Begin, Split(d, 1), 1);
    ReachableNext(Split(d, 1), FinishAdd(n, 0), Split(a, 0), 1);
    ReachableNext(Split(a, 0), Audio(advance), s, 1);
  }

  /** Any number of sources can be added, one callback after each. */
  lemma {:induction false} Filled(n: nat) returns (s: Split<int>)
    ensures Reachable(s, 1) && s.open == 0 && s.world.ops == [] && Holding(s.world, n)
    decreases n
  {
    if n == 0 {
      s := Split(Opened(0), 0);
      var trace, steps: seq<Step<int>> := [s], [];
      assert IsRun(trace, steps, 1);
    } else {
      s := Filled(n - 1);
      s := FilledStep(s, n - 1);
    }
  }

  function Removing(n: nat): seq<Op<int>> {
    seq(n, (i: nat) => RemoveOp(i))
  }

  /** After them, removals of the first `k` can fill the queue before any callback runs. */
  lemma {:induction false} Crowded(n: nat, k: nat) returns (s: Split<int>)
    requires k <= n && k <= OPS_CAPACITY
    ensures Reachable(s, 1) && s.open == 0 && s.world.ops == Removing(k) && Holding(s.world, n)
    decreases k
  {
    if k == 0 {
      s := Filled(n);
    } else {
      var r := Crowded(n, k - 1);
      var d := Drained(r.world);
      s := Split(Pushed(d, RemoveOp(k - 1)), 0);
      assert Removing(k) == Removing(k - 1) + [RemoveOp(k - 1)];
      ReachableNext(r, Begin, Split(d, 1), 1);
      ReachableNext(Split(d, 1), Finish(RemoveOp(k - 1)), s, 1);
    }
  }

  lemma {:induction false} RemovingFate(k: nat, keys: set<Id>)
    requires forall id: Id :: id < k ==> id in keys
    ensures Handbacks(Removing(k), keys) == k
    ensures forall id: Id :: id in KeysAfter(Removing(k), keys) <==> id in keys && id >= k
    decreases k
  {
    if k > 0 {
      RemovingFate(k - 1, keys);
      assert Removing(k) == Removing(k - 1) + [RemoveOp(k - 1)];
      FateAppend(Removing(k - 1), keys, k - 1);
    }
  }

  /**
    A run in which at most one control call is open at a time: a full queue of removals meets an empty
    ring, a removal drains it, a callback hands 32 sources back, and only then the removal is pushed.
    Its source is freed on the audio thread.
   */
  lemma OverlapFreesInline() returns (s: Split<int>)
    ensures Reachable(s, 1) && |s.world.freedInline| == 1
  {
    var n := OPS_CAPACITY;
    var r := Crowded(n + 1, n);
    var d := Drained(r.world);
    var advance := (x: int) => x;
    var c := CalledBack(d, advance);
    var p := Pushed(c, RemoveOp(n));
    ReachableNext(r, Begin, Split(d, 1), 1);
    ReachableNext(Split(d, 1), Audio(advance), Split(c, 1), 1);
    ReachableNext(Split(c, 1), Finish(RemoveOp(n)), Split(p, 0), 1);
    ReachableFits(Split(d, 1), 1);
    CrowdedFate(d, advance);
    ReachableFits(Split(p, 0), 1);
    FreedExactly(p, advance, 8);
    ReachableCallbacks(Split(p, 0), advance, 8, 1);
    s := Split(Callbacks(p, advance, 8), 0);
  }

  lemma CrowdedFate(d: World<int>, advance: int -> int)
    requires Fits(d) && Holding(d, OPS_CAPACITY + 1) && d.ops == Removing(OPS_CAPACITY)
    ensures var p := Pushed(CalledBack(d, advance), RemoveOp(OPS_CAPACITY));
      |p.ops| == OPS_CAPACITY - OPS_PER_CALLBACK + 1 && FreedInTheEnd(p) == 1
  {
    var c := CalledBack(d, advance);
    RemovingFate(OPS_CAPACITY, d.sources.Keys);
    CalledBackFate(d, advance);
    RemovalFreesIff(c, OPS_CAPACITY);
  }
}
