/**
  The queue of waiters for server messages. Each waiter brings a predicate; an incoming message goes to
  the first queued waiter whose predicate accepts it.
 */
module Matcher {
  import opened Frames

  /** A waiter; identifiers count registrations. */
  datatype Entry<!M> = Entry(id: nat, accepts: M -> bool)

  /** Position of the first entry that accepts the message, or the length of the queue. */
  function FirstMatch<M>(queue: seq<Entry<M>>, msg: M): (k: nat)
    ensures k <= |queue|
    ensures k < |queue| ==> queue[k].accepts(msg)
    ensures forall i :: 0 <= i < k ==> !queue[i].accepts(msg)
  {
    if queue == [] || queue[0].accepts(msg) then 0 else 1 + FirstMatch(queue[1..], msg)
  }

  /** The queue, and what has become of every waiter registered so far. */
  datatype Waiters<!M> = Waiters(
    queue: seq<Entry<M>>,
    registered: nat,
    delivered: seq<(nat, M)>,
    cleared: set<nat>,
    timedOut: set<nat>
  )

  function Empty<M>(): Waiters<M> {
    Waiters([], 0, [], {}, {})
  }

  function Registered<M>(w: Waiters<M>, accepts: M -> bool): Waiters<M> {
    w.(queue := w.queue + [Entry(w.registered, accepts)], registered := w.registered + 1)
  }

  function Matched<M>(w: Waiters<M>, msg: M): Waiters<M> {
    var k := FirstMatch(w.queue, msg);
    if k == |w.queue| then w
    else w.(queue := w.queue[..k] + w.queue[k + 1..], delivered := w.delivered + [(w.queue[k].id, msg)])
  }

  /** A waiter gives up; its entry stays where it is. */
  function GivenUp<M>(w: Waiters<M>, id: nat): Waiters<M> {
    w.(timedOut := w.timedOut + {id})
  }

  function ClearedAll<M>(w: Waiters<M>): Waiters<M> {
    w.(queue := [], cleared := w.cleared + (set i | 0 <= i < |w.queue| :: w.queue[i].id))
  }

  class ResponseMatcher<!M> {
    var queue: seq<Entry<M>>
    var registered: nat
    ghost var delivered: seq<(nat, M)>
    ghost var cleared: set<nat>
    ghost var timedOut: set<nat>

    ghost function Snapshot(): Waiters<M>
      reads this
    {
      Waiters(queue, registered, delivered, cleared, timedOut)
    }

    constructor ()
      ensures Snapshot() == Empty()
    {
      queue, registered, delivered, cleared, timedOut := [], 0, [], {}, {};
    }

    method WaitFor(accepts: M -> bool) returns (id: nat)
      modifies this
      ensures Snapshot() == Registered(old(Snapshot()), accepts) && id == old(registered)
    {
      id := registered;
      queue := queue + [Entry(id, accepts)];
      registered := registered + 1;
    }

    method TryMatch(msg: M)
      modifies this
      ensures Snapshot() == Matched(old(Snapshot()), msg)
    {
      var pos := 0;
      while pos < |queue| && !queue[pos].accepts(msg)
        invariant pos <= |queue|
        invariant FirstMatch(queue, msg) == pos + FirstMatch(queue[pos..], msg)
      {
        pos := pos + 1;
      }
      if pos < |queue| {
        delivered := delivered + [(queue[pos].id, msg)];
        queue := queue[..pos] + queue[pos + 1..];
      }
    }

    method Clear()
      modifies this
      ensures Snapshot() == ClearedAll(old(Snapshot()))
    {
      cleared := cleared + (set i | 0 <= i < |queue| :: queue[i].id);
      queue := [];
    }
  }

  // ---------------------------------------------------------------- what every run keeps

  /** How often a waiter stands in the queue, and how often it was served. */
  function Queued<M>(queue: seq<Entry<M>>, id: nat): nat {
    if queue == [] then 0 else (if queue[0].id == id then 1 else 0) + Queued(queue[1..], id)
  }

  function Served<M>(delivered: seq<(nat, M)>, id: nat): nat {
    if delivered == [] then 0 else (if delivered[0].0 == id then 1 else 0) + Served(delivered[1..], id)
  }

  predicate RegistrationOrder<M>(queue: seq<Entry<M>>, registered: nat) {
    && (forall i :: 0 <= i < |queue| ==> queue[i].id < registered)
    && forall i, j :: 0 <= i < j < |queue| ==> queue[i].id < queue[j].id
  }

  /** Every waiter is exactly one of queued, served and cleared. */
  ghost predicate Accounted<M>(w: Waiters<M>) {
    forall id: nat ::
      Queued(w.queue, id) + Served(w.delivered, id) + (if id in w.cleared then 1 else 0)
        == if id < w.registered then 1 else 0
  }

  ghost predicate Invariant<M>(w: Waiters<M>) {
    RegistrationOrder(w.queue, w.registered) && Accounted(w)
  }

  lemma {:induction false} QueuedConcat<M>(a: seq<Entry<M>>, b: seq<Entry<M>>, id: nat)
    ensures Queued(a + b, id) == Queued(a, id) + Queued(b, id)
  {
    if a == [] {
      assert a + b == b;
    } else {
      assert (a + b)[1..] == a[1..] + b;
      QueuedConcat(a[1..], b, id);
    }
  }

  lemma {:induction false} ServedSnoc<M>(d: seq<(nat, M)>, x: (nat, M), id: nat)
    ensures Served(d + [x], id) == Served(d, id) + if x.0 == id then 1 else 0
  {
    if d == [] {
      assert d + [x] == [x];
    } else {
      assert (d + [x])[1..] == d[1..] + [x];
      ServedSnoc(d[1..], x, id);
    }
  }

  lemma {:induction false} QueuedMember<M>(queue: seq<Entry<M>>, registered: nat, id: nat)
    requires RegistrationOrder(queue, registered)
    ensures Queued(queue, id) == if exists i :: 0 <= i < |queue| && queue[i].id == id then 1 else 0
  {
    if queue != [] {
      assert RegistrationOrder(queue[1..], registered);
      QueuedMember(queue[1..], registered, id);
      if queue[0].id == id {
        assert forall i :: 0 <= i < |queue[1..]| ==> queue[1..][i].id != id;
      } else if i :| 0 <= i < |queue| && queue[i].id == id {
        assert queue[1..][i - 1].id == id;
      }
    }
  }

  lemma RegisteredKeeps<M>(w: Waiters<M>, accepts: M -> bool)
    requires Invariant(w)
    ensures Invariant(Registered(w, accepts))
  {
    var t := Registered(w, accepts);
    forall id: nat
      ensures Queued(t.queue, id) == Queued(w.queue, id) + if id == w.registered then 1 else 0
    {
      QueuedConcat(w.queue, [Entry(w.registered, accepts)], id);
    }
  }

  lemma RemovalKeepsOrder<M>(queue: seq<Entry<M>>, registered: nat, k: nat)
    requires RegistrationOrder(queue, registered) && k < |queue|
    ensures RegistrationOrder(queue[..k] + queue[k + 1..], registered)
  {
  }

  lemma RemovalCount<M>(queue: seq<Entry<M>>, k: nat, id: nat)
    requires k < |queue|
    ensures Queued(queue, id) == Queued(queue[..k] + queue[k + 1..], id) + if queue[k].id == id then 1 else 0
  {
    var a, e, b := queue[..k], queue[k], queue[k + 1..];
    assert queue == a + ([e] + b);
    QueuedConcat(a, b, id);
    QueuedConcat(a, [e] + b, id);
    QueuedConcat([e], b, id);
  }

  lemma MatchedKeeps<M>(w: Waiters<M>, msg: M)
    requires Invariant(w)
    ensures Invariant(Matched(w, msg))
  {
    var t, k := Matched(w, msg), FirstMatch(w.queue, msg);
    if k < |w.queue| {
      RemovalKeepsOrder(w.queue, w.registered, k);
      forall id: nat
        ensures Queued(t.queue, id) + Served(t.delivered, id) == Queued(w.queue, id) + Served(w.delivered, id)
      {
        RemovalCount(w.queue, k, id);
        ServedSnoc(w.delivered, (w.queue[k].id, msg), id);
      }
    }
  }

  lemma ClearedKeeps<M>(w: Waiters<M>)
    requires Invariant(w)
    ensures Invariant(ClearedAll(w))
  {
    forall id: nat
      ensures Queued(w.queue, id) == if exists i :: 0 <= i < |w.queue| && w.queue[i].id == id then 1 else 0
    {
      QueuedMember(w.queue, w.registered, id);
    }
  }

  datatype Event<!M> = Register(accepts: M -> bool) | Receive(msg: M) | TimeOut(id: nat) | Disconnect

  function Apply<M>(w: Waiters<M>, e: Event<M>): Waiters<M> {
    match e
    case Register(accepts) => Registered(w, accepts)
    case Receive(msg) => Matched(w, msg)
    case TimeOut(id) => GivenUp(w, id)
    case Disconnect => ClearedAll(w)
  }

  lemma EventKeeps<M>(w: Waiters<M>, e: Event<M>)
    requires Invariant(w)
    ensures Invariant(Apply(w, e))
  {
    match e {
      case Register(accepts) => RegisteredKeeps(w, accepts);
      case Receive(msg) => MatchedKeeps(w, msg);
      case TimeOut(id) =>
      case Disconnect => ClearedKeeps(w);
    }
  }

  function RunOf<M>(events: seq<Event<M>>): Waiters<M> {
    if events == [] then Empty() else Apply(RunOf(events[..|events| - 1]), events[|events| - 1])
  }

  /** In every run each waiter is in exactly one place, and the queue is in order of registration. */
  lemma {:induction false} EveryRun<M>(events: seq<Event<M>>)
    ensures Invariant(RunOf(events))
  {
    if events != [] {
      var w := RunOf(events[..|events| - 1]);
      EveryRun(events[..|events| - 1]);
      EventKeeps(w, events[|events| - 1]);
    }
  }

  /** Entry `k` accepts the message, is the oldest to do so, was not served before and is served now. */
  ghost predicate ServedAt<M>(w: Waiters<M>, msg: M, k: nat, t: Waiters<M>)
    requires k < |w.queue|
  {
    && w.queue[k].accepts(msg)
    && (forall i :: 0 <= i < |w.queue| && w.queue[i].accepts(msg) ==> w.queue[k].id <= w.queue[i].id)
    && Served(w.delivered, w.queue[k].id) == 0
    && t == w.(queue := w.queue[..k] + w.queue[k + 1..], delivered := w.delivered + [(w.queue[k].id, msg)])
  }

  /**
    A message is served to nobody if no queued predicate accepts it; otherwise to exactly one waiter,
    which accepts it, was not served before and registered before every other queued waiter that
    accepts it. All other waiters keep their order.
   */
  lemma EarliestServed<M>(w: Waiters<M>, msg: M)
    requires Invariant(w)
    ensures var t := Matched(w, msg);
      if forall i :: 0 <= i < |w.queue| ==> !w.queue[i].accepts(msg) then t == w
      else exists k :: 0 <= k < |w.queue| && ServedAt(w, msg, k, t)
  {
    var k := FirstMatch(w.queue, msg);
    if k < |w.queue| {
      QueuedMember(w.queue, w.registered, w.queue[k].id);
      assert Queued(w.queue, w.queue[k].id) == 1;
      assert ServedAt(w, msg, k, Matched(w, msg));
    }
  }

  // ---------------------------------------------------------------- abandoned waiters

  /** Entry `k` is the first of the queue to accept the message. */
  predicate IsFirst<M>(w: Waiters<M>, msg: M, k: nat) {
    k < |w.queue| && w.queue[k].accepts(msg) && forall i :: 0 <= i < k ==> !w.queue[i].accepts(msg)
  }

  /** The message is served to a waiter that has given up. */
  predicate ServedToAbandoned<M>(w: Waiters<M>, msg: M) {
    var t := Matched(w, msg);
    |t.delivered| > |w.delivered| && t.delivered[|w.delivered|].0 in w.timedOut
  }

  /** A message is wasted exactly when the first queued waiter that accepts it has given up. */
  lemma WastedIff<M>(w: Waiters<M>, msg: M)
    ensures ServedToAbandoned(w, msg) <==> exists k: nat :: IsFirst(w, msg, k) && w.queue[k].id in w.timedOut
  {
    var k := FirstMatch(w.queue, msg);
    if k < |w.queue| {
      assert IsFirst(w, msg, k);
      assert forall j :: IsFirst(w, msg, j) ==> j == k;
    }
  }

  /** Registered, still queued and not given up. */
  predicate Live<M>(w: Waiters<M>, k: nat) {
    k < |w.queue| && w.queue[k].id !in w.timedOut
  }

  /** A waiter that accepts a message goes without it exactly when an earlier queued one accepts it too. */
  lemma StarvedIff<M>(w: Waiters<M>, msg: M, k: nat)
    requires Invariant(w) && k < |w.queue| && w.queue[k].accepts(msg)
    ensures Served(Matched(w, msg).delivered, w.queue[k].id) == 0 <==> exists i :: 0 <= i < k && w.queue[i].accepts(msg)
  {
    var j, id := FirstMatch(w.queue, msg), w.queue[k].id;
    QueuedMember(w.queue, w.registered, id);
    assert Queued(w.queue, id) == 1;
    ServedSnoc(w.delivered, (w.queue[j].id, msg), id);
  }

  /** It loses the message to a waiter that has given up exactly when the first of these has. */
  lemma StarvedByAbandonedIff<M>(w: Waiters<M>, msg: M, k: nat)
    requires Live(w, k) && w.queue[k].accepts(msg)
    ensures ServedToAbandoned(w, msg)
       <==> exists i: nat :: i < k && IsFirst(w, msg, i) && w.queue[i].id in w.timedOut
  {
    WastedIff(w, msg);
    if ServedToAbandoned(w, msg) {
      var i: nat :| IsFirst(w, msg, i) && w.queue[i].id in w.timedOut;
      assert i < k;
    }
  }

  /** The run from `w` on. */
  function RunFrom<M>(w: Waiters<M>, events: seq<Event<M>>): Waiters<M>
    decreases |events|
  {
    if events == [] then w else RunFrom(Apply(w, events[0]), events[1..])
  }

  /** Received messages that a predicate accepts. */
  function Accepted<M>(events: seq<Event<M>>, accepts: M -> bool): nat {
    if events == [] then 0
    else (if events[0].Receive? && accepts(events[0].msg) then 1 else 0) + Accepted(events[1..], accepts)
  }

  predicate StaysConnected<M>(events: seq<Event<M>>) {
    forall i :: 0 <= i < |events| ==> !events[i].Disconnect?
  }

  /** An event that does not serve the waiter at `k`: where the waiter stands then. */
  lemma WaiterMoves<M>(w: Waiters<M>, k: nat, e: Event<M>) returns (k': nat)
    requires Invariant(w) && k < |w.queue| && !e.Disconnect?
    requires e.Receive? ==> FirstMatch(w.queue, e.msg) != k
    ensures var t := Apply(w, e);
      && Invariant(t) && k' < |t.queue| && t.queue[k'] == w.queue[k] && k' <= k
      && (e.Receive? && w.queue[k].accepts(e.msg) ==> k' < k)
  {
    EventKeeps(w, e);
    k' := k;
    if e.Receive? && FirstMatch(w.queue, e.msg) < k {
      k' := k - 1;
    }
  }

  lemma {:induction false} ServedStays<M>(w: Waiters<M>, events: seq<Event<M>>, id: nat)
    ensures Served(RunFrom(w, events).delivered, id) >= Served(w.delivered, id)
    decreases |events|
  {
    if events != [] {
      var k, t := if events[0].Receive? then FirstMatch(w.queue, events[0].msg) else 0, Apply(w, events[0]);
      if events[0].Receive? && k < |w.queue| {
        ServedSnoc(w.delivered, (w.queue[k].id, events[0].msg), id);
      }
      ServedStays(t, events[1..], id);
    }
  }

  /**
    Abandoned or not, each waiter ahead takes at most one message away: while the connection lasts, a
    waiter with `k` others ahead of it is served by the time more than `k` messages it accepts have come.
   */
  lemma {:induction false} StarvationBound<M>(w: Waiters<M>, k: nat, events: seq<Event<M>>)
    requires Invariant(w) && k < |w.queue| && StaysConnected(events)
    requires Accepted(events, w.queue[k].accepts) > k
    ensures Served(RunFrom(w, events).delivered, w.queue[k].id) >= 1
    decreases |events|
  {
    var e, rest := events[0], events[1..];
    if e.Receive? && FirstMatch(w.queue, e.msg) == k {
      ServedSnoc(w.delivered, (w.queue[k].id, e.msg), w.queue[k].id);
      ServedStays(Apply(w, e), rest, w.queue[k].id);
    } else {
      var k' := WaiterMoves(w, k, e);
      StarvationBound(Apply(w, e), k', rest);
    }
  }

  /** Two waiters for any message, of which the first has given up: it takes the message all the same. */
  lemma AbandonedWaiterServed<M>(msg: M)
    ensures var any: M -> bool := _ => true;
      var w := RunOf([Register(any), Register(any), TimeOut(0), Receive(msg)]);
      w.delivered == [(0, msg)] && 0 in w.timedOut && Queued(w.queue, 1) == 1
  {
    var any: M -> bool := _ => true;
    var es := [Register(any), Register(any), TimeOut(0), Receive(msg)];
    assert es[..3][..2][..1][..0] == [];
    assert es[..3][..2][..1] == [Register(any)] && es[..3][..2] == es[..2];
    var one := RunOf(es[..1]);
    assert one == Registered(RunOf([]), any);
    assert es[..2][..1] == es[..1];
    var two := RunOf(es[..2]);
    assert two == Registered(one, any);
    assert two.queue == [Entry(0, any), Entry(1, any)];
    assert es[..3][..2] == es[..2];
    assert RunOf(es[..3]) == GivenUp(two, 0);
    assert RunOf(es) == Matched(GivenUp(two, 0), msg);
  }
}
