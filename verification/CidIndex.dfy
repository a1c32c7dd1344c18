/**
  One controller per CID: the best-ranked connection of each controller, supervisors left out.
 */
module CidIndex {
  import opened Frames

  /** In ascending priority order. */
  datatype FacilityType =
    | Unknown
    | TrafficFlow
    | Radio
    | Ramp
    | Delivery
    | Ground
    | Tower
    | Approach
    | Departure
    | Enroute
    | FlightServiceStation

  function Ordinal(f: FacilityType): nat {
    match f
    case Unknown => 0
    case TrafficFlow => 1
    case Radio => 2
    case Ramp => 3
    case Delivery => 4
    case Ground => 5
    case Tower => 6
    case Approach => 7
    case Departure => 8
    case Enroute => 9
    case FlightServiceStation => 10
  }

  type Cid = string

  datatype Controller = Controller(
    cid: Cid,
    callsign: string,
    frequency: string,
    facility: FacilityType,
    visualRange: Option<nat>
  )

  datatype Rank = Rank(category: nat, range: nat, facility: nat, callsign: string)

  function RankOf(c: Controller): Rank {
    var category := match c.facility
      case Unknown => 0
      case TrafficFlow | Radio => 1
      case _ => 2;
    var range := match c.visualRange
      case None => 1
      case Some(n) => if n == 0 then 0 else 2;
    Rank(category, range, Ordinal(c.facility), c.callsign)
  }

  /** Lexicographic order of strings. */
  predicate TextLess(a: string, b: string) {
    if b == [] then false
    else if a == [] then true
    else a[0] < b[0] || (a[0] == b[0] && TextLess(a[1..], b[1..]))
  }

  predicate Less(a: Rank, b: Rank) {
    || a.category < b.category
    || (a.category == b.category && a.range < b.range)
    || (a.category == b.category && a.range == b.range && a.facility < b.facility)
    || (a.category == b.category && a.range == b.range && a.facility == b.facility && TextLess(a.callsign, b.callsign))
  }

  predicate IsSupervisor(c: Controller) {
    |c.callsign| >= 4 && c.callsign[|c.callsign| - 4..] == "_SUP"
  }

  type Index = map<Cid, Controller>

  /** One entry of the feed: it must beat the entry already kept for its CID. */
  function Insert(m: Index, c: Controller): Index {
    if IsSupervisor(c) then m
    else if c.cid in m && !Less(RankOf(m[c.cid]), RankOf(c)) then m
    else m[c.cid := c]
  }

  function IndexOf(feed: seq<Controller>): Index {
    if feed == [] then map[] else Insert(IndexOf(feed[..|feed| - 1]), feed[|feed| - 1])
  }

  /** The loop over the feed, and what it leaves: for every CID a best entry of that CID. */
  method IndexByCid(feed: seq<Controller>) returns (byCid: Index)
    ensures byCid == IndexOf(feed)
    ensures forall cid :: cid in byCid <==> exists i :: 0 <= i < |feed| && Competes(feed[i], cid)
    ensures forall cid :: cid in byCid ==>
      byCid[cid] in feed && Competes(byCid[cid], cid) && Best(feed, cid, byCid[cid])
  {
    byCid := map[];
    for i := 0 to |feed|
      invariant byCid == IndexOf(feed[..i])
    {
      assert feed[..i + 1][..i] == feed[..i];
      var controller := feed[i];
      if !IsSupervisor(controller) {
        if controller.cid in byCid {
          if Less(RankOf(byCid[controller.cid]), RankOf(controller)) {
            byCid := byCid[controller.cid := controller];
          }
        } else {
          byCid := byCid[controller.cid := controller];
        }
      }
    }
    assert feed[..|feed|] == feed;
    IndexBest(feed);
  }

  // ---------------------------------------------------------------- the order of ranks

  lemma {:induction false} TextOrder(a: string, b: string, c: string)
    ensures !TextLess(a, a)
    ensures a != b ==> TextLess(a, b) || TextLess(b, a)
    ensures TextLess(a, b) && TextLess(b, c) ==> TextLess(a, c)
    ensures !(TextLess(a, b) && TextLess(b, a))
    decreases |a|
  {
    if a != [] {
      TextOrder(a[1..], if b != [] then b[1..] else [], if c != [] then c[1..] else []);
      if b != [] && a[0] == b[0] && a[1..] == b[1..] {
        assert a == [a[0]] + a[1..] && b == [b[0]] + b[1..];
      }
    }
  }

  /** Ranks are totally ordered: distinct ranks compare one way, and the order is transitive. */
  lemma RankOrder(a: Rank, b: Rank, c: Rank)
    ensures !Less(a, a)
    ensures a != b ==> Less(a, b) || Less(b, a)
    ensures Less(a, b) && Less(b, c) ==> Less(a, c)
    ensures !(Less(a, b) && Less(b, a))
  {
    TextOrder(a.callsign, b.callsign, c.callsign);
  }

  predicate IsCore(f: FacilityType) {
    !f.Unknown? && !f.TrafficFlow? && !f.Radio?
  }

  /** How much is known of the visibility range: zero, nothing, or a confirmed one. */
  function RangeKnown(c: Controller): nat {
    if c.visualRange == Some(0) then 0 else if c.visualRange == None then 1 else 2
  }

  /**
    The documented precedence: core facilities before auxiliary ones before unknown ones; then a confirmed
    range before a missing one before a zero one; then the facility; then the callsign.
   */
  lemma Precedence(a: Controller, b: Controller)
    ensures IsCore(b.facility) && !IsCore(a.facility) ==> Less(RankOf(a), RankOf(b))
    ensures !b.facility.Unknown? && a.facility.Unknown? ==> Less(RankOf(a), RankOf(b))
    ensures (IsCore(a.facility) == IsCore(b.facility) && a.facility.Unknown? == b.facility.Unknown?) ==>
      (Less(RankOf(a), RankOf(b)) <==>
        || RangeKnown(a) < RangeKnown(b)
        || (RangeKnown(a) == RangeKnown(b) && Ordinal(a.facility) < Ordinal(b.facility))
        || (RangeKnown(a) == RangeKnown(b) && a.facility == b.facility && TextLess(a.callsign, b.callsign)))
  {
    OrdinalInjective(a.facility, b.facility);
  }

  lemma OrdinalInjective(f: FacilityType, g: FacilityType)
    ensures Ordinal(f) == Ordinal(g) ==> f == g
  {
  }

  // ---------------------------------------------------------------- the best entry

  predicate Competes(c: Controller, cid: Cid) {
    c.cid == cid && !IsSupervisor(c)
  }

  /** No competing entry of the feed outranks `best`. */
  predicate Best(feed: seq<Controller>, cid: Cid, best: Controller) {
    forall i :: 0 <= i < |feed| && Competes(feed[i], cid) ==> !Less(RankOf(best), RankOf(feed[i]))
  }

  /** Among equals the earliest entry stays. */
  predicate FirstAmongEquals(feed: seq<Controller>, cid: Cid, best: Controller) {
    exists k :: 0 <= k < |feed| && feed[k] == best
      && forall i :: 0 <= i < k && Competes(feed[i], cid) ==> RankOf(feed[i]) != RankOf(best)
  }

  predicate Wins(feed: seq<Controller>, cid: Cid, best: Controller) {
    best in feed && Competes(best, cid) && Best(feed, cid, best) && FirstAmongEquals(feed, cid, best)
  }

  predicate Contested(feed: seq<Controller>, cid: Cid) {
    exists i :: 0 <= i < |feed| && Competes(feed[i], cid)
  }

  lemma IndexBest(feed: seq<Controller>)
    ensures var m := IndexOf(feed);
      && (forall cid :: cid in m <==> exists i :: 0 <= i < |feed| && Competes(feed[i], cid))
      && (forall cid :: cid in m ==> m[cid] in feed && Competes(m[cid], cid) && Best(feed, cid, m[cid]))
  {
    forall cid: Cid
      ensures cid in IndexOf(feed) <==> Contested(feed, cid)
      ensures cid in IndexOf(feed) ==> Wins(feed, cid, IndexOf(feed)[cid])
    {
      IndexBestFor(feed, cid);
    }
  }

  /** A CID is kept exactly when it is contested, and then for the first of its best entries. */
  lemma {:induction false} IndexBestFor(feed: seq<Controller>, cid: Cid)
    ensures cid in IndexOf(feed) <==> Contested(feed, cid)
    ensures cid in IndexOf(feed) ==> Wins(feed, cid, IndexOf(feed)[cid])
  {
    if feed != [] {
      var init, c := feed[..|feed| - 1], feed[|feed| - 1];
      IndexBestFor(init, cid);
      ContestedStep(feed, cid);
      if Competes(c, cid) {
        if cid in IndexOf(init) {
          BestStep(feed, cid, IndexOf(init)[cid]);
        } else {
          OnlyCompetitor(feed, cid);
        }
      } else if cid in IndexOf(init) {
        Bystander(feed, cid, IndexOf(init)[cid]);
      }
    }
  }

  lemma ContestedStep(feed: seq<Controller>, cid: Cid)
    requires feed != []
    ensures Contested(feed, cid) <==> Contested(feed[..|feed| - 1], cid) || Competes(feed[|feed| - 1], cid)
  {
    var init := feed[..|feed| - 1];
    if i :| 0 <= i < |init| && Competes(init[i], cid) {
      assert Competes(feed[i], cid);
    }
    if i :| 0 <= i < |feed| && Competes(feed[i], cid) && i < |init| {
      assert Competes(init[i], cid);
    }
  }

  lemma OnlyCompetitor(feed: seq<Controller>, cid: Cid)
    requires feed != [] && Competes(feed[|feed| - 1], cid) && !Contested(feed[..|feed| - 1], cid)
    ensures Wins(feed, cid, feed[|feed| - 1])
  {
    var init, c := feed[..|feed| - 1], feed[|feed| - 1];
    RankOrder(RankOf(c), RankOf(c), RankOf(c));
    assert forall i :: 0 <= i < |init| ==> feed[i] == init[i];
  }

  lemma Bystander(feed: seq<Controller>, cid: Cid, best: Controller)
    requires feed != [] && !Competes(feed[|feed| - 1], cid) && Wins(feed[..|feed| - 1], cid, best)
    ensures Wins(feed, cid, best)
  {
    var init := feed[..|feed| - 1];
    assert forall i :: 0 <= i < |init| ==> feed[i] == init[i];
  }

  /** The last entry against the best of the others. */
  lemma BestStep(feed: seq<Controller>, cid: Cid, best: Controller)
    requires feed != [] && Competes(feed[|feed| - 1], cid) && Wins(feed[..|feed| - 1], cid, best)
    ensures var c := feed[|feed| - 1];
      Wins(feed, cid, if Less(RankOf(best), RankOf(c)) then c else best)
  {
    var init, c := feed[..|feed| - 1], feed[|feed| - 1];
    forall i | 0 <= i < |feed| && Competes(feed[i], cid)
      ensures Less(RankOf(best), RankOf(c)) ==> !Less(RankOf(c), RankOf(feed[i]))
      ensures Less(RankOf(best), RankOf(c)) && i < |init| ==> RankOf(feed[i]) != RankOf(c)
      ensures !Less(RankOf(best), RankOf(c)) ==> !Less(RankOf(best), RankOf(feed[i]))
    {
      if i < |init| {
        assert init[i] == feed[i];
      }
      RankOrder(RankOf(best), RankOf(c), RankOf(feed[i]));
      RankOrder(RankOf(c), RankOf(feed[i]), RankOf(best));
    }
  }

  // ---------------------------------------------------------------- order of the feed

  lemma SameEntries(a: seq<Controller>, b: seq<Controller>, c: Controller)
    requires multiset(a) == multiset(b)
    ensures c in a <==> c in b
  {
    assert c in a <==> c in multiset(a);
    assert c in b <==> c in multiset(b);
  }

  /** Two best entries of the same CID have the same rank. */
  lemma BestRank(feed: seq<Controller>, cid: Cid, x: Controller, y: Controller)
    requires x in feed && y in feed && Competes(x, cid) && Competes(y, cid)
    requires Best(feed, cid, x) && Best(feed, cid, y)
    ensures RankOf(x) == RankOf(y)
  {
    RankOrder(RankOf(x), RankOf(y), RankOf(x));
  }

  lemma BestOfPermutation(a: seq<Controller>, b: seq<Controller>, cid: Cid, x: Controller)
    requires multiset(a) == multiset(b) && Best(a, cid, x)
    ensures Best(b, cid, x)
  {
    forall i | 0 <= i < |b| && Competes(b[i], cid)
      ensures !Less(RankOf(x), RankOf(b[i]))
    {
      SameEntries(a, b, b[i]);
    }
  }

  /** Whatever the order of the feed, the same CIDs are kept and each winner has the same rank. */
  lemma WinnerRankInvariant(a: seq<Controller>, b: seq<Controller>, cid: Cid)
    requires multiset(a) == multiset(b)
    ensures cid in IndexOf(a) <==> cid in IndexOf(b)
    ensures cid in IndexOf(a) ==> RankOf(IndexOf(a)[cid]) == RankOf(IndexOf(b)[cid])
  {
    IndexBestFor(a, cid);
    IndexBestFor(b, cid);
    if cid in IndexOf(a) {
      SameEntries(a, b, IndexOf(a)[cid]);
    }
    if cid in IndexOf(b) {
      SameEntries(a, b, IndexOf(b)[cid]);
    }
    if cid in IndexOf(a) && cid in IndexOf(b) {
      BestOfPermutation(a, b, cid, IndexOf(a)[cid]);
      BestRank(b, cid, IndexOf(a)[cid], IndexOf(b)[cid]);
    }
  }

  predicate BestEntry(feed: seq<Controller>, cid: Cid, x: Controller) {
    x in feed && Competes(x, cid) && Best(feed, cid, x)
  }

  /** Best entries of one CID are equal. */
  ghost predicate UniqueBest(feed: seq<Controller>) {
    forall x, y, cid :: BestEntry(feed, cid, x) && BestEntry(feed, cid, y) ==> x == y
  }

  ghost predicate OrderFree(feed: seq<Controller>) {
    forall p: seq<Controller> :: multiset(p) == multiset(feed) ==> IndexOf(p) == IndexOf(feed)
  }

  lemma UniqueIsOrderFree(feed: seq<Controller>, p: seq<Controller>)
    requires UniqueBest(feed) && multiset(p) == multiset(feed)
    ensures IndexOf(p) == IndexOf(feed)
  {
    forall cid: Cid
      ensures cid in IndexOf(p) <==> cid in IndexOf(feed)
      ensures cid in IndexOf(p) ==> IndexOf(p)[cid] == IndexOf(feed)[cid]
    {
      WinnerRankInvariant(p, feed, cid);
      IndexBestFor(p, cid);
      IndexBestFor(feed, cid);
      if cid in IndexOf(p) {
        SameEntries(p, feed, IndexOf(p)[cid]);
        BestOfPermutation(p, feed, cid, IndexOf(p)[cid]);
        assert BestEntry(feed, cid, IndexOf(p)[cid]) && BestEntry(feed, cid, IndexOf(feed)[cid]);
      }
    }
  }

  /** A best entry moved to the front of the feed wins its CID. */
  lemma FrontWins(feed: seq<Controller>, i: nat) returns (p: seq<Controller>)
    requires i < |feed| && !IsSupervisor(feed[i]) && Best(feed, feed[i].cid, feed[i])
    ensures multiset(p) == multiset(feed)
    ensures feed[i].cid in IndexOf(p) && IndexOf(p)[feed[i].cid] == feed[i]
  {
    var x := feed[i];
    p := [x] + feed[..i] + feed[i + 1..];
    assert feed == feed[..i] + [x] + feed[i + 1..];
    assert p[0] == x && Competes(p[0], x.cid);
    IndexBestFor(p, x.cid);
    BestOfPermutation(feed, p, x.cid, x);
    BestRank(p, x.cid, x, IndexOf(p)[x.cid]);
  }

  /** The index is independent of the order of the feed exactly when no CID has two different best entries. */
  lemma OrderFreeIff(feed: seq<Controller>)
    ensures OrderFree(feed) <==> UniqueBest(feed)
  {
    if UniqueBest(feed) {
      forall p: seq<Controller> | multiset(p) == multiset(feed)
        ensures IndexOf(p) == IndexOf(feed)
      {
        UniqueIsOrderFree(feed, p);
      }
    } else {
      var x, y, cid :| BestEntry(feed, cid, x) && BestEntry(feed, cid, y) && x != y;
      var i :| 0 <= i < |feed| && feed[i] == x;
      var j :| 0 <= j < |feed| && feed[j] == y;
      var p := FrontWins(feed, i);
      var q := FrontWins(feed, j);
      assert IndexOf(p) != IndexOf(q);
    }
  }

  /** Distinct callsigns within each CID are enough. */
  lemma DistinctCallsigns(feed: seq<Controller>)
    requires forall i, j :: 0 <= i < j < |feed| && feed[i].cid == feed[j].cid ==> feed[i].callsign != feed[j].callsign
    ensures OrderFree(feed)
  {
    forall x, y, cid | BestEntry(feed, cid, x) && BestEntry(feed, cid, y)
      ensures x == y
    {
      BestRank(feed, cid, x, y);
      var i :| 0 <= i < |feed| && feed[i] == x;
      var j :| 0 <= j < |feed| && feed[j] == y;
      assert x.callsign == y.callsign;
    }
    OrderFreeIff(feed);
  }

  /** The same callsign on two frequencies: here the order of the feed decides. */
  lemma OrderMatters(x: Controller, y: Controller)
    requires !IsSupervisor(x) && x != y && y == x.(frequency := y.frequency)
    ensures multiset([x, y]) == multiset([y, x]) && IndexOf([x, y]) != IndexOf([y, x])
  {
    RankOrder(RankOf(x), RankOf(x), RankOf(x));
    assert RankOf(x) == RankOf(y);
    assert [x, y][..1] == [x] && [y, x][..1] == [y] && [x][..0] == [] && [y][..0] == [];
    assert IndexOf([x]) == Insert(IndexOf([]), x) && IndexOf([y]) == Insert(IndexOf([]), y);
    assert IndexOf([x, y]) == Insert(IndexOf([x]), y) && IndexOf([y, x]) == Insert(IndexOf([y]), x);
    assert IndexOf([x, y])[x.cid] == x && IndexOf([y, x])[x.cid] == y;
  }

  // ---------------------------------------------------------------- merging feeds

  /** The better entry of two indexes for every CID; the first index wins ties. */
  function Merge(a: Index, b: Index): Index {
    map cid | cid in a.Keys + b.Keys ::
      if cid !in b || (cid in a && !Less(RankOf(a[cid]), RankOf(b[cid]))) then a[cid] else b[cid]
  }

  lemma RankCases(x: Rank, y: Rank, z: Rank)
    ensures !Less(x, y) && !Less(y, z) ==> !Less(x, z)
    ensures !Less(x, y) && Less(x, z) ==> Less(y, z)
    ensures Less(x, y) && !Less(z, y) ==> Less(x, z)
  {
    RankOrder(x, y, z);
    RankOrder(y, x, z);
    RankOrder(x, z, y);
    RankOrder(y, z, x);
  }

  /** Inserting behind a merge, seen at the CID of the new entry. */
  lemma InsertMergeAt(a: Index, b: Index, c: Controller)
    requires !IsSupervisor(c) && c.cid in a && c.cid in b
    ensures Insert(Merge(a, b), c)[c.cid] == Merge(a, Insert(b, c))[c.cid]
  {
    var x, y, z := RankOf(a[c.cid]), RankOf(b[c.cid]), RankOf(c);
    RankCases(x, y, z);
    RankOrder(x, y, z);
  }

  lemma InsertMerge(a: Index, b: Index, c: Controller)
    ensures Insert(Merge(a, b), c) == Merge(a, Insert(b, c))
  {
    var one, other := Insert(Merge(a, b), c), Merge(a, Insert(b, c));
    if !IsSupervisor(c) {
      if c.cid in a && c.cid in b {
        InsertMergeAt(a, b, c);
      }
      assert one.Keys == other.Keys;
      forall cid | cid in one
        ensures one[cid] == other[cid]
      {
      }
    }
  }

  /** Indexing two feeds one after the other is merging their indexes. */
  lemma {:induction false} IndexConcat(a: seq<Controller>, b: seq<Controller>)
    ensures IndexOf(a + b) == Merge(IndexOf(a), IndexOf(b))
  {
    if b == [] {
      assert a + b == a;
    } else {
      var init, c := b[..|b| - 1], b[|b| - 1];
      IndexConcat(a, init);
      assert (a + b)[..|a + b| - 1] == a + init;
      InsertMerge(IndexOf(a), IndexOf(init), c);
    }
  }

  /** Facilities are ranked in the order of their declaration. */
  lemma FacilityOrder()
    ensures Ordinal(Unknown) < Ordinal(TrafficFlow) < Ordinal(Radio) < Ordinal(Ramp) < Ordinal(Delivery)
    ensures Ordinal(Delivery) < Ordinal(Ground) < Ordinal(Tower) < Ordinal(Approach) < Ordinal(Departure)
    ensures Ordinal(Departure) < Ordinal(Enroute) < Ordinal(FlightServiceStation)
  {
  }

  /** Supervisors are the entries whose callsign ends in the suffix, with anything before it. */
  lemma SupervisorSuffix(c: Controller)
    ensures IsSupervisor(c) <==> exists prefix: string :: c.callsign == prefix + "_SUP"
  {
    if IsSupervisor(c) {
      assert c.callsign == c.callsign[..|c.callsign| - 4] + "_SUP";
    }
  }

  /** A single entry is kept as it is, unless it is a supervisor's. */
  lemma SingleEntry(c: Controller)
    ensures IndexOf([c]) == if exists prefix: string :: c.callsign == prefix + "_SUP" then map[] else map[c.cid := c]
  {
    SupervisorSuffix(c);
    assert [c][..0] == [];
    assert IndexOf([c]) == Insert(IndexOf([]), c);
  }
}
