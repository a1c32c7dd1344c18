/**
  The lifecycle of a media peer and the watchdog that runs while it is started.

  Time is in milliseconds. A watchdog tick reads the clock once and both inbound counters once.
 */
module Peer {
  import opened Frames

  const NO_INBOUND_TIMEOUT: nat := 5000
  const FIRST_RTP_TIMEOUT: nat := 15000

  // ---------------------------------------------------------------- the watchdog

  /** What one tick observes. */
  datatype Tick = Tick(now: int, rtp: nat, rtcp: nat)

  datatype Watch = Watch(
    startedAt: int,
    lastRtp: nat,
    lastRtcp: nat,
    lastChange: int,
    fired: bool
  )

  function Spawned(now: int, rtp: nat, rtcp: nat): Watch {
    Watch(now, rtp, rtcp, now, false)
  }

  function Noted(w: Watch, t: Tick): Watch {
    if t.rtp != w.lastRtp || t.rtcp != w.lastRtcp then w.(lastRtp := t.rtp, lastRtcp := t.rtcp, lastChange := t.now)
    else w
  }

  predicate Stalled(w: Watch, t: Tick) {
    t.now - Noted(w, t).lastChange >= NO_INBOUND_TIMEOUT
  }

  predicate NeverArrived(w: Watch, t: Tick) {
    t.rtp == 0 && t.now - w.startedAt >= FIRST_RTP_TIMEOUT
  }

  predicate Fires(w: Watch, t: Tick) {
    !w.fired && (Stalled(w, t) || NeverArrived(w, t))
  }

  function Ticked(w: Watch, t: Tick): Watch {
    Noted(w, t).(fired := w.fired || Fires(w, t))
  }

  function After(w: Watch, ticks: seq<Tick>): Watch {
    if ticks == [] then w else Ticked(After(w, ticks[..|ticks| - 1]), ticks[|ticks| - 1])
  }

  /** Events emitted over a sequence of ticks. */
  function Emitted(w: Watch, ticks: seq<Tick>): nat {
    if ticks == [] then 0
    else
      var init := ticks[..|ticks| - 1];
      Emitted(w, init) + if Fires(After(w, init), ticks[|ticks| - 1]) then 1 else 0
  }

  class Watchdog {
    var startedAt: int
    var lastRtp: nat
    var lastRtcp: nat
    var lastChange: int
    var fired: bool
    var emitted: nat

    function Snapshot(): Watch
      reads this
    {
      Watch(startedAt, lastRtp, lastRtcp, lastChange, fired)
    }

    constructor (now: int, rtp: nat, rtcp: nat)
      ensures Snapshot() == Spawned(now, rtp, rtcp) && emitted == 0
    {
      startedAt, lastRtp, lastRtcp, lastChange, fired, emitted := now, rtp, rtcp, now, false, 0;
    }

    method OnTick(t: Tick)
      modifies this
      ensures Snapshot() == Ticked(old(Snapshot()), t)
      ensures emitted == old(emitted) + if Fires(old(Snapshot()), t) then 1 else 0
    {
      if t.rtp != lastRtp || t.rtcp != lastRtcp {
        lastRtp, lastRtcp := t.rtp, t.rtcp;
        lastChange := t.now;
      }
      var stalled := t.now - lastChange >= NO_INBOUND_TIMEOUT;
      var rtpNeverArrived := t.rtp == 0 && t.now - startedAt >= FIRST_RTP_TIMEOUT;
      if !fired && (stalled || rtpNeverArrived) {
        fired := true;
        emitted := emitted + 1;
      }
    }
  }

  predicate InOrder(start: int, ticks: seq<Tick>) {
    && (forall i :: 0 <= i < |ticks| ==> start <= ticks[i].now)
    && forall i, j :: 0 <= i < j < |ticks| ==> ticks[i].now <= ticks[j].now
  }

  /** At most one event per start, and the flag says whether there was one. */
  lemma {:induction false} AtMostOnce(w: Watch, ticks: seq<Tick>)
    requires !w.fired
    ensures Emitted(w, ticks) == if After(w, ticks).fired then 1 else 0
  {
    if ticks != [] {
      AtMostOnce(w, ticks[..|ticks| - 1]);
    }
  }

  /** The counters last noted are those of every tick since the last change. */
  ghost predicate Unchanged(w: Watch, ticks: seq<Tick>, since: int) {
    forall i :: 0 <= i < |ticks| && ticks[i].now > since ==> ticks[i].rtp == w.lastRtp && ticks[i].rtcp == w.lastRtcp
  }

  lemma {:induction false} UnchangedSinceLastChange(start: int, rtp: nat, rtcp: nat, ticks: seq<Tick>)
    requires InOrder(start, ticks)
    ensures var w := After(Spawned(start, rtp, rtcp), ticks);
      && Unchanged(w, ticks, w.lastChange) && w.startedAt == start
      && start <= w.lastChange <= (if ticks == [] then start else ticks[|ticks| - 1].now)
  {
    if ticks != [] {
      var init := ticks[..|ticks| - 1];
      UnchangedSinceLastChange(start, rtp, rtcp, init);
      assert init != [] ==> init[|init| - 1] == ticks[|init| - 1];
    }
  }

  /**
    An event is emitted only if every tick of the last five seconds saw the same counters, or fifteen
    seconds after the start no RTP had arrived.
   */
  lemma FiresOnlyWhenDead(start: int, rtp: nat, rtcp: nat, ticks: seq<Tick>, t: Tick)
    requires InOrder(start, ticks + [t]) && Fires(After(Spawned(start, rtp, rtcp), ticks), t)
    ensures (forall i :: 0 <= i < |ticks| && ticks[i].now > t.now - NO_INBOUND_TIMEOUT ==>
               ticks[i].rtp == t.rtp && ticks[i].rtcp == t.rtcp)
            || (t.rtp == 0 && t.now >= start + FIRST_RTP_TIMEOUT)
  {
    var all := ticks + [t];
    assert all[..|all| - 1] == ticks;
    UnchangedSinceLastChange(start, rtp, rtcp, all);
    var w := After(Spawned(start, rtp, rtcp), ticks);
    assert After(Spawned(start, rtp, rtcp), all) == Ticked(w, t);
    if Stalled(w, t) {
      forall i | 0 <= i < |ticks| && ticks[i].now > t.now - NO_INBOUND_TIMEOUT
        ensures ticks[i].rtp == t.rtp && ticks[i].rtcp == t.rtcp
      {
        assert all[i] == ticks[i];
      }
    }
  }

  // ---------------------------------------------------------------- traffic that stops

  /** From instant `frozen` on all ticks see the same counters. */
  predicate FrozenFrom(ticks: seq<Tick>, frozen: int) {
    forall i, j :: 0 <= i < j < |ticks| && ticks[i].now >= frozen ==>
      ticks[i].rtp == ticks[j].rtp && ticks[i].rtcp == ticks[j].rtcp
  }

  /** Ticks are at most `gap` apart, the first one at most `gap` after the start. */
  predicate Gapless(start: int, ticks: seq<Tick>, gap: nat) {
    && (ticks != [] ==> ticks[0].now <= start + gap)
    && forall i :: 0 <= i < |ticks| - 1 ==> ticks[i + 1].now <= ticks[i].now + gap
  }

  /** With frozen traffic the last change lies at most one gap behind the freeze. */
  lemma {:induction false} LastChangeBounded(start: int, rtp: nat, rtcp: nat, ticks: seq<Tick>, frozen: int, gap: nat)
    requires InOrder(start, ticks) && Gapless(start, ticks, gap) && FrozenFrom(ticks, frozen) && start <= frozen
    ensures After(Spawned(start, rtp, rtcp), ticks).lastChange <= frozen + gap
  {
    if ticks != [] {
      var init, t := ticks[..|ticks| - 1], ticks[|ticks| - 1];
      LastChangeBounded(start, rtp, rtcp, init, frozen, gap);
      UnchangedSinceLastChange(start, rtp, rtcp, init);
      if init != [] && init[|init| - 1].now >= frozen {
        NotedLast(start, rtp, rtcp, init);
        assert ticks[|init| - 1] == init[|init| - 1];
      } else if init != [] {
        assert ticks[|init|].now <= ticks[|init| - 1].now + gap;
      }
    }
  }

  /** The counters noted after a tick are those of that tick. */
  lemma NotedLast(start: int, rtp: nat, rtcp: nat, ticks: seq<Tick>)
    requires ticks != []
    ensures var w := After(Spawned(start, rtp, rtcp), ticks);
      w.lastRtp == ticks[|ticks| - 1].rtp && w.lastRtcp == ticks[|ticks| - 1].rtcp
  {
  }

  lemma {:induction false} FiredStays(w: Watch, ticks: seq<Tick>, k: nat)
    requires k <= |ticks| && After(w, ticks[..k]).fired
    ensures After(w, ticks).fired
    decreases |ticks|
  {
    if k == |ticks| {
      assert ticks[..k] == ticks;
    } else {
      assert ticks[..|ticks| - 1][..k] == ticks[..k];
      FiredStays(w, ticks[..|ticks| - 1], k);
    }
  }

  /** A tick at least five seconds after the last change leaves the watchdog fired. */
  lemma LateTickFires(start: int, rtp: nat, rtcp: nat, ticks: seq<Tick>, k: nat, frozen: int, gap: nat)
    requires InOrder(start, ticks) && Gapless(start, ticks, gap) && FrozenFrom(ticks, frozen) && start <= frozen
    requires k < |ticks| && ticks[k].now >= frozen + gap + NO_INBOUND_TIMEOUT
    ensures After(Spawned(start, rtp, rtcp), ticks[..k + 1]).fired
  {
    var w, upTo := Spawned(start, rtp, rtcp), ticks[..k + 1];
    assert upTo[..|upTo| - 1] == ticks[..k];
    LastChangeBounded(start, rtp, rtcp, upTo, frozen, gap);
    assert After(w, upTo) == Ticked(After(w, ticks[..k]), ticks[k]);
  }

  lemma {:induction false} FirstReaching(start: int, ticks: seq<Tick>, gap: nat, deadline: int) returns (k: nat)
    requires InOrder(start, ticks) && Gapless(start, ticks, gap)
    requires ticks != [] && ticks[|ticks| - 1].now >= deadline >= start
    ensures k < |ticks| && deadline <= ticks[k].now <= deadline + gap
    decreases |ticks|
  {
    var last := |ticks| - 1;
    if last == 0 || ticks[last - 1].now < deadline {
      k := last;
      assert last > 0 ==> ticks[last - 1 + 1].now <= ticks[last - 1].now + gap;
    } else {
      k := FirstReaching(start, ticks[..last], gap, deadline);
    }
  }

  /**
    If traffic freezes at `frozen` and ticks are at most `gap` apart, a watchdog that keeps running has
    fired by `frozen + 5 s + 2 gap`.
   */
  lemma FiresInTime(start: int, rtp: nat, rtcp: nat, ticks: seq<Tick>, frozen: int, gap: nat) returns (k: nat)
    requires InOrder(start, ticks) && Gapless(start, ticks, gap) && FrozenFrom(ticks, frozen) && start <= frozen
    requires ticks != [] && ticks[|ticks| - 1].now >= frozen + NO_INBOUND_TIMEOUT + gap
    ensures k < |ticks| && ticks[k].now <= frozen + NO_INBOUND_TIMEOUT + 2 * gap
    ensures After(Spawned(start, rtp, rtcp), ticks[..k + 1]).fired
    ensures After(Spawned(start, rtp, rtcp), ticks).fired
  {
    k := FirstReaching(start, ticks, gap, frozen + NO_INBOUND_TIMEOUT + gap);
    LateTickFires(start, rtp, rtcp, ticks, k, frozen, gap);
    FiredStays(Spawned(start, rtp, rtcp), ticks, k + 1);
  }

  /**
    If no RTP ever arrives, whatever the RTCP traffic, a watchdog that keeps running has fired by
    fifteen seconds and one gap after its start.
   */
  lemma FiresWithoutRtp(start: int, rtp: nat, rtcp: nat, ticks: seq<Tick>, gap: nat) returns (k: nat)
    requires InOrder(start, ticks) && Gapless(start, ticks, gap) && forall i :: 0 <= i < |ticks| ==> ticks[i].rtp == 0
    requires ticks != [] && ticks[|ticks| - 1].now >= start + FIRST_RTP_TIMEOUT
    ensures k < |ticks| && ticks[k].now <= start + FIRST_RTP_TIMEOUT + gap
    ensures After(Spawned(start, rtp, rtcp), ticks[..k + 1]).fired
    ensures After(Spawned(start, rtp, rtcp), ticks).fired
  {
    k := FirstReaching(start, ticks, gap, start + FIRST_RTP_TIMEOUT);
    var w, upTo := Spawned(start, rtp, rtcp), ticks[..k + 1];
    assert upTo[..|upTo| - 1] == ticks[..k];
    UnchangedSinceLastChange(start, rtp, rtcp, ticks[..k]);
    assert After(w, upTo) == Ticked(After(w, ticks[..k]), ticks[k]);
    FiredStays(w, ticks, k + 1);
  }

  /** A tick fires at once when the counters have stood still for five seconds, or fifteen seconds brought no RTP. */
  lemma FiresAtOnce(w: Watch, t: Tick)
    requires !w.fired
    ensures Ticked(w, t).fired <==>
      || (t.rtp == w.lastRtp && t.rtcp == w.lastRtcp && t.now >= w.lastChange + 5000)
      || (t.rtp == 0 && t.now >= w.startedAt + 15000)
  {
  }

  // ---------------------------------------------------------------- the lifecycle

  datatype Error = CallActive | NoCallActive | SenderFailed

  datatype Life = Life(sender: bool, receiver: bool, watchdog: Option<Watch>, emitted: nat, starts: nat)

  datatype Event =
    | Start(now: int, rtp: nat, rtcp: nat)
    | Pause
    | Stop(senderStops: bool)
    | WatchdogTick(tick: Tick)

  function Apply(l: Life, e: Event): Life {
    match e
    case Start(now, rtp, rtcp) =>
      if l.sender || !l.receiver then l
      else l.(sender := true, watchdog := Some(Spawned(now, rtp, rtcp)), starts := l.starts + 1)
    case Pause => l.(watchdog := None, sender := false)
    case Stop(senderStops) =>
      var idle := l.(watchdog := None, sender := false);
      if l.sender && !senderStops then idle else idle.(receiver := false)
    case WatchdogTick(t) =>
      if l.watchdog.None? then l
      else
        var w := l.watchdog.value;
        l.(watchdog := Some(Ticked(w, t)), emitted := l.emitted + if Fires(w, t) then 1 else 0)
  }

  function Created(): Life {
    Life(false, true, None, 0, 0)
  }

  function LifeOf(events: seq<Event>): Life {
    if events == [] then Created() else Apply(LifeOf(events[..|events| - 1]), events[|events| - 1])
  }

  /** Events emitted by watchdogs of earlier starts and by the running one. */
  predicate Consistent(l: Life) {
    && (l.watchdog.Some? <==> l.sender)
    && (l.sender ==> l.receiver && l.starts > 0)
    && l.emitted + (if l.watchdog.Some? && !l.watchdog.value.fired then 1 else 0) <= l.starts
  }

  /** In every run a watchdog runs exactly while there is a sender, and starts bound the events. */
  lemma {:induction false} EveryRun(events: seq<Event>)
    ensures Consistent(LifeOf(events))
  {
    if events != [] {
      EveryRun(events[..|events| - 1]);
    }
  }

  /** A peer that was never stopped can be paused and started again, each time with a new watchdog. */
  lemma PauseAndStart(l: Life, now: int, rtp: nat, rtcp: nat)
    requires Consistent(l) && l.receiver
    ensures var t := Apply(Apply(l, Pause), Start(now, rtp, rtcp));
      t.sender && t.receiver && t.watchdog == Some(Spawned(now, rtp, rtcp)) && t.starts == l.starts + 1
  {
  }

  /** A stop ends sender and watchdog, and the peer itself unless the sender fails to stop. */
  lemma StopEnds(l: Life, senderStops: bool)
    requires Consistent(l)
    ensures var t := Apply(l, Stop(senderStops));
      && !t.sender && t.watchdog == None && t.emitted == l.emitted && t.starts == l.starts
      && (t.receiver <==> l.receiver && l.sender && !senderStops)
  {
  }

  /** A peer that is running is not started a second time. */
  lemma RunningStays(l: Life, now: int, rtp: nat, rtcp: nat)
    requires l.sender
    ensures Apply(l, Start(now, rtp, rtcp)) == l
  {
  }

  /** A stopped peer cannot be started again, whatever happens to it. */
  lemma {:induction false} StoppedForGood(l: Life, events: seq<Event>)
    requires Consistent(l) && !l.receiver
    ensures var t := Continued(l, events); !t.receiver && !t.sender && t.watchdog == None && t.starts == l.starts
  {
    if events != [] {
      StoppedForGood(l, events[..|events| - 1]);
    }
  }

  function Continued(l: Life, events: seq<Event>): Life {
    if events == [] then l else Apply(Continued(l, events[..|events| - 1]), events[|events| - 1])
  }

  class MediaPeer {
    var sender: bool
    var receiver: bool
    var watchdog: Watchdog?
    ghost var emittedBefore: nat
    ghost var starts: nat

    ghost function Snapshot(): Life
      reads this, watchdog
    {
      Life(sender, receiver, if watchdog == null then None else Some(watchdog.Snapshot()),
           emittedBefore + (if watchdog == null then 0 else watchdog.emitted), starts)
    }

    constructor ()
      ensures Snapshot() == Created()
    {
      sender, receiver, watchdog := false, true, null;
      emittedBefore, starts := 0, 0;
    }

    method StartPeer(now: int, rtp: nat, rtcp: nat) returns (error: Option<Error>)
      requires Consistent(Snapshot())
      modifies this
      ensures Snapshot() == Apply(old(Snapshot()), Start(now, rtp, rtcp)) && Consistent(Snapshot())
      ensures error == if old(sender) then Some(CallActive) else if !old(receiver) then Some(NoCallActive) else None
    {
      if sender {
        return Some(CallActive);
      }
      if !receiver {
        return Some(NoCallActive);
      }
      sender := true;
      watchdog := new Watchdog(now, rtp, rtcp);
      starts := starts + 1;
      return None;
    }

    method AbortWatchdog()
      modifies this
      ensures Snapshot() == old(Snapshot()).(watchdog := None)
    {
      if watchdog != null {
        emittedBefore := emittedBefore + watchdog.emitted;
        watchdog := null;
      }
    }

    method PausePeer() returns (taken: bool)
      requires Consistent(Snapshot())
      modifies this
      ensures Snapshot() == Apply(old(Snapshot()), Pause) && Consistent(Snapshot()) && taken == old(sender)
    {
      AbortWatchdog();
      taken := sender;
      sender := false;
    }

    /** The sender task may fail to join; then the receiver is kept. */
    method StopPeer(senderStops: bool) returns (error: Option<Error>)
      requires Consistent(Snapshot())
      modifies this
      ensures Snapshot() == Apply(old(Snapshot()), Stop(senderStops)) && Consistent(Snapshot())
      ensures error == if old(sender) && !senderStops then Some(SenderFailed) else None
    {
      AbortWatchdog();
      if sender {
        sender := false;
        if !senderStops {
          return Some(SenderFailed);
        }
      }
      receiver := false;
      return None;
    }
  }
}
