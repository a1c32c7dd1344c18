/**
  The sliding-window gate in front of automatic reconnects, and the runs it is used in.

  Instants are integers. A run is a sequence of attempts: a check, and on success a record of the
  reconnect, which reads the clock again.
 */
module ReconnectGate {
  import opened Frames

  datatype Config = Config(maxInWindow: nat, window: nat, cooldown: nat)

  predicate ValidConfig(c: Config) {
    c.maxInWindow > 0
  }

  datatype Gate = Gate(recent: seq<int>, suppressedUntil: Option<int>)

  /** Time from `t` to `now`, or zero if `t` is later. */
  function Since(now: int, t: int): nat {
    if now >= t then now - t else 0
  }

  function Pruned(c: Config, recent: seq<int>, now: int): seq<int> {
    if recent != [] && Since(now, recent[0]) > c.window then Pruned(c, recent[1..], now) else recent
  }

  predicate Suppressed(g: Gate, now: int) {
    g.suppressedUntil.Some? && now < g.suppressedUntil.value
  }

  /** A check: the new gate, and the end of the suppression if the reconnect is refused. */
  function Checked(c: Config, g: Gate, now: int): (Gate, Option<int>) {
    if Suppressed(g, now) then (g, g.suppressedUntil)
    else
      var recent := Pruned(c, g.recent, now);
      if |recent| >= c.maxInWindow then (Gate(recent, Some(now + c.cooldown)), Some(now + c.cooldown))
      else (Gate(recent, None), None)
  }

  function Recorded(c: Config, g: Gate, now: int): Gate {
    g.(recent := Pruned(c, g.recent + [now], now))
  }

  const CLEARED: Gate := Gate([], None)

  class Reconnects {
    const c: Config
    var recent: seq<int>
    var suppressedUntil: Option<int>

    function Snapshot(): Gate
      reads this
    {
      Gate(recent, suppressedUntil)
    }

    constructor (maxInWindow: nat, window: nat, cooldown: nat)
      requires maxInWindow > 0
      ensures ValidConfig(c) && c == Config(maxInWindow, window, cooldown) && Snapshot() == CLEARED
    {
      c := Config(maxInWindow, window, cooldown);
      recent, suppressedUntil := [], None;
    }

    method Prune(now: int)
      modifies this`recent
      ensures recent == Pruned(c, old(recent), now)
    {
      while recent != [] && Since(now, recent[0]) > c.window
        invariant Pruned(c, recent, now) == Pruned(c, old(recent), now)
        decreases |recent|
      {
        recent := recent[1..];
      }
    }

    method CanReconnect(now: int) returns (refusedUntil: Option<int>)
      modifies this
      ensures (Snapshot(), refusedUntil) == Checked(c, old(Snapshot()), now)
    {
      if suppressedUntil.Some? {
        if now < suppressedUntil.value {
          return suppressedUntil;
        }
        suppressedUntil := None;
      }
      Prune(now);
      if |recent| >= c.maxInWindow {
        suppressedUntil := Some(now + c.cooldown);
        return suppressedUntil;
      }
      return None;
    }

    method OnReconnect(now: int)
      modifies this
      ensures Snapshot() == Recorded(c, old(Snapshot()), now)
    {
      recent := recent + [now];
      Prune(now);
    }

    method Clear()
      modifies this
      ensures Snapshot() == CLEARED
    {
      recent, suppressedUntil := [], None;
    }
  }

  // ---------------------------------------------------------------- histories

  predicate NonDecreasing(s: seq<int>) {
    forall i, j :: 0 <= i < j < |s| ==> s[i] <= s[j]
  }

  /** The entries from instant `from` on. */
  function From(s: seq<int>, from: int): seq<int> {
    if s == [] then []
    else if s[|s| - 1] >= from then From(s[..|s| - 1], from) + [s[|s| - 1]]
    else From(s[..|s| - 1], from)
  }

  /** Entries in a closed interval. */
  function CountIn(s: seq<int>, lo: int, hi: int): nat {
    if s == [] then 0 else CountIn(s[..|s| - 1], lo, hi) + if lo <= s[|s| - 1] <= hi then 1 else 0
  }

  lemma {:induction false} FromTwice(s: seq<int>, a: int, b: int)
    requires a <= b
    ensures From(From(s, a), b) == From(s, b)
  {
    if s != [] {
      var init, last := s[..|s| - 1], s[|s| - 1];
      FromTwice(init, a, b);
      if last >= a {
        var t := From(init, a);
        assert (t + [last])[..|t|] == t;
      }
    }
  }

  lemma {:induction false} FromCount(s: seq<int>, from: int, hi: int)
    requires forall i :: 0 <= i < |s| ==> s[i] <= hi
    ensures |From(s, from)| == CountIn(s, from, hi)
  {
    if s != [] {
      FromCount(s[..|s| - 1], from, hi);
    }
  }

  lemma {:induction false} FromAll(s: seq<int>, from: int)
    requires forall i :: 0 <= i < |s| ==> s[i] >= from
    ensures From(s, from) == s
  {
    if s != [] {
      FromAll(s[..|s| - 1], from);
      assert s == s[..|s| - 1] + [s[|s| - 1]];
    }
  }

  lemma {:induction false} FromDropsFirst(s: seq<int>, from: int)
    requires s != [] && s[0] < from
    ensures From(s, from) == From(s[1..], from)
    decreases |s|
  {
    if |s| == 1 {
      assert s[..0] == [] && s[1..] == [];
    } else {
      FromDropsFirst(s[..|s| - 1], from);
      assert s[..|s| - 1][1..] == s[1..][..|s| - 2];
    }
  }

  lemma OrderedTail(s: seq<int>, cap: int)
    requires NonDecreasing(s) && s != [] && forall i :: 0 <= i < |s| ==> s[i] <= cap
    ensures NonDecreasing(s[1..]) && forall i :: 0 <= i < |s[1..]| ==> s[1..][i] <= cap
    ensures forall i :: 0 <= i < |s| ==> s[0] <= s[i]
  {
  }

  lemma OrderedSnoc(s: seq<int>, last: int)
    requires NonDecreasing(s) && forall i :: 0 <= i < |s| ==> s[i] <= last
    ensures NonDecreasing(s + [last]) && forall i :: 0 <= i < |s + [last]| ==> (s + [last])[i] <= last
  {
  }

  /** On an ordered history, pruning from the front keeps exactly what lies in the window. */
  lemma {:induction false} PrunedIsFrom(c: Config, recent: seq<int>, now: int)
    requires NonDecreasing(recent) && forall i :: 0 <= i < |recent| ==> recent[i] <= now
    ensures Pruned(c, recent, now) == From(recent, now - c.window)
    decreases |recent|
  {
    if recent != [] {
      OrderedTail(recent, now);
      if Since(now, recent[0]) > c.window {
        PrunedIsFrom(c, recent[1..], now);
        FromDropsFirst(recent, now - c.window);
      } else {
        FromAll(recent, now - c.window);
      }
    }
  }

  lemma {:induction false} FromOrdered(s: seq<int>, from: int, cap: int)
    requires NonDecreasing(s) && forall i :: 0 <= i < |s| ==> s[i] <= cap
    ensures NonDecreasing(From(s, from)) && forall i :: 0 <= i < |From(s, from)| ==> From(s, from)[i] <= cap
  {
    if s != [] {
      var init, last := s[..|s| - 1], s[|s| - 1];
      FromOrdered(init, from, last);
      OrderedSnoc(From(init, from), last);
    }
  }

  // ---------------------------------------------------------------- runs without a clear

  /** One attempt: the instant of the check and, on success, of the record. */
  datatype Attempt = Attempt(check: int, record: int)

  /** The gate, the granted reconnects so far, and the instant up to which the window was pruned. */
  datatype Run = Run(gate: Gate, grants: seq<int>, prunedAt: int, clock: int)

  predicate InOrder(r: Run, a: Attempt) {
    r.clock <= a.check <= a.record
  }

  function Attempted(c: Config, r: Run, a: Attempt): Run {
    var (g, refused) := Checked(c, r.gate, a.check);
    if refused.Some? then
      Run(g, r.grants, if Suppressed(r.gate, a.check) then r.prunedAt else a.check, a.check)
    else Run(Recorded(c, g, a.record), r.grants + [a.record], a.record, a.record)
  }

  function Opened(start: int): Run {
    Run(CLEARED, [], start, start)
  }

  /** The deque is the history of grants cut to the window, and no window holds too many of them. */
  ghost predicate Faithful(c: Config, r: Run) {
    && NonDecreasing(r.grants) && r.prunedAt <= r.clock
    && (forall i :: 0 <= i < |r.grants| ==> r.grants[i] <= r.prunedAt)
    && r.gate.recent == From(r.grants, r.prunedAt - c.window)
    && (r.gate.suppressedUntil.Some? ==>
          forall i :: 0 <= i < |r.grants| ==> r.grants[i] + c.cooldown <= r.gate.suppressedUntil.value)
  }

  /** Grants in the closed interval of one window from `t` on. */
  function InWindow(c: Config, grants: seq<int>, t: int): nat {
    CountIn(grants, t, t + c.window)
  }

  ghost predicate Limited(c: Config, grants: seq<int>) {
    forall t: int :: InWindow(c, grants, t) <= c.maxInWindow
  }

  /** Pruning again later gives the history cut to the later window. */
  lemma PrunedLater(c: Config, r: Run, now: int)
    requires Faithful(c, r) && r.clock <= now
    ensures Pruned(c, r.gate.recent, now) == From(r.grants, now - c.window)
  {
    FromOrdered(r.grants, r.prunedAt - c.window, r.prunedAt);
    PrunedIsFrom(c, r.gate.recent, now);
    FromTwice(r.grants, r.prunedAt - c.window, now - c.window);
  }

  /** A check is granted exactly when no suppression runs and the window behind it has room. */
  lemma GrantedIff(c: Config, r: Run, now: int)
    requires Faithful(c, r) && r.clock <= now
    ensures Checked(c, r.gate, now).1.None?
       <==> !Suppressed(r.gate, now) && CountIn(r.grants, now - c.window, now) < c.maxInWindow
  {
    PrunedLater(c, r, now);
    FromCount(r.grants, now - c.window, now);
  }

  /** Recording one more grant and pruning to its own window. */
  lemma RecordedWindow(c: Config, grants: seq<int>, check: int, record: int)
    requires NonDecreasing(grants) && check <= record && forall i :: 0 <= i < |grants| ==> grants[i] <= check
    ensures Pruned(c, From(grants, check - c.window) + [record], record)
         == From(grants + [record], record - c.window)
  {
    var all := grants + [record];
    var kept := From(grants, check - c.window) + [record];
    assert kept == From(all, check - c.window) by {
      assert all[..|all| - 1] == grants;
    }
    assert Pruned(c, kept, record) == From(kept, record - c.window) by {
      OrderedSnoc(grants, record);
      FromOrdered(all, check - c.window, record);
      PrunedIsFrom(c, kept, record);
    }
    FromTwice(all, check - c.window, record - c.window);
  }

  lemma RecordedKeeps(c: Config, r: Run, a: Attempt)
    requires Faithful(c, r) && InOrder(r, a) && Checked(c, r.gate, a.check).1.None?
    ensures Faithful(c, Attempted(c, r, a))
  {
    var t := Attempted(c, r, a);
    assert forall i :: 0 <= i < |r.grants| ==> r.grants[i] <= a.check;
    OrderedSnoc(r.grants, a.record);
    assert t.gate == Gate(From(t.grants, a.record - c.window), None) by {
      PrunedLater(c, r, a.check);
      RecordedWindow(c, r.grants, a.check, a.record);
    }
  }

  lemma AttemptedKeeps(c: Config, r: Run, a: Attempt)
    requires Faithful(c, r) && InOrder(r, a)
    ensures Faithful(c, Attempted(c, r, a))
  {
    if Checked(c, r.gate, a.check).1.None? {
      RecordedKeeps(c, r, a);
    } else if !Suppressed(r.gate, a.check) {
      PrunedLater(c, r, a.check);
    }
  }

  lemma {:induction false} CountMonotone(s: seq<int>, lo: int, hi: int, lo': int, hi': int)
    requires lo' <= lo && hi <= hi'
    ensures CountIn(s, lo, hi) <= CountIn(s, lo', hi')
  {
    if s != [] {
      CountMonotone(s[..|s| - 1], lo, hi, lo', hi');
    }
  }

  lemma {:induction false} CountCapped(s: seq<int>, lo: int, hi: int, cap: int)
    requires forall i :: 0 <= i < |s| ==> s[i] <= cap
    ensures CountIn(s, lo, hi) <= CountIn(s, lo, cap)
  {
    if s != [] {
      CountCapped(s[..|s| - 1], lo, hi, cap);
    }
  }

  lemma AttemptedLimited(c: Config, r: Run, a: Attempt)
    requires Faithful(c, r) && InOrder(r, a) && Limited(c, r.grants) && ValidConfig(c)
    ensures Limited(c, Attempted(c, r, a).grants)
  {
    if Checked(c, r.gate, a.check).1.None? {
      GrantedIff(c, r, a.check);
      var all := r.grants + [a.record];
      assert all[..|all| - 1] == r.grants;
      forall t: int
        ensures InWindow(c, all, t) <= c.maxInWindow
      {
        assert InWindow(c, r.grants, t) <= c.maxInWindow;
        if t <= a.record <= t + c.window {
          CountCapped(r.grants, t, t + c.window, a.check);
          CountMonotone(r.grants, t, a.check, a.check - c.window, a.check);
        }
      }
    }
  }

  predicate Clocked(start: int, attempts: seq<Attempt>) {
    && (forall i :: 0 <= i < |attempts| ==> start <= attempts[i].check <= attempts[i].record)
    && forall i :: 0 <= i < |attempts| - 1 ==> attempts[i].record <= attempts[i + 1].check
  }

  function RunOf(c: Config, start: int, attempts: seq<Attempt>): Run {
    if attempts == [] then Opened(start)
    else Attempted(c, RunOf(c, start, attempts[..|attempts| - 1]), attempts[|attempts| - 1])
  }

  /** In every run without a clear, no closed interval of one window holds more grants than allowed. */
  lemma {:induction false} WindowBound(c: Config, start: int, attempts: seq<Attempt>)
    requires ValidConfig(c) && Clocked(start, attempts)
    ensures var r := RunOf(c, start, attempts);
      && Faithful(c, r) && Limited(c, r.grants)
      && r.clock <= if attempts == [] then start else attempts[|attempts| - 1].record
  {
    if attempts != [] {
      var init, a := attempts[..|attempts| - 1], attempts[|attempts| - 1];
      WindowBound(c, start, init);
      var r := RunOf(c, start, init);
      if init != [] {
        assert init[|init| - 1].record <= attempts[|init|].check;
      }
      AttemptedKeeps(c, r, a);
      AttemptedLimited(c, r, a);
    }
  }

  // ---------------------------------------------------------------- suppression

  /** Nothing is granted before the suppression ends, and it is not moved by the checks it refuses. */
  lemma {:induction false} NoneBeforeExpiry(c: Config, r: Run, attempts: seq<Attempt>, until: int)
    requires Suppressed(r.gate, r.clock) && r.gate.suppressedUntil == Some(until)
    requires Clocked(r.clock, attempts) && forall i :: 0 <= i < |attempts| ==> attempts[i].check < until
    ensures Resumed(c, r, attempts).grants == r.grants && Resumed(c, r, attempts).gate == r.gate
  {
    if attempts != [] {
      NoneBeforeExpiry(c, r, attempts[..|attempts| - 1], until);
    }
  }

  function Resumed(c: Config, r: Run, attempts: seq<Attempt>): Run {
    if attempts == [] then r
    else Attempted(c, Resumed(c, r, attempts[..|attempts| - 1]), attempts[|attempts| - 1])
  }

  /** With a cooldown longer than the window, the first check at or after the expiry is granted. */
  lemma GrantedAfterExpiry(c: Config, r: Run, now: int)
    requires ValidConfig(c) && Faithful(c, r) && r.clock <= now && c.cooldown > c.window
    requires r.gate.suppressedUntil.Some? && now >= r.gate.suppressedUntil.value
    ensures Checked(c, r.gate, now).1.None?
  {
    GrantedIff(c, r, now);
    NothingIn(r.grants, now - c.window, now);
  }

  lemma {:induction false} NothingIn(s: seq<int>, lo: int, hi: int)
    requires forall i :: 0 <= i < |s| ==> s[i] < lo
    ensures CountIn(s, lo, hi) == 0
  {
    if s != [] {
      NothingIn(s[..|s| - 1], lo, hi);
    }
  }

  // ---------------------------------------------------------------- bursts

  function Repeated(t: int, n: nat): seq<int> {
    seq(n, _ => t)
  }

  /** `n` attempts, all of them at instant `t`. */
  function Burst(t: int, n: nat): seq<Attempt> {
    seq(n, _ => Attempt(t, t))
  }

  lemma BurstSnoc(t: int, n: nat)
    requires n > 0
    ensures Burst(t, n)[..n - 1] == Burst(t, n - 1) && Burst(t, n)[n - 1] == Attempt(t, t)
    ensures Repeated(t, n) == Repeated(t, n - 1) + [t]
  {
  }

  /** A gate that holds `k` records of instant `t` is asked again at `t`. */
  lemma BurstStep(c: Config, t: int, k: nat, grants: seq<int>)
    requires k <= c.maxInWindow
    ensures Attempted(c, Run(Gate(Repeated(t, k), None), grants, t, t), Attempt(t, t))
         == if k < c.maxInWindow then Run(Gate(Repeated(t, k + 1), None), grants + [t], t, t)
            else Run(Gate(Repeated(t, k), Some(t + c.cooldown)), grants, t, t)
  {
    var kept := Repeated(t, k);
    assert Pruned(c, kept, t) == kept;
    assert kept + [t] == Repeated(t, k + 1);
    assert Pruned(c, Repeated(t, k + 1), t) == Repeated(t, k + 1);
  }

  lemma {:induction false} BurstFills(c: Config, t: int, n: nat)
    requires n <= c.maxInWindow
    ensures RunOf(c, t, Burst(t, n)) == Run(Gate(Repeated(t, n), None), Repeated(t, n), t, t)
    decreases n
  {
    if n == 0 {
      assert Repeated(t, 0) == [];
    } else {
      BurstFills(c, t, n - 1);
      BurstSnoc(t, n);
      BurstStep(c, t, n - 1, Repeated(t, n - 1));
    }
  }

  /** A suppression of this run is over by `now`. */
  predicate ExpiredBy(r: Run, now: int) {
    r.clock <= now && r.gate.suppressedUntil.Some? && r.gate.suppressedUntil.value <= now
  }

  /** Whatever the run, the first check from the end of a suppression on is granted. */
  ghost predicate ExpiryFrees(c: Config) {
    forall start: int, attempts: seq<Attempt>, now: int ::
      Clocked(start, attempts) && ExpiredBy(RunOf(c, start, attempts), now) ==>
        Checked(c, RunOf(c, start, attempts).gate, now).1.None?
  }

  /** A burst fills the window and starts a suppression; a cooldown within the window expires too early. */
  lemma RefusedAfterExpiry(c: Config, t: int)
    requires ValidConfig(c) && c.cooldown <= c.window
    ensures var attempts := Burst(t, c.maxInWindow + 1);
      var r := RunOf(c, t, attempts);
      && Clocked(t, attempts) && r.clock == t && r.gate.suppressedUntil == Some(t + c.cooldown)
      && Checked(c, r.gate, t + c.cooldown).1.Some?
  {
    var n := c.maxInWindow;
    BurstFills(c, t, n);
    BurstSnoc(t, n + 1);
    BurstStep(c, t, n, Repeated(t, n));
    assert RunOf(c, t, Burst(t, n + 1)).gate == Gate(Repeated(t, n), Some(t + c.cooldown));
    assert Pruned(c, Repeated(t, n), t + c.cooldown) == Repeated(t, n);
  }

  /** Expiry ends every suppression exactly when the cooldown is longer than the window. */
  lemma ExpiryFreesIff(c: Config)
    requires ValidConfig(c)
    ensures ExpiryFrees(c) <==> c.cooldown > c.window
  {
    if c.cooldown > c.window {
      forall start: int, attempts: seq<Attempt>, now: int
        | Clocked(start, attempts) && ExpiredBy(RunOf(c, start, attempts), now)
        ensures Checked(c, RunOf(c, start, attempts).gate, now).1.None?
      {
        WindowBound(c, start, attempts);
        GrantedAfterExpiry(c, RunOf(c, start, attempts), now);
      }
    } else {
      RefusedAfterExpiry(c, 0);
      assert ExpiredBy(RunOf(c, 0, Burst(0, c.maxInWindow + 1)), c.cooldown);
    }
  }

  // ---------------------------------------------------------------- the supervisor's use

  /** The supervisor clears the gate as soon as an attempt is refused. */
  function Supervised(c: Config, r: Run, a: Attempt): Run {
    var t := Attempted(c, r, a);
    if Checked(c, r.gate, a.check).1.Some? then t.(gate := CLEARED) else t
  }

  function SupervisedRun(c: Config, start: int, attempts: seq<Attempt>): Run {
    if attempts == [] then Opened(start)
    else Supervised(c, SupervisedRun(c, start, attempts[..|attempts| - 1]), attempts[|attempts| - 1])
  }

  /** After a refusal the next attempt is always granted, whatever the cooldown. */
  lemma RefusalForgotten(c: Config, r: Run, a: Attempt, now: int)
    requires ValidConfig(c) && Checked(c, r.gate, a.check).1.Some?
    ensures Checked(c, Supervised(c, r, a).gate, now).1.None?
  {
  }

  lemma SupervisedBurstStep(c: Config, t: int, k: nat, grants: seq<int>)
    requires k <= c.maxInWindow
    ensures Supervised(c, Run(Gate(Repeated(t, k), None), grants, t, t), Attempt(t, t))
         == if k < c.maxInWindow then Run(Gate(Repeated(t, k + 1), None), grants + [t], t, t)
            else Run(CLEARED, grants, t, t)
  {
    BurstStep(c, t, k, grants);
    assert Pruned(c, Repeated(t, k), t) == Repeated(t, k);
  }

  lemma SupervisedBurstSnoc(c: Config, t: int, n: nat, before: Run, k: nat, grants: seq<int>)
    requires n > 0 && before == SupervisedRun(c, t, Burst(t, n - 1))
    requires before == Run(Gate(Repeated(t, k), None), grants, t, t) && k <= c.maxInWindow
    ensures SupervisedRun(c, t, Burst(t, n))
         == if k < c.maxInWindow then Run(Gate(Repeated(t, k + 1), None), grants + [t], t, t)
            else Run(CLEARED, grants, t, t)
  {
    BurstSnoc(t, n);
    SupervisedBurstStep(c, t, k, grants);
  }

  /** In a burst the gate grants `maxInWindow` attempts, refuses one, and grants as many again. */
  lemma {:induction false} SupervisedBurst(c: Config, t: int, n: nat, k: nat, granted: nat)
    requires n <= 2 * c.maxInWindow + 1
    requires if n <= c.maxInWindow then k == granted == n else k == n - c.maxInWindow - 1 && granted == n - 1
    ensures SupervisedRun(c, t, Burst(t, n)) == Run(Gate(Repeated(t, k), None), Repeated(t, granted), t, t)
    decreases n
  {
    if n == 0 {
      assert Repeated(t, 0) == [] && Burst(t, 0) == [];
    } else {
      var before := SupervisedRun(c, t, Burst(t, n - 1));
      if n == c.maxInWindow + 1 {
        SupervisedBurst(c, t, n - 1, n - 1, granted);
        SupervisedBurstSnoc(c, t, n, before, n - 1, Repeated(t, granted));
        assert Repeated(t, 0) == [];
      } else {
        SupervisedBurst(c, t, n - 1, k - 1, granted - 1);
        SupervisedBurstSnoc(c, t, n, before, k - 1, Repeated(t, granted - 1));
        BurstSnoc(t, granted);
      }
    }
  }

  lemma {:induction false} CountRepeated(t: int, n: nat, hi: int)
    requires t <= hi
    ensures CountIn(Repeated(t, n), t, hi) == n
    decreases n
  {
    if n > 0 {
      CountRepeated(t, n - 1, hi);
      assert Repeated(t, n)[..n - 1] == Repeated(t, n - 1);
    }
  }

  lemma BurstClocked(t: int, n: nat)
    ensures Clocked(t, Burst(t, n))
  {
  }

  lemma GrantsInWindow(c: Config, t: int, r: Run, granted: nat)
    requires r.grants == Repeated(t, granted)
    ensures InWindow(c, r.grants, t) == granted
  {
    CountRepeated(t, granted, t + c.window);
  }

  /** So no supervised gate keeps the window bound: 2 max + 1 attempts at one instant give 2 max grants. */
  lemma SupervisedExceeds(c: Config, t: int, n: nat)
    requires ValidConfig(c) && n == 2 * c.maxInWindow + 1
    ensures Clocked(t, Burst(t, n))
    ensures InWindow(c, SupervisedRun(c, t, Burst(t, n)).grants, t) == 2 * c.maxInWindow
  {
    BurstClocked(t, n);
    SupervisedBurst(c, t, n, c.maxInWindow, n - 1);
    GrantsInWindow(c, t, SupervisedRun(c, t, Burst(t, n)), n - 1);
  }

  /** The part of a run the gate still knows of; a refusal forgets it all. */
  function KnownAfter(c: Config, known: Run, a: Attempt): Run {
    if Checked(c, known.gate, a.check).1.Some? then Opened(a.check) else Attempted(c, known, a)
  }

  /** The run since the last refusal, as if it had been opened there. */
  function SinceRefusal(c: Config, start: int, attempts: seq<Attempt>): Run {
    if attempts == [] then Opened(start)
    else KnownAfter(c, SinceRefusal(c, start, attempts[..|attempts| - 1]), attempts[|attempts| - 1])
  }

  predicate EndsWith(whole: seq<int>, tail: seq<int>) {
    |tail| <= |whole| && whole[|whole| - |tail|..] == tail
  }

  lemma EndsWithSnoc(whole: seq<int>, tail: seq<int>, last: int)
    requires EndsWith(whole, tail)
    ensures EndsWith(whole + [last], tail + [last])
  {
    var w, t := whole + [last], tail + [last];
    assert w[|w| - |t|..] == whole[|whole| - |tail|..] + [last];
  }

  /** The gate of a supervised run knows the last grants of it, and these keep the bound. */
  ghost predicate Tracks(c: Config, all: Run, known: Run) {
    && all.gate == known.gate && all.clock == known.clock && known.gate.suppressedUntil == None
    && EndsWith(all.grants, known.grants)
    && (forall i :: 0 <= i < |all.grants| ==> all.grants[i] <= all.clock)
    && Faithful(c, known) && Limited(c, known.grants)
  }

  lemma TracksGrant(c: Config, all: Run, known: Run, a: Attempt)
    requires ValidConfig(c) && Tracks(c, all, known) && InOrder(all, a) && Checked(c, all.gate, a.check).1.None?
    ensures Tracks(c, Supervised(c, all, a), KnownAfter(c, known, a))
    ensures Supervised(c, all, a).grants == all.grants + [a.record]
  {
    RecordedKeeps(c, known, a);
    AttemptedLimited(c, known, a);
    EndsWithSnoc(all.grants, known.grants, a.record);
    assert Attempted(c, known, a).gate.suppressedUntil == None;
  }

  lemma TracksRefusal(c: Config, all: Run, known: Run, a: Attempt)
    requires ValidConfig(c) && Tracks(c, all, known) && InOrder(all, a) && Checked(c, all.gate, a.check).1.Some?
    ensures Tracks(c, Supervised(c, all, a), KnownAfter(c, known, a))
    ensures Supervised(c, all, a).grants == all.grants
  {
    assert Supervised(c, all, a).clock == a.check;
  }

  /** In every supervised run the grants since the last refusal are what the gate knows, and keep the bound. */
  lemma {:induction false} BoundSinceRefusal(c: Config, start: int, attempts: seq<Attempt>)
    requires ValidConfig(c) && Clocked(start, attempts)
    ensures Tracks(c, SupervisedRun(c, start, attempts), SinceRefusal(c, start, attempts))
    ensures SupervisedRun(c, start, attempts).clock <=
      if attempts == [] then start else attempts[|attempts| - 1].record
  {
    if attempts != [] {
      var init, a := attempts[..|attempts| - 1], attempts[|attempts| - 1];
      BoundSinceRefusal(c, start, init);
      if init != [] {
        assert init[|init| - 1].record <= attempts[|init|].check;
      }
      var all, known := SupervisedRun(c, start, init), SinceRefusal(c, start, init);
      if Checked(c, all.gate, a.check).1.None? {
        TracksGrant(c, all, known, a);
      } else {
        TracksRefusal(c, all, known, a);
      }
    }
  }

  /**
    An attempt respects the bound if the window behind it has room for one more grant, or if the grants
    since the last refusal alone make the gate refuse it.
   */
  predicate Respects(c: Config, all: seq<int>, known: seq<int>, a: Attempt) {
    || CountIn(all, a.record - c.window, a.record) < c.maxInWindow
    || CountIn(known, a.check - c.window, a.check) >= c.maxInWindow
  }

  predicate RespectsAfter(c: Config, start: int, before: seq<Attempt>, a: Attempt) {
    Respects(c, SupervisedRun(c, start, before).grants, SinceRefusal(c, start, before).grants, a)
  }

  /** One more grant at the end of the history keeps the bound exactly when its own window has room. */
  lemma GrantLimitedIff(c: Config, grants: seq<int>, record: int)
    requires Limited(c, grants) && forall i :: 0 <= i < |grants| ==> grants[i] <= record
    ensures Limited(c, grants + [record]) <==> CountIn(grants, record - c.window, record) < c.maxInWindow
  {
    var all := grants + [record];
    assert all[..|all| - 1] == grants;
    if CountIn(grants, record - c.window, record) < c.maxInWindow {
      forall t: int
        ensures InWindow(c, all, t) <= c.maxInWindow
      {
        assert InWindow(c, grants, t) <= c.maxInWindow;
        if t <= record <= t + c.window {
          CountCapped(grants, t, t + c.window, record);
          CountMonotone(grants, t, record, record - c.window, record);
        }
      }
    } else {
      assert InWindow(c, all, record - c.window) > c.maxInWindow;
    }
  }

  lemma LimitedPrefix(c: Config, grants: seq<int>, record: int)
    requires Limited(c, grants + [record])
    ensures Limited(c, grants)
  {
    var all := grants + [record];
    assert all[..|all| - 1] == grants;
    forall t: int
      ensures InWindow(c, grants, t) <= c.maxInWindow
    {
      assert InWindow(c, all, t) <= c.maxInWindow;
    }
  }

  /** A supervised attempt is granted exactly when the grants the gate knows of leave room for it. */
  lemma KnownDecides(c: Config, all: Run, known: Run, a: Attempt)
    requires ValidConfig(c) && Tracks(c, all, known) && InOrder(all, a)
    ensures Supervised(c, all, a).grants
         == if CountIn(known.grants, a.check - c.window, a.check) < c.maxInWindow then all.grants + [a.record]
            else all.grants
    ensures forall i :: 0 <= i < |all.grants| ==> all.grants[i] <= a.record
  {
    GrantedIff(c, known, a.check);
  }

  lemma HistoryLimitedIff(c: Config, grants: seq<int>, record: int, granted: bool, after: seq<int>)
    requires forall i :: 0 <= i < |grants| ==> grants[i] <= record
    requires after == if granted then grants + [record] else grants
    ensures Limited(c, after)
       <==> Limited(c, grants) && (CountIn(grants, record - c.window, record) < c.maxInWindow || !granted)
  {
    if granted {
      if Limited(c, grants) {
        GrantLimitedIff(c, grants, record);
      } else if Limited(c, grants + [record]) {
        LimitedPrefix(c, grants, record);
      }
    }
  }

  lemma SupervisedStepIff(c: Config, all: Run, known: Run, a: Attempt)
    requires ValidConfig(c) && Tracks(c, all, known) && InOrder(all, a)
    ensures Limited(c, Supervised(c, all, a).grants)
       <==> Limited(c, all.grants) && Respects(c, all.grants, known.grants, a)
  {
    KnownDecides(c, all, known, a);
    var granted := CountIn(known.grants, a.check - c.window, a.check) < c.maxInWindow;
    HistoryLimitedIff(c, all.grants, a.record, granted, Supervised(c, all, a).grants);
  }

  predicate AllRespect(c: Config, start: int, attempts: seq<Attempt>) {
    forall i :: 0 <= i < |attempts| ==> RespectsAfter(c, start, attempts[..i], attempts[i])
  }

  lemma AllRespectSnoc(c: Config, start: int, before: seq<Attempt>, a: Attempt)
    ensures AllRespect(c, start, before + [a]) <==> AllRespect(c, start, before) && RespectsAfter(c, start, before, a)
  {
    var attempts, n := before + [a], |before|;
    assert forall i :: 0 <= i < n ==> attempts[..i] == before[..i] && attempts[i] == before[i];
    assert attempts[..n] == before && attempts[n] == a;
    if AllRespect(c, start, attempts) {
      assert RespectsAfter(c, start, attempts[..n], attempts[n]);
      forall i | 0 <= i < n
        ensures RespectsAfter(c, start, before[..i], before[i])
      {
        assert RespectsAfter(c, start, attempts[..i], attempts[i]);
      }
    }
  }

  lemma SupervisedSnocIff(c: Config, start: int, before: seq<Attempt>, a: Attempt)
    requires ValidConfig(c) && Clocked(start, before + [a])
    ensures Limited(c, SupervisedRun(c, start, before + [a]).grants)
       <==> Limited(c, SupervisedRun(c, start, before).grants) && RespectsAfter(c, start, before, a)
  {
    var attempts, n := before + [a], |before|;
    assert attempts[..n] == before && attempts[n] == a;
    if n > 0 {
      assert attempts[n - 1].record <= attempts[n].check;
    }
    BoundSinceRefusal(c, start, before);
    SupervisedStepIff(c, SupervisedRun(c, start, before), SinceRefusal(c, start, before), a);
  }

  /** A supervised run keeps the window bound exactly when every one of its attempts respects it. */
  lemma {:induction false} SupervisedBoundIff(c: Config, start: int, attempts: seq<Attempt>)
    requires ValidConfig(c) && Clocked(start, attempts)
    ensures Limited(c, SupervisedRun(c, start, attempts).grants) <==> AllRespect(c, start, attempts)
    decreases |attempts|
  {
    if attempts != [] {
      var before, a := attempts[..|attempts| - 1], attempts[|attempts| - 1];
      assert attempts == before + [a];
      SupervisedBoundIff(c, start, before);
      SupervisedSnocIff(c, start, before, a);
      AllRespectSnoc(c, start, before, a);
    }
  }
}
