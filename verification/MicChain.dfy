/**
  The capture-side chain over exact arithmetic: DC blocker, high-pass filter, noise gate, soft limiter.

  The high-pass filter is a foreign component and stays a causal function of the samples it has seen.
  The gate's RMS is compared with its thresholds by their squares.
 */
module MicChain {
  import opened Reals

  function Abs(x: real): real {
    if x < 0.0 then -x else x
  }

  /** `start` times the `k`-th power of `x`. */
  function Geometric(x: real, k: nat, start: real): real {
    if k == 0 then start else x * Geometric(x, k - 1, start)
  }

  // ---------------------------------------------------------------- DC blocker

  const DC_BLOCK_R: real := 0.995

  datatype DcState = DcState(x1: real, y1: real)

  function DcStep(s: DcState, r: real, x: real): DcState {
    DcState(x, x - s.x1 + r * s.y1)
  }

  /** The blocker's state after the first `n` samples of an endless input. */
  function DcAfter(r: real, x: nat -> real, n: nat): DcState {
    if n == 0 then DcState(0.0, 0.0) else DcStep(DcAfter(r, x, n - 1), r, x(n - 1))
  }

  /** Output sample `n` of an endless input. */
  function DcOutput(r: real, x: nat -> real, n: nat): real {
    DcAfter(r, x, n + 1).y1
  }

  lemma Convex(r: real, a: real, b: real, bound: real)
    requires 0.0 <= r <= 1.0 && -bound <= a <= bound && -bound <= b <= bound
    ensures -bound <= r * b - (1.0 - r) * a <= bound
  {
    var w := 1.0 - r;
    var rb, wa, share, rest := r * b, w * a, r * bound, w * bound;
    Scaled(r, b, bound, rb, share);
    Scaled(w, a, bound, wa, rest);
    assert share + rest == bound by {
      Distribute(bound, 1.0, r);
    }
    assert -bound <= rb - wa <= bound;
  }

  predicate Tame(s: DcState, bound: real) {
    -bound <= s.y1 - s.x1 <= bound && -bound <= s.x1 <= bound
  }

  /** One sample: if the last correction was within the bound, so is the next. */
  lemma DcTame(s: DcState, r: real, x: real, bound: real)
    requires 0.0 <= r <= 1.0 && Tame(s, bound) && -bound <= x <= bound
    ensures Tame(DcStep(s, r, x), bound)
  {
    var z := s.y1 - s.x1;
    Convex(r, s.x1, z, bound);
    Distribute(r, s.y1, s.x1);
    Distribute(s.x1, 1.0, r);
  }

  /** What the blocker takes away from a bounded input is bounded by the same number. */
  lemma {:induction false} DcCorrection(r: real, x: nat -> real, bound: real, n: nat)
    requires 0.0 <= r <= 1.0 && forall i: nat :: Abs(x(i)) <= bound
    ensures Tame(DcAfter(r, x, n), bound)
  {
    assert Abs(x(0)) <= bound;
    if n > 0 {
      DcCorrection(r, x, bound, n - 1);
      assert Abs(x(n - 1)) <= bound;
      DcTame(DcAfter(r, x, n - 1), r, x(n - 1), bound);
    }
  }

  /** For every endless input within `bound`, the output stays within twice the bound. */
  lemma DcBounded(r: real, x: nat -> real, bound: real, n: nat)
    requires 0.0 <= r <= 1.0 && forall i: nat :: Abs(x(i)) <= bound
    ensures Abs(DcOutput(r, x, n)) <= 2.0 * bound
  {
    DcCorrection(r, x, bound, n + 1);
  }

  /** A constant input dies away exactly as the powers of the pole. */
  lemma {:induction false} DcDecay(r: real, x: nat -> real, level: real, n: nat)
    requires forall i: nat :: x(i) == level
    ensures DcOutput(r, x, n) == Geometric(r, n, level)
  {
    assert x(n) == level;
    var s := DcAfter(r, x, n);
    assert DcAfter(r, x, n + 1) == DcStep(s, r, x(n));
    if n > 0 {
      DcDecay(r, x, level, n - 1);
      assert x(n - 1) == level;
      assert s == DcStep(DcAfter(r, x, n - 1), r, x(n - 1));
    }
  }

  // ---------------------------------------------------------------- noise gate

  datatype GateConfig = GateConfig(openSquared: real, closeSquared: real, attack: real, release: real)

  /** Thresholds leave a hysteresis band, and smoothing coefficients lie strictly between 0 and 1. */
  predicate ValidGate(c: GateConfig) {
    && 0.0 <= c.closeSquared < c.openSquared
    && 0.0 < c.attack < 1.0 && 0.0 < c.release < 1.0
  }

  /** The target is 1 when the gate is open and 0 when it is closed. */
  datatype Gate = Gate(gain: real, open: bool)

  predicate GateInRange(g: Gate) {
    0.0 <= g.gain <= 1.0
  }

  function SumOfSquares(frame: seq<real>): real {
    if frame == [] then 0.0 else SumOfSquares(frame[..|frame| - 1]) + frame[|frame| - 1] * frame[|frame| - 1]
  }

  /** The target after measuring a frame; an empty frame has no level. */
  function Retarget(c: GateConfig, g: Gate, frame: seq<real>): Gate {
    if frame == [] then g
    else
      var meanSquare := SumOfSquares(frame) / |frame| as real;
      if meanSquare >= c.openSquared then g.(open := true)
      else if meanSquare <= c.closeSquared then g.(open := false)
      else g
  }

  function GateStep(c: GateConfig, g: Gate): Gate {
    var target := if g.open then 1.0 else 0.0;
    var coeff := if target > g.gain then c.attack else c.release;
    g.(gain := g.gain + coeff * (target - g.gain))
  }

  /** The gate after `k` samples of a frame. */
  function GateAfter(c: GateConfig, g: Gate, k: nat): Gate {
    if k == 0 then g else GateStep(c, GateAfter(c, g, k - 1))
  }

  function Gated(s: real, g: Gate): real {
    s * g.gain
  }

  /** The gate works in proportion: it leaves of one its gain, and of everything else the same part. */
  lemma GatedInProportion(s: real, g: Gate)
    ensures Gated(1.0, g) == g.gain && Gated(s, g) == s * Gated(1.0, g)
    ensures g.gain == 0.0 ==> Gated(s, g) == 0.0
    ensures g.gain == 1.0 ==> Gated(s, g) == s
  {
  }

  lemma Opening(a: real, gain: real, next: real)
    requires 0.0 < a < 1.0 && gain <= 1.0 && next == gain + a * (1.0 - gain)
    ensures gain <= next <= 1.0
  {
    var d := 1.0 - gain;
    NonNegative(a, d);
    NonNegative(1.0 - a, d);
    Distribute(d, 1.0, a);
  }

  lemma Closing(r: real, gain: real, next: real)
    requires 0.0 < r < 1.0 && 0.0 <= gain && next == gain + r * (0.0 - gain)
    ensures 0.0 <= next <= gain
  {
    NonNegative(r, gain);
    NonNegative(1.0 - r, gain);
    Distribute(gain, 1.0, r);
    Distribute(r, 0.0, gain);
  }

  /** A gate that is open opens further, up to one; a closed one closes further, down to zero. */
  lemma GateStepTowards(c: GateConfig, g: Gate)
    requires ValidGate(c) && GateInRange(g)
    ensures var h := GateStep(c, g);
      && GateInRange(h) && h.open == g.open
      && (if g.open then g.gain <= h.gain else h.gain <= g.gain)
  {
    var next := GateStep(c, g).gain;
    if g.open {
      Opening(if 1.0 > g.gain then c.attack else c.release, g.gain, next);
    } else {
      Closing(c.release, g.gain, next);
    }
  }

  /**
    Within a frame the gain closes the distance to its target geometrically, without overshooting:
    opening with the attack coefficient, closing with the release coefficient.
   */
  lemma GateClosedForm(c: GateConfig, g: Gate, k: nat)
    requires ValidGate(c) && GateInRange(g)
    ensures var h := GateAfter(c, g, k);
      && GateInRange(h) && h.open == g.open
      && (if g.open then g.gain <= h.gain else h.gain <= g.gain)
      && Gap(h) == Geometric(1.0 - (if g.open then c.attack else c.release), k, Gap(g))
  {
    GateStays(c, g, k);
    GateMonotone(c, g, k);
    GapsGeometric(c, g, k, 1.0 - (if g.open then c.attack else c.release));
  }

  lemma {:induction false} GateStays(c: GateConfig, g: Gate, k: nat)
    requires ValidGate(c) && GateInRange(g)
    ensures GateInRange(GateAfter(c, g, k)) && GateAfter(c, g, k).open == g.open
  {
    if k > 0 {
      GateStays(c, g, k - 1);
      GateStepTowards(c, GateAfter(c, g, k - 1));
    }
  }

  /** A sequence in which every element is `x` times the one before. */
  lemma {:induction false} GeometricSequence(x: real, s: seq<real>, k: nat)
    requires k < |s| && forall i :: 0 <= i < k ==> s[i + 1] == x * s[i]
    ensures s[k] == Geometric(x, k, s[0])
  {
    if k > 0 {
      GeometricSequence(x, s, k - 1);
    }
  }

  lemma OpenGap(a: real, gain: real, gap: real)
    requires gap == 1.0 - gain
    ensures 1.0 - (gain + a * gap) == (1.0 - a) * gap
  {
    Distribute(gap, 1.0, a);
  }

  lemma ClosedGap(r: real, gain: real, gap: real)
    requires gap == 0.0 - gain
    ensures gain + r * gap == (1.0 - r) * gain
  {
    Distribute(gain, 1.0, r);
    Distribute(r, 0.0, gain);
  }

  /** The distance to the target after one more sample. */
  lemma OpenStep(c: GateConfig, g: Gate, gap: real, next: real)
    requires ValidGate(c) && GateInRange(g) && g.open && gap == 1.0 - g.gain && next == 1.0 - GateStep(c, g).gain
    ensures next == (1.0 - c.attack) * gap
  {
    if gap == 0.0 {
      assert GateStep(c, g).gain == 1.0;
    } else {
      assert GateStep(c, g).gain == g.gain + c.attack * gap;
      OpenGap(c.attack, g.gain, gap);
    }
  }

  lemma ClosedStep(c: GateConfig, g: Gate, gap: real, next: real)
    requires ValidGate(c) && GateInRange(g) && !g.open && gap == g.gain && next == GateStep(c, g).gain
    ensures next == (1.0 - c.release) * gap
  {
    assert next == g.gain + c.release * (0.0 - g.gain);
    ClosedGap(c.release, g.gain, 0.0 - g.gain);
  }

  /** Distances to the target over the first samples of a frame. */
  function Gaps(c: GateConfig, g: Gate, k: nat): (gaps: seq<real>)
    ensures |gaps| == k + 1
    ensures forall i :: 0 <= i < k + 1 ==> gaps[i] == Gap(GateAfter(c, g, i))
  {
    if k == 0 then [Gap(g)] else Gaps(c, g, k - 1) + [Gap(GateAfter(c, g, k))]
  }

  function Gap(g: Gate): real {
    if g.open then 1.0 - g.gain else g.gain
  }

  lemma GapStep(c: GateConfig, g: Gate, gaps: seq<real>, i: nat, x: real)
    requires ValidGate(c) && GateInRange(g) && i + 1 < |gaps| && x == 1.0 - (if g.open then c.attack else c.release)
    requires gaps[i] == Gap(GateAfter(c, g, i)) && gaps[i + 1] == Gap(GateAfter(c, g, i + 1))
    ensures gaps[i + 1] == x * gaps[i]
  {
    GateStays(c, g, i);
    GateStays(c, g, i + 1);
    if g.open {
      OpenStep(c, GateAfter(c, g, i), gaps[i], gaps[i + 1]);
    } else {
      ClosedStep(c, GateAfter(c, g, i), gaps[i], gaps[i + 1]);
    }
  }

  lemma GapsGeometric(c: GateConfig, g: Gate, k: nat, x: real)
    requires ValidGate(c) && GateInRange(g) && x == 1.0 - (if g.open then c.attack else c.release)
    ensures Gaps(c, g, k)[k] == Geometric(x, k, Gaps(c, g, k)[0])
  {
    var gaps := Gaps(c, g, k);
    forall i | 0 <= i < k
      ensures gaps[i + 1] == x * gaps[i]
    {
      GapStep(c, g, gaps, i, x);
    }
    GeometricSequence(x, gaps, k);
  }

  lemma {:induction false} GateMonotone(c: GateConfig, g: Gate, k: nat)
    requires ValidGate(c) && GateInRange(g)
    ensures if g.open then g.gain <= GateAfter(c, g, k).gain else GateAfter(c, g, k).gain <= g.gain
  {
    if k > 0 {
      GateMonotone(c, g, k - 1);
      GateStays(c, g, k - 1);
      GateStepTowards(c, GateAfter(c, g, k - 1));
    }
  }

  /** Between the thresholds the gate keeps the target it has; from either threshold on it takes that side. */
  lemma Hysteresis(c: GateConfig, g: Gate, frame: seq<real>)
    requires ValidGate(c) && GateInRange(g) && frame != []
    ensures var level := SumOfSquares(frame) / |frame| as real;
      && GateInRange(Retarget(c, g, frame)) && Retarget(c, g, frame).gain == g.gain
      && (c.closeSquared < level < c.openSquared <==> forall h: Gate :: Retarget(c, h, frame) == h)
      && (level >= c.openSquared ==> Retarget(c, g, frame).open)
      && (level <= c.closeSquared ==> !Retarget(c, g, frame).open)
  {
    var level := SumOfSquares(frame) / |frame| as real;
    if level >= c.openSquared {
      assert Retarget(c, Gate(0.0, false), frame) != Gate(0.0, false);
    } else if level <= c.closeSquared {
      assert Retarget(c, Gate(0.0, true), frame) != Gate(0.0, true);
    }
  }

  /** Every sample is at least, or at most, of a level given by its square. */
  predicate Loud(frame: seq<real>, squared: real) {
    forall i :: 0 <= i < |frame| ==> frame[i] * frame[i] >= squared
  }

  predicate Quiet(frame: seq<real>, squared: real) {
    forall i :: 0 <= i < |frame| ==> frame[i] * frame[i] <= squared
  }

  lemma OneFewer(n: nat, x: real, bound: real)
    requires n > 0 && bound == n as real * x
    ensures (n - 1) as real * x == bound - x
  {
    Distribute(x, n as real, 1.0);
  }

  lemma {:induction false} LoudSquares(frame: seq<real>, squared: real, bound: real)
    requires Loud(frame, squared) && bound == |frame| as real * squared
    ensures SumOfSquares(frame) >= bound
  {
    if frame != [] {
      var init, square := frame[..|frame| - 1], frame[|frame| - 1] * frame[|frame| - 1];
      assert square >= squared;
      OneFewer(|frame|, squared, bound);
      LoudSquares(init, squared, bound - squared);
      assert SumOfSquares(frame) == SumOfSquares(init) + square;
    }
  }

  lemma {:induction false} QuietSquares(frame: seq<real>, squared: real, bound: real)
    requires Quiet(frame, squared) && bound == |frame| as real * squared
    ensures SumOfSquares(frame) <= bound
  {
    if frame != [] {
      var init, square := frame[..|frame| - 1], frame[|frame| - 1] * frame[|frame| - 1];
      assert square <= squared;
      OneFewer(|frame|, squared, bound);
      QuietSquares(init, squared, bound - squared);
      assert SumOfSquares(frame) == SumOfSquares(init) + square;
    }
  }

  lemma MeanBounded(sum: real, n: real, squared: real, mean: real, bound: real)
    requires n > 0.0 && mean == sum / n && bound == n * squared
    ensures sum >= bound ==> mean >= squared
    ensures sum <= bound ==> mean <= squared
  {
    assert mean * n == sum;
    if sum >= bound {
      Cancel(squared, mean, n);
    }
    if sum <= bound {
      Cancel(mean, squared, n);
    }
  }

  /** A frame as loud as the opening threshold opens the gate, one as quiet as the closing threshold closes it. */
  lemma GateDirection(c: GateConfig, g: Gate, frame: seq<real>)
    requires ValidGate(c) && frame != []
    ensures Loud(frame, c.openSquared) ==> Retarget(c, g, frame) == g.(open := true)
    ensures Quiet(frame, c.closeSquared) ==> Retarget(c, g, frame) == g.(open := false)
  {
    var n, mean := |frame| as real, SumOfSquares(frame) / |frame| as real;
    if Loud(frame, c.openSquared) {
      LoudSquares(frame, c.openSquared, n * c.openSquared);
      MeanBounded(SumOfSquares(frame), n, c.openSquared, mean, n * c.openSquared);
    }
    if Quiet(frame, c.closeSquared) {
      QuietSquares(frame, c.closeSquared, n * c.closeSquared);
      MeanBounded(SumOfSquares(frame), n, c.closeSquared, mean, n * c.closeSquared);
    }
  }

  /**
    Over one frame: a loud one shrinks the distance of the gain to one by the attack, a quiet one shrinks
    the gain itself by the release, both once per sample.
   */
  predicate GainMoved(c: GateConfig, g: Gate, h: Gate, frame: seq<real>) {
    && (frame != [] && Loud(frame, c.openSquared) ==>
          h.open && 1.0 - h.gain == Geometric(1.0 - c.attack, |frame|, 1.0 - g.gain))
    && (frame != [] && Quiet(frame, c.closeSquared) ==>
          !h.open && h.gain == Geometric(1.0 - c.release, |frame|, g.gain))
  }

  lemma FrameMovesGain(c: GateConfig, g: Gate, frame: seq<real>)
    requires ValidGate(c) && GateInRange(g)
    ensures GainMoved(c, g, GateAfter(c, Retarget(c, g, frame), |frame|), frame)
  {
    if frame != [] {
      GateDirection(c, g, frame);
      GateClosedForm(c, Retarget(c, g, frame), |frame|);
    }
  }

  // ---------------------------------------------------------------- soft limiter

  const CEILING: real := 0.9999
  const EPSILON: real := 0.000000001

  predicate ValidThreshold(thr: real) {
    0.0 < thr < CEILING
  }

  /** The knee above the threshold. */
  function Knee(thr: real, a: real): real
    requires ValidThreshold(thr) && a > thr
  {
    var over := (a - thr) / (1.0 - thr + EPSILON);
    var soft := thr + over / (1.0 + over);
    if soft < CEILING then soft else CEILING
  }

  function Limit(thr: real, s: real): real
    requires ValidThreshold(thr)
  {
    if s > thr then Knee(thr, s) else if s < -thr then -Knee(thr, -s) else s
  }

  /** The knee adds to the threshold a fraction `p` of one, with p m = a - thr. */
  lemma KneeForm(thr: real, a: real) returns (p: real, m: real)
    requires ValidThreshold(thr) && a > thr
    ensures p > 0.0 && m == 1.0 - thr + EPSILON + (a - thr) && p * m == a - thr
    ensures Knee(thr, a) == if thr + p < CEILING then thr + p else CEILING
  {
    var u, d := a - thr, 1.0 - thr + EPSILON;
    var over := u / d;
    Quotient(u, d);
    Quotient(over, 1.0 + over);
    p := over / (1.0 + over);
    m := d + u;
    KneeFraction(p, over, u, d);
  }

  lemma Quotient(u: real, m: real)
    requires u > 0.0 && m > 0.0
    ensures u / m * m == u && u / m > 0.0
  {
  }

  lemma KneeFraction(p: real, over: real, u: real, d: real)
    requires over * d == u && p * (1.0 + over) == over
    ensures p * (d + u) == u
  {
    assert d + u == (1.0 + over) * d;
    assert p * ((1.0 + over) * d) == p * (1.0 + over) * d;
  }

  lemma Cancel(p: real, q: real, m: real)
    requires m > 0.0 && p * m <= q * m
    ensures p <= q
  {
  }

  lemma FractionMonotone(u: real, p: real, m: real, v: real, q: real, n: real)
    requires 0.0 < u <= v && u < m && n - m == v - u && p * m == u && q * n == v
    ensures p <= q
  {
    Cancel(p, 1.0, m);
    NonNegative(1.0 - p, v - u);
    Distribute(v - u, 1.0, p);
    Distribute(p, m, v - u);
    assert m + (v - u) == n;
    Cancel(p, q, n);
  }

  /** The limiter is odd, keeps order, and never lets a sample past the ceiling. */
  lemma LimiterShape(thr: real, a: real, b: real)
    requires ValidThreshold(thr)
    ensures Limit(thr, -a) == -Limit(thr, a)
    ensures a <= b ==> Limit(thr, a) <= Limit(thr, b)
    ensures Abs(Limit(thr, a)) <= CEILING
  {
    KneeAbove(thr, a);
    KneeAbove(thr, -a);
    KneeAbove(thr, b);
    KneeAbove(thr, -b);
    if a <= b {
      if a > thr {
        KneeMonotone(thr, a, b);
      } else if b < -thr {
        KneeMonotone(thr, -b, -a);
      }
    }
  }

  lemma KneeAbove(thr: real, a: real)
    requires ValidThreshold(thr)
    ensures a > thr ==> thr <= Knee(thr, a) <= CEILING
  {
    if a > thr {
      var p, m := KneeForm(thr, a);
    }
  }

  lemma KneeMonotone(thr: real, a: real, b: real)
    requires ValidThreshold(thr) && thr < a <= b
    ensures Knee(thr, a) <= Knee(thr, b)
  {
    var p, m := KneeForm(thr, a);
    var q, n := KneeForm(thr, b);
    FractionMonotone(a - thr, p, m, b - thr, q, n);
  }

  lemma Shrinks(p: real, m: real, product: real)
    requires p > 0.0 && p * m == product
    ensures p > product <==> m < 1.0
  {
    Distribute(p, 1.0, m);
    Distribute(p, m, 1.0);
    if m < 1.0 {
      assert p * (1.0 - m) > 0.0;
    } else {
      NonNegative(p, m - 1.0);
    }
  }

  lemma LouderKnee(thr: real, a: real)
    requires ValidThreshold(thr) && a > thr
    ensures Knee(thr, a) > a <==> a < CEILING && a < 2.0 * thr - EPSILON
  {
    var p, m := KneeForm(thr, a);
    Shrinks(p, m, a - thr);
  }

  lemma LimitAbs(thr: real, s: real)
    requires ValidThreshold(thr)
    ensures Abs(Limit(thr, s)) == if Abs(s) > thr then Knee(thr, Abs(s)) else Abs(s)
  {
    KneeAbove(thr, Abs(s));
  }

  /** Up to the threshold a sample passes unchanged; above it the knee adds the fraction (a - thr) / (1 + a - 2 thr). */
  lemma LimiterExact(thr: real, a: real)
    requires ValidThreshold(thr) && a >= 0.0
    ensures a <= thr ==> Limit(thr, a) == a
    ensures a > thr && Limit(thr, a) < CEILING ==>
      (Limit(thr, a) - thr) * (1.0 - thr + EPSILON + (a - thr)) == a - thr
  {
    if a > thr {
      var p, m := KneeForm(thr, a);
    }
  }

  /** Not a limiter everywhere: the exact range of levels it makes louder. */
  lemma LouderIff(thr: real, s: real)
    requires ValidThreshold(thr)
    ensures Abs(Limit(thr, s)) > Abs(s) <==> thr < Abs(s) && Abs(s) < CEILING && Abs(s) < 2.0 * thr - EPSILON
  {
    LimitAbs(thr, s);
    if Abs(s) > thr {
      LouderKnee(thr, Abs(s));
    }
  }

  // ---------------------------------------------------------------- the whole chain

  /** The filter's output for its newest input, given everything it has seen. */
  type Filter = seq<real> -> real

  datatype Chain = Chain(dc: DcState, heard: seq<real>, gate: Gate)

  /** The two per-sample stages over a frame: the state behind them and the samples they leave. */
  function Filtered(filter: Filter, ch: Chain, frame: seq<real>): (Chain, seq<real>) {
    if frame == [] then (ch, [])
    else
      var (c, out) := Filtered(filter, ch, frame[..|frame| - 1]);
      var dc := DcStep(c.dc, DC_BLOCK_R, frame[|frame| - 1]);
      var heard := c.heard + [dc.y1];
      (c.(dc := dc, heard := heard), out + [filter(heard)])
  }

  lemma {:induction false} FilteredLength(filter: Filter, ch: Chain, frame: seq<real>)
    ensures |Filtered(filter, ch, frame).1| == |frame| && Filtered(filter, ch, frame).0.gate == ch.gate
  {
    if frame != [] {
      FilteredLength(filter, ch, frame[..|frame| - 1]);
    }
  }

  /**
    The per-sample stages of a fresh chain: the filter hears exactly the blocked input, and each sample it
    leaves depends on what it has heard up to then.
   */
  lemma {:induction false} FilteredExactly(filter: Filter, ch: Chain, frame: seq<real>, x: nat -> real, i: nat)
    requires ch.dc == DcState(0.0, 0.0) && ch.heard == [] && i < |frame|
    requires forall j :: 0 <= j < |frame| ==> x(j) == frame[j]
    ensures var (after, out) := Filtered(filter, ch, frame);
      && after.dc == DcAfter(DC_BLOCK_R, x, |frame|) && |after.heard| == |frame| == |out|
      && after.heard[i] == DcOutput(DC_BLOCK_R, x, i) && out[i] == filter(after.heard[..i + 1])
  {
    var n := |frame| - 1;
    var init := frame[..n];
    var (before, left) := Filtered(filter, ch, init);
    if n == 0 {
      assert before.dc == DcAfter(DC_BLOCK_R, x, 0) && before.heard == [] && left == [];
    } else {
      FilteredExactly(filter, ch, init, x, if i < n then i else 0);
    }
    var (after, out) := Filtered(filter, ch, frame);
    assert x(n) == frame[n];
    assert after.dc == DcStep(before.dc, DC_BLOCK_R, x(n)) && after.heard == before.heard + [after.dc.y1];
    assert after.heard[..i + 1] == if i < n then before.heard[..i + 1] else after.heard;
  }

  class MicProcessor {
    const filter: Filter
    const gateConfig: GateConfig
    const threshold: real
    var dc: DcState
    var heard: seq<real>
    var gate: Gate

    function Snapshot(): Chain
      reads this
    {
      Chain(dc, heard, gate)
    }

    predicate Valid()
      reads this
    {
      ValidGate(gateConfig) && ValidThreshold(threshold) && GateInRange(gate)
    }

    constructor (filter: Filter, gateConfig: GateConfig, threshold: real)
      requires ValidGate(gateConfig) && ValidThreshold(threshold)
      ensures Valid() && Snapshot() == Chain(DcState(0.0, 0.0), [], Gate(0.0, false))
      ensures this.filter == filter && this.gateConfig == gateConfig && this.threshold == threshold
    {
      this.filter := filter;
      this.gateConfig := gateConfig;
      this.threshold := threshold;
      dc, heard, gate := DcState(0.0, 0.0), [], Gate(0.0, false);
    }

    method BlockDc(x: real) returns (y: real)
      modifies this`dc
      ensures dc == DcStep(old(dc), DC_BLOCK_R, x) && y == dc.y1
    {
      y := x - dc.x1 + DC_BLOCK_R * dc.y1;
      dc := DcState(x, y);
    }

    method FilterFrame(frame: array<real>)
      requires Valid()
      modifies this`dc, this`heard, frame
      ensures Valid()
      ensures (Snapshot(), frame[..]) == Filtered(filter, old(Snapshot()), old(frame[..]))
    {
      ghost var ch, input := Snapshot(), frame[..];
      FilteredLength(filter, ch, input);
      for i := 0 to frame.Length
        invariant (Snapshot(), frame[..i]) == Filtered(filter, ch, input[..i])
        invariant frame[i..] == input[i..]
      {
        assert input[..i + 1][..i] == input[..i] && frame[i] == input[i];
        FilteredLength(filter, ch, input[..i]);
        FilteredLength(filter, ch, input[..i + 1]);
        var y := BlockDc(frame[i]);
        heard := heard + [y];
        frame[i] := filter(heard);
        assert frame[..i + 1] == frame[..i] + [frame[i]];
      }
      assert frame[..frame.Length] == frame[..] && input[..frame.Length] == input;
    }

    method MeasureFrame(frame: array<real>) returns (sum: real)
      ensures sum == SumOfSquares(frame[..])
    {
      sum := 0.0;
      for i := 0 to frame.Length
        invariant sum == SumOfSquares(frame[..i])
      {
        assert frame[..i + 1][..i] == frame[..i];
        sum := sum + frame[i] * frame[i];
      }
      assert frame[..frame.Length] == frame[..];
    }

    method SetTarget(frame: array<real>)
      requires Valid()
      modifies this`gate
      ensures Valid() && gate == Retarget(gateConfig, old(gate), frame[..])
    {
      var sum := MeasureFrame(frame);
      if frame.Length > 0 {
        var meanSquare := sum / frame.Length as real;
        if meanSquare >= gateConfig.openSquared {
          gate := gate.(open := true);
        } else if meanSquare <= gateConfig.closeSquared {
          gate := gate.(open := false);
        }
      }
    }

    method MoveGate()
      requires Valid()
      modifies this`gate
      ensures Valid() && gate == GateStep(gateConfig, old(gate))
    {
      GateStepTowards(gateConfig, gate);
      var target := if gate.open then 1.0 else 0.0;
      var coeff := if target > gate.gain then gateConfig.attack else gateConfig.release;
      gate := gate.(gain := gate.gain + coeff * (target - gate.gain));
    }

    method GateFrame(frame: array<real>)
      requires Valid()
      modifies this`gate, frame
      ensures Valid()
      ensures var g := Retarget(gateConfig, old(gate), old(frame[..]));
        && gate == GateAfter(gateConfig, g, frame.Length)
        && forall i :: 0 <= i < frame.Length ==> frame[i] == Gated(old(frame[i]), GateAfter(gateConfig, g, i + 1))
    {
      SetTarget(frame);
      ghost var g := gate;
      for i := 0 to frame.Length
        invariant Valid() && gate == GateAfter(gateConfig, g, i)
        invariant forall j :: 0 <= j < i ==> frame[j] == Gated(old(frame[j]), GateAfter(gateConfig, g, j + 1))
        invariant forall j :: i <= j < frame.Length ==> frame[j] == old(frame[j])
      {
        MoveGate();
        frame[i] := Gated(frame[i], gate);
      }
    }

    method LimitFrame(frame: array<real>)
      requires Valid()
      modifies frame
      ensures forall i :: 0 <= i < frame.Length ==> frame[i] == Limit(threshold, old(frame[i]))
    {
      for i := 0 to frame.Length
        invariant forall j :: 0 <= j < i ==> frame[j] == Limit(threshold, old(frame[j]))
        invariant forall j :: i <= j < frame.Length ==> frame[j] == old(frame[j])
      {
        var s := frame[i];
        var a := Abs(s);
        if a > threshold {
          var over := (a - threshold) / (1.0 - threshold + EPSILON);
          var soft := threshold + over / (1.0 + over);
          var limited := if soft < CEILING then soft else CEILING;
          frame[i] := if s < 0.0 then -limited else limited;
        }
      }
    }

    /** Whatever comes in, every sample leaves the chain within the ceiling and the gate stays in range. */
    method ProcessFrame(frame: array<real>)
      requires Valid()
      modifies this, frame
      ensures Valid()
      ensures var (ch, filtered) := Filtered(filter, old(Snapshot()), old(frame[..]));
        var g := Retarget(gateConfig, old(gate), filtered);
        && Snapshot() == ch.(gate := GateAfter(gateConfig, g, frame.Length))
        && |filtered| == frame.Length
        && forall i :: 0 <= i < frame.Length ==>
             frame[i] == Limit(threshold, Gated(filtered[i], GateAfter(gateConfig, g, i + 1)))
      ensures forall i :: 0 <= i < frame.Length ==> -CEILING <= frame[i] <= CEILING
      ensures GainMoved(gateConfig, old(gate), gate, Filtered(filter, old(Snapshot()), old(frame[..])).1)
    {
      FilteredLength(filter, Snapshot(), frame[..]);
      FilterFrame(frame);
      FrameMovesGain(gateConfig, gate, frame[..]);
      GateFrame(frame);
      ghost var gated := frame[..];
      LimitFrame(frame);
      forall i | 0 <= i < frame.Length
        ensures -CEILING <= frame[i] <= CEILING
      {
        LimiterShape(threshold, gated[i], gated[i]);
      }
    }
  }
}
