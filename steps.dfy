/**
 * The per-strategy formulas and per-list steps of the allocation engine's
 * tier pass (graph.py, `allocate_funds`): scoring, target shares, smoothing,
 * clamping, renormalisation, rounding to hundredths, drift correction and the
 * reason tag. Allocations are percentages held as exact reals; a rounded
 * allocation is an integer count of hundredths of a percent, so 100.00 % is
 * 10000.
 */
module Steps {
  import opened Sums

  // Policy parameters of the engine.
  const LOSS_THRESHOLD: real := 2.0
  const MIN_ALLOC: real := 5.0
  const MAX_ALLOC: real := 80.0
  const SMOOTHING_ALPHA: real := 0.35
  // Score floor and weak-trend penalty factor.
  const SCORE_FLOOR: real := 0.01
  const WEAK_FACTOR: real := 0.5
  // 100.00 % in hundredths.
  const FULL: int := 10000

  function Max(a: real, b: real): real { if a >= b then a else b }
  function Abs(a: real): real { if a >= 0.0 then a else -a }
  function Min(a: real, b: real): real { if a <= b then a else b }

  // ---------------------------------------------------------------- scoring

  /** A strategy trails its historical average by more than the threshold. */
  predicate IsWeak(currentAPY: real, avgAPY: real)
  {
    currentAPY < avgAPY - LOSS_THRESHOLD
  }

  /**
   * The score of a strategy: its current APY, halved on a weak trend, and
   * never below the floor. The result is the larger of the (possibly halved)
   * APY and the floor.
   */
  function Score(currentAPY: real, avgAPY: real): (score: real)
    ensures score >= SCORE_FLOOR
    ensures var base := if IsWeak(currentAPY, avgAPY) then currentAPY * WEAK_FACTOR else currentAPY;
            score >= base && (score == base || score == SCORE_FLOOR)
  {
    var score := if IsWeak(currentAPY, avgAPY) then currentAPY * WEAK_FACTOR else currentAPY;
    Max(score, SCORE_FLOOR)
  }

  /** A weak trend never scores above what the same APY would score without it. */
  lemma WeakNeverScoresHigher(currentAPY: real, avgAPY: real, otherAvg: real)
    requires IsWeak(currentAPY, avgAPY) && !IsWeak(currentAPY, otherAvg)
    ensures Score(currentAPY, avgAPY) <= Score(currentAPY, otherAvg)
    ensures currentAPY > SCORE_FLOOR ==> Score(currentAPY, otherAvg) == currentAPY
  {
  }

  // ------------------------------------------------------ target and final

  /**
   * Percent shares proportional to `xs`, given their total: `xs[i] / total * 100`.
   * Used for the targets (from the scores and `total_score`) and for the
   * renormalised allocations (from the clamped ones and `total_clamped`).
   * The shares sum to 100 and keep the ratios of the inputs.
   */
  function Normalise(xs: seq<real>, total: real): (r: seq<real>)
    requires total == Sum(xs) && total != 0.0
    ensures |r| == |xs|
    ensures Sum(r) == 100.0
    ensures forall i, j :: 0 <= i < |xs| && 0 <= j < |xs| ==> r[i] * xs[j] == r[j] * xs[i]
  {
    var r := seq(|xs|, i requires 0 <= i < |xs| => xs[i] / total * 100.0);
    ScaledSum(xs, total, r);
    ScaledRatios(xs, total, r);
    r
  }

  lemma ScaledSum(xs: seq<real>, total: real, r: seq<real>)
    requires total == Sum(xs) && total != 0.0
    requires |r| == |xs|
    requires forall i :: 0 <= i < |xs| ==> r[i] == xs[i] / total * 100.0
    ensures Sum(r) == 100.0
  {
    SumDivided(xs, total, r);
    CancelTotal(Sum(r), total, Sum(xs));
  }

  /** Dividing every element by `t` (as a percentage) divides the sum by `t`. */
  lemma {:induction false} SumDivided(xs: seq<real>, t: real, r: seq<real>)
    requires t != 0.0
    requires |r| == |xs|
    requires forall i :: 0 <= i < |xs| ==> r[i] == xs[i] / t * 100.0
    ensures Sum(r) * t == Sum(xs) * 100.0
  {
    if xs != [] {
      var m := |xs| - 1;
      SumDivided(xs[..m], t, r[..m]);
      TimesDivided(xs[m], t, r[m]);
      assert (Sum(r[..m]) + r[m]) * t == Sum(r[..m]) * t + r[m] * t;
    }
  }

  lemma TimesDivided(x: real, t: real, y: real)
    requires t != 0.0 && y == x / t * 100.0
    ensures y * t == x * 100.0
  {
  }

  lemma CancelTotal(s: real, t: real, u: real)
    requires t == u && t != 0.0 && s * t == u * 100.0
    ensures s == 100.0
  {
  }

  lemma ScaledRatios(xs: seq<real>, total: real, r: seq<real>)
    requires total != 0.0
    requires |r| == |xs|
    requires forall i :: 0 <= i < |xs| ==> r[i] == xs[i] / total * 100.0
    ensures forall i, j :: 0 <= i < |xs| && 0 <= j < |xs| ==> r[i] * xs[j] == r[j] * xs[i]
  {
    var k := 100.0 / total;
    forall i, j | 0 <= i < |xs| && 0 <= j < |xs| ensures r[i] * xs[j] == r[j] * xs[i] {
      assert r[i] == xs[i] * k && r[j] == xs[j] * k;
      ProductsCommute(xs[i], xs[j], k);
    }
  }

  lemma ProductsCommute(a: real, b: real, k: real)
    ensures (a * k) * b == (b * k) * a
  {
  }

  /** The share of one input: its fraction of the total, in percent. */
  lemma NormaliseAt(xs: seq<real>, total: real, i: nat)
    requires total == Sum(xs) && total != 0.0
    requires i < |xs|
    ensures Normalise(xs, total)[i] == xs[i] / total * 100.0
  {
  }

  /** Positive inputs with a positive total give positive shares. */
  lemma NormalisePositive(xs: seq<real>, total: real)
    requires total == Sum(xs) && total > 0.0
    requires forall i :: 0 <= i < |xs| ==> xs[i] > 0.0
    ensures forall i :: 0 <= i < |xs| ==> 0.0 < Normalise(xs, total)[i]
  {
    forall i | 0 <= i < |xs| ensures 0.0 < Normalise(xs, total)[i] {
      NormaliseAt(xs, total, i);
    }
  }

  /** Every score is at least the floor, so a non-empty tier's total is positive. */
  lemma {:induction false} ScoresTotalPositive(scores: seq<real>)
    requires |scores| > 0
    requires forall i :: 0 <= i < |scores| ==> scores[i] >= SCORE_FLOOR
    ensures Sum(scores) >= |scores| as real * SCORE_FLOOR > 0.0
  {
    SumAtLeast(scores, SCORE_FLOOR);
  }

  // --------------------------------------------------------------- smoothing

  /**
   * One smoothing step from the prior allocation toward the target: the
   * result lies between the two.
   */
  function Smooth(prior: real, target: real): (r: real)
    ensures Min(prior, target) <= r <= Max(prior, target)
  {
    prior + SMOOTHING_ALPHA * (target - prior)
  }

  /**
   * Each step closes 35 % of the gap: the new gap to the target is 0.65 of
   * the old one, so repeated rebalancing toward a fixed target converges.
   */
  lemma SmoothContracts(prior: real, target: real)
    ensures Smooth(prior, target) - target == 0.65 * (prior - target)
    ensures prior != target ==> Abs(Smooth(prior, target) - target) < Abs(prior - target)
  {
  }

  function SmoothAll(olds: seq<real>, targets: seq<real>): (r: seq<real>)
    requires |targets| == |olds|
    ensures |r| == |olds|
    ensures forall i :: 0 <= i < |olds| ==> Min(olds[i], targets[i]) <= r[i] <= Max(olds[i], targets[i])
  {
    seq(|olds|, i requires 0 <= i < |olds| => Smooth(olds[i], targets[i]))
  }

  /**
   * Smoothing moves the total the same fraction (0.35) of the way toward the
   * targets' total; old allocations and targets that both sum to 100 give
   * smoothed allocations that sum to 100.
   */
  lemma SmoothAllSum(olds: seq<real>, targets: seq<real>)
    requires |targets| == |olds|
    ensures Sum(SmoothAll(olds, targets)) == 0.65 * Sum(olds) + 0.35 * Sum(targets)
    ensures Sum(olds) == 100.0 && Sum(targets) == 100.0 ==> Sum(SmoothAll(olds, targets)) == 100.0
  {
    SmoothedSum(olds, targets, SmoothAll(olds, targets));
  }

  lemma SmoothedSum(olds: seq<real>, targets: seq<real>, zs: seq<real>)
    requires |targets| == |olds| == |zs|
    requires forall i :: 0 <= i < |olds| ==> zs[i] == Smooth(olds[i], targets[i])
    ensures Sum(zs) == Sum(olds) + 0.35 * (Sum(targets) - Sum(olds))
  {
    assert forall i :: 0 <= i < |olds| ==> zs[i] == olds[i] + 0.35 * (targets[i] - olds[i]) by {
      forall i | 0 <= i < |olds| ensures zs[i] == olds[i] + 0.35 * (targets[i] - olds[i]) {
        assert zs[i] == Smooth(olds[i], targets[i]);
      }
    }
    SumTowards(olds, targets, zs);
  }

  /**
   * Moving every element of `xs` 35 % of the way to the matching element of
   * `ys` moves the sum 35 % of the way.
   */
  lemma {:induction false} SumTowards(xs: seq<real>, ys: seq<real>, zs: seq<real>)
    requires |ys| == |xs| && |zs| == |xs|
    requires forall i :: 0 <= i < |xs| ==> zs[i] == xs[i] + 0.35 * (ys[i] - xs[i])
    ensures Sum(zs) == Sum(xs) + 0.35 * (Sum(ys) - Sum(xs))
  {
    if xs != [] {
      var m := |xs| - 1;
      SumTowards(xs[..m], ys[..m], zs[..m]);
    }
  }

  // ---------------------------------------------------------------- clamping

  /** Clamping to [MIN_ALLOC, MAX_ALLOC]: in range, and the identity on the range. */
  function Clamp(a: real): (r: real)
    ensures MIN_ALLOC <= r <= MAX_ALLOC
    ensures MIN_ALLOC <= a <= MAX_ALLOC ==> r == a
    ensures a < MIN_ALLOC ==> r == MIN_ALLOC
    ensures a > MAX_ALLOC ==> r == MAX_ALLOC
  {
    Min(Max(a, MIN_ALLOC), MAX_ALLOC)
  }

  function ClampAll(xs: seq<real>): (r: seq<real>)
    ensures |r| == |xs|
    ensures forall i :: 0 <= i < |xs| ==> MIN_ALLOC <= r[i] <= MAX_ALLOC
    ensures forall i :: 0 <= i < |xs| && MIN_ALLOC <= xs[i] <= MAX_ALLOC ==> r[i] == xs[i]
  {
    seq(|xs|, i requires 0 <= i < |xs| => Clamp(xs[i]))
  }

  // --------------------------------------------------------- renormalisation

  function EqualSplit(n: nat): (r: seq<real>)
    requires n > 0
    ensures |r| == n
    ensures forall i :: 0 <= i < n ==> r[i] == 100.0 / n as real
    ensures Sum(r) == 100.0
  {
    var r := seq(n, _ => 100.0 / n as real);
    SumConst(r, 100.0 / n as real);
    r
  }

  /**
   * Rescales to a 100 % total; a zero total falls back to an equal split.
   * Either way the result sums to 100.
   */
  function Finalise(xs: seq<real>, total: real): (r: seq<real>)
    requires |xs| > 0 && total == Sum(xs)
    ensures |r| == |xs|
    ensures Sum(r) == 100.0
    ensures total == 0.0 ==> forall i :: 0 <= i < |xs| ==> r[i] == 100.0 / |xs| as real
    ensures total != 0.0 ==> forall i, j :: 0 <= i < |xs| && 0 <= j < |xs| ==> r[i] * xs[j] == r[j] * xs[i]
  {
    if total == 0.0 then EqualSplit(|xs|) else Normalise(xs, total)
  }

  /**
   * Clamped allocations total at least 5 % per strategy, so the equal-split
   * fallback is never taken for them: the result is their rescaling.
   */
  lemma {:induction false} FallbackUnreachable(clamped: seq<real>, total: real)
    requires |clamped| > 0 && total == Sum(clamped)
    requires forall i :: 0 <= i < |clamped| ==> MIN_ALLOC <= clamped[i] <= MAX_ALLOC
    ensures total >= MIN_ALLOC * |clamped| as real > 0.0
    ensures Finalise(clamped, total) == Normalise(clamped, total)
  {
    SumAtLeast(clamped, MIN_ALLOC);
  }

  /**
   * Renormalising after clamping can undo the cap: smoothed allocations
   * [85, 15] clamp to [80, 15], whose rescaling gives the first strategy
   * 80 / 95 of the tier, above MAX_ALLOC.
   */
  lemma RenormalisationCanExceedCap()
    ensures ClampAll([85.0, 15.0]) == [80.0, 15.0]
    ensures Sum([80.0, 15.0]) == 95.0
    ensures Finalise([80.0, 15.0], 95.0)[0] > MAX_ALLOC
  {
    assert [80.0, 15.0][..1] == [80.0];
    NormaliseAt([80.0, 15.0], 95.0, 0);
  }

  // ---------------------------------------------------------------- rounding

  /**
   * `round(x, 2)` as an integer count of hundredths, rounding halves up:
   * within half a hundredth of `x`.
   */
  function Round2(x: real): (h: int)
    ensures 100.0 * x - 0.5 < h as real <= 100.0 * x + 0.5
  {
    (100.0 * x + 0.5).Floor
  }

  /** A value that already is a whole number of hundredths rounds to itself. */
  lemma RoundExact(h: int, x: real)
    requires x == h as real / 100.0
    ensures Round2(x) == h
  {
    assert 100.0 * x == h as real;
  }

  function RoundAll(xs: seq<real>): (r: seq<int>)
    ensures |r| == |xs|
    ensures forall i :: 0 <= i < |xs| ==> 100.0 * xs[i] - 0.5 < r[i] as real <= 100.0 * xs[i] + 0.5
  {
    seq(|xs|, i requires 0 <= i < |xs| => Round2(xs[i]))
  }

  /**
   * Rounding shares that sum to 100 leaves a drift of at most half a
   * hundredth per strategy: |drift| <= 0.005 * n percent.
   */
  lemma RoundingDrift(xs: seq<real>)
    requires Sum(xs) == 100.0
    ensures 2 * (FULL - SumInts(RoundAll(xs))) <= |xs|
    ensures -|xs| <= 2 * (FULL - SumInts(RoundAll(xs)))
  {
    SumRounded(xs, RoundAll(xs));
  }

  // -------------------------------------------------------- drift correction

  /**
   * The position of the highest score, the first one in order among equal
   * highest scores (Python's `max` over the indices keyed by score).
   */
  function BestIndex(scores: seq<real>): (k: nat)
    requires |scores| > 0
    ensures k < |scores|
    ensures forall j :: 0 <= j < |scores| ==> scores[j] <= scores[k]
    ensures forall j :: 0 <= j < k ==> scores[j] < scores[k]
  {
    if |scores| == 1 then 0
    else
      var k := BestIndex(scores[..|scores| - 1]);
      if scores[|scores| - 1] > scores[k] then |scores| - 1 else k
  }

  /** The drift `round(100 - sum(rounded), 2)`, in hundredths. */
  function Drift(rounded: seq<int>): (d: int)
    ensures d == FULL - SumInts(rounded)
  {
    RoundExact(FULL - SumInts(rounded), 100.0 - SumInts(rounded) as real / 100.0);
    Round2(100.0 - SumInts(rounded) as real / 100.0)
  }

  /**
   * Drift correction: a non-zero drift is added, re-rounded, to the entry of
   * the best score. The result totals exactly 100.00 % and differs from the
   * rounded shares at most at that one entry.
   */
  function Corrected(rounded: seq<int>, scores: seq<real>): (r: seq<int>)
    requires |scores| == |rounded| > 0
    ensures |r| == |rounded|
    ensures SumInts(r) == FULL
    ensures forall i :: 0 <= i < |r| && i != BestIndex(scores) ==> r[i] == rounded[i]
    ensures r[BestIndex(scores)] == rounded[BestIndex(scores)] + Drift(rounded)
  {
    var drift := Drift(rounded);
    if drift != 0 then
      var best := BestIndex(scores);
      var v := Round2(rounded[best] as real / 100.0 + drift as real / 100.0);
      RoundExact(rounded[best] + drift, rounded[best] as real / 100.0 + drift as real / 100.0);
      SumIntsUpdate(rounded, best, v);
      rounded[best := v]
    else
      rounded
  }

  // ------------------------------------------------------------- explanation

  /** The rationale attached to each strategy. */
  datatype Reason = WeakTrend | StrongTrend | NeutralTrend {
    function Text(): string
    {
      match this
      case WeakTrend => "Weak trend (currentAPY below 7d avg) -> reduced allocation"
      case StrongTrend => "Strong trend (currentAPY above 7d avg) -> increased allocation"
      case NeutralTrend => "Neutral trend -> small rebalance"
    }
  }

  /** Exactly one reason, by priority: weak, then strong (above average), then neutral. */
  function ReasonFor(weak: bool, currentAPY: real, avgAPY: real): (r: Reason)
    ensures r == WeakTrend <==> weak
    ensures r == StrongTrend <==> !weak && currentAPY > avgAPY
    ensures r == NeutralTrend <==> !weak && currentAPY <= avgAPY
  {
    if weak then WeakTrend
    else if currentAPY > avgAPY then StrongTrend
    else NeutralTrend
  }

  /** The three reason texts are distinct. */
  lemma ReasonTextsDistinct(a: Reason, b: Reason)
    requires a != b
    ensures a.Text() != b.Text()
  {
  }

  /**
   * `round(new - old, 2)` in hundredths, `newAlloc` already in hundredths:
   * within half a hundredth of the exact change.
   */
  function Change(newAlloc: int, oldAlloc: real): (c: int)
    ensures (newAlloc as real - 100.0 * oldAlloc) - 0.5 < c as real <= (newAlloc as real - 100.0 * oldAlloc) + 0.5
  {
    Round2(newAlloc as real / 100.0 - oldAlloc)
  }

  /** When the old allocation is a whole number of hundredths, the change is exact. */
  lemma ChangeExact(newAlloc: int, oldHundredths: int)
    ensures Change(newAlloc, oldHundredths as real / 100.0) == newAlloc - oldHundredths
  {
    RoundExact(newAlloc - oldHundredths, newAlloc as real / 100.0 - oldHundredths as real / 100.0);
  }
}
