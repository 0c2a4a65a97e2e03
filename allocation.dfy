/**
 * The allocation engine of graph.py (`NodeData.allocate_funds`): each
 * non-empty risk tier is rebalanced independently by the pipeline of module
 * Steps; empty tiers pass through unchanged.
 *
 * `RebalancedTier` is the specification of one tier's pass, built from the
 * per-step functions; `RebalanceTier` and `AllocateFunds` are the code's
 * loops, proved against it.
 */
module Allocation {
  import opened Wrappers
  import opened Sums
  import opened Steps

  /**
   * Fields the engine never reads and copies unchanged: the strategy's
   * index, address, name, totalAssets, historical volatility and sharpe, and
   * any other key; for a tier, any key besides tier, name and strategies.
   */
  type Payload = map<string, string>

  /** One yield-bearing position. `avgAPY` is `historical.avgAPY`. */
  datatype Strategy = Strategy(
    currentAPY: Option<real>,
    currentAllocation: Option<real>,
    avgAPY: Option<real>,
    payload: Payload)

  /** A named risk bucket; a missing strategy list is the empty one. */
  datatype Tier = Tier(
    tier: Option<int>,
    name: Option<string>,
    strategies: seq<Strategy>,
    payload: Payload)

  datatype Request = Request(
    requestType: Option<string>,
    timestamp: Option<int>,
    tiers: seq<Tier>)

  /** What the engine derives from one strategy before allocating. */
  datatype ScoredStrategy = ScoredStrategy(
    strategy: Strategy,
    score: real,
    weak: bool,
    currentAPY: real,
    avgAPY: real)

  /**
   * A strategy with its three computed fields; `newAllocation` and
   * `allocationChange` are in hundredths of a percent.
   */
  datatype UpdatedStrategy = UpdatedStrategy(
    original: Strategy,
    newAllocation: int,
    allocationChange: int,
    reason: Reason)

  datatype TierResult =
    | PassedThrough(original: Tier)
    | Rebalanced(tier: Option<int>, name: Option<string>, strategies: seq<UpdatedStrategy>)

  datatype Response = Response(
    requestType: string,
    timestamp: Option<int>,
    tiers: seq<TierResult>)

  // Absent numeric fields read as 0.
  function CurrentAPY(s: Strategy): real { s.currentAPY.GetOr(0.0) }
  function AvgAPY(s: Strategy): real { s.avgAPY.GetOr(0.0) }
  function OldAllocation(s: Strategy): real { s.currentAllocation.GetOr(0.0) }

  /**
   * The scored record of one strategy: its fields read with 0 for absent
   * ones, weak iff trailing the average by more than the threshold, and a
   * score of at least the floor that is the APY (halved when weak) whenever
   * that is above the floor.
   */
  function ScoreStrategy(s: Strategy): (r: ScoredStrategy)
    ensures r.strategy == s && r.currentAPY == CurrentAPY(s) && r.avgAPY == AvgAPY(s)
    ensures r.weak <==> CurrentAPY(s) < AvgAPY(s) - LOSS_THRESHOLD
    ensures r.score >= SCORE_FLOOR
    ensures !r.weak && CurrentAPY(s) >= SCORE_FLOOR ==> r.score == CurrentAPY(s)
    ensures r.weak && CurrentAPY(s) * WEAK_FACTOR >= SCORE_FLOOR ==> r.score == CurrentAPY(s) * WEAK_FACTOR
  {
    var c, a := CurrentAPY(s), AvgAPY(s);
    ScoredStrategy(s, Score(c, a), IsWeak(c, a), c, a)
  }

  /** The output record of one strategy, given its new allocation. */
  function Explain(x: ScoredStrategy, newAlloc: int): (u: UpdatedStrategy)
    ensures u.original == x.strategy && u.newAllocation == newAlloc
    ensures u.reason == WeakTrend <==> x.weak
    ensures u.reason == StrongTrend <==> !x.weak && x.currentAPY > x.avgAPY
    ensures u.reason == NeutralTrend <==> !x.weak && x.currentAPY <= x.avgAPY
    ensures var exact := newAlloc as real - 100.0 * OldAllocation(x.strategy);
      exact - 0.5 < u.allocationChange as real <= exact + 0.5
  {
    UpdatedStrategy(x.strategy, newAlloc, Change(newAlloc, OldAllocation(x.strategy)),
                    ReasonFor(x.weak, x.currentAPY, x.avgAPY))
  }

  function NewAllocations(us: seq<UpdatedStrategy>): (r: seq<int>)
    ensures |r| == |us|
  {
    seq(|us|, i requires 0 <= i < |us| => us[i].newAllocation)
  }

  function OldAllocations(ss: seq<Strategy>): (r: seq<real>)
    ensures |r| == |ss|
  {
    seq(|ss|, i requires 0 <= i < |ss| => OldAllocation(ss[i]))
  }

  function Scored(strategies: seq<Strategy>): (r: seq<ScoredStrategy>)
    ensures |r| == |strategies|
  {
    seq(|strategies|, i requires 0 <= i < |strategies| => ScoreStrategy(strategies[i]))
  }

  function Scores(scored: seq<ScoredStrategy>): (r: seq<real>)
    ensures |r| == |scored|
  {
    seq(|scored|, i requires 0 <= i < |scored| => scored[i].score)
  }

  function Explained(scored: seq<ScoredStrategy>, allocations: seq<int>): (r: seq<UpdatedStrategy>)
    requires |allocations| == |scored|
    ensures |r| == |scored|
  {
    seq(|scored|, i requires 0 <= i < |scored| => Explain(scored[i], allocations[i]))
  }

  /** Every intermediate list of one tier's pass, in pipeline order. */
  datatype TierTrace = TierTrace(
    scored: seq<ScoredStrategy>,
    scores: seq<real>,
    targets: seq<real>,
    smoothed: seq<real>,
    clamped: seq<real>,
    finals: seq<real>,
    rounded: seq<int>,
    allocations: seq<int>)

  function Trace(strategies: seq<Strategy>): (t: TierTrace)
    requires |strategies| > 0
    ensures |t.scored| == |t.scores| == |t.targets| == |t.smoothed| == |strategies|
    ensures |t.clamped| == |t.finals| == |t.rounded| == |t.allocations| == |strategies|
    ensures t.scored == Scored(strategies) && t.scores == Scores(t.scored)
    ensures Sum(t.scores) > 0.0
    ensures t.targets == Normalise(t.scores, Sum(t.scores))
    ensures t.smoothed == SmoothAll(OldAllocations(strategies), t.targets)
    ensures t.clamped == ClampAll(t.smoothed)
    ensures t.finals == Finalise(t.clamped, Sum(t.clamped))
    ensures t.rounded == RoundAll(t.finals)
    ensures t.allocations == Corrected(t.rounded, t.scores)
    ensures SumInts(t.allocations) == FULL
  {
    var scored := Scored(strategies);
    var scores := Scores(scored);
    ScoresTotalPositive(scores);
    var targets := Normalise(scores, Sum(scores));
    var smoothed := SmoothAll(OldAllocations(strategies), targets);
    var clamped := ClampAll(smoothed);
    var finals := Finalise(clamped, Sum(clamped));
    var rounded := RoundAll(finals);
    TierTrace(scored, scores, targets, smoothed, clamped, finals, rounded, Corrected(rounded, scores))
  }

  /** The updated strategies of a non-empty tier. */
  function RebalancedTier(strategies: seq<Strategy>): (r: seq<UpdatedStrategy>)
    requires |strategies| > 0
    ensures |r| == |strategies|
    ensures forall i :: 0 <= i < |r| ==>
      r[i].original == strategies[i] && r[i].newAllocation == Trace(strategies).allocations[i]
  {
    var t := Trace(strategies);
    Explained(t.scored, t.allocations)
  }

  // ------------------------------------------------------------ tier facts

  /**
   * Scores: each at least the floor, equal to max(currentAPY * 0.5, 0.01) on
   * a weak trend and max(currentAPY, 0.01) otherwise, where weak means
   * trailing the average by more than 2.0; so the total is positive.
   */
  lemma TierScores(strategies: seq<Strategy>, i: nat)
    requires 0 <= i < |strategies|
    ensures var t := Trace(strategies);
      && t.scored[i].weak == (CurrentAPY(strategies[i]) < AvgAPY(strategies[i]) - 2.0)
      && t.scores[i] == t.scored[i].score
      && t.scores[i] == Max(if t.scored[i].weak then CurrentAPY(strategies[i]) * 0.5
                            else CurrentAPY(strategies[i]), 0.01)
      && Sum(t.scores) > 0.0
  {
  }

  /**
   * Renormalisation: the clamped values total at least 5 % per strategy, so
   * the equal-split fallback is never taken; the final shares sum to 100 and
   * keep the ratios of the clamped values.
   */
  lemma TierFinals(strategies: seq<Strategy>)
    requires |strategies| > 0
    ensures var t := Trace(strategies);
      && Sum(t.clamped) >= MIN_ALLOC * |strategies| as real
      && t.finals == Normalise(t.clamped, Sum(t.clamped))
      && Sum(t.finals) == 100.0
  {
    var t := Trace(strategies);
    FallbackUnreachable(t.clamped, Sum(t.clamped));
  }

  /**
   * Drift correction: the drift is at most half a hundredth per strategy
   * (|drift| <= 0.005 * n percent); it lands whole on the first strategy of
   * highest score, and every other strategy keeps its rounded share.
   */
  lemma TierDrift(strategies: seq<Strategy>)
    requires |strategies| > 0
    ensures var t := Trace(strategies);
      var drift := FULL - SumInts(t.rounded);
      var best := BestIndex(t.scores);
      && -|strategies| <= 2 * drift <= |strategies|
      && t.allocations[best] == Round2(t.finals[best]) + drift
      && (forall i :: 0 <= i < |strategies| && i != best ==> t.allocations[i] == Round2(t.finals[i]))
      && (forall i :: 0 <= i < |strategies| ==> t.scores[i] <= t.scores[best])
      && (forall i :: 0 <= i < best ==> t.scores[i] < t.scores[best])
  {
    var t := Trace(strategies);
    TierFinals(strategies);
    RoundingDrift(t.finals);
  }

  /** The new allocations of a rebalanced tier sum to exactly 100.00 %. */
  lemma TierSumsToFull(strategies: seq<Strategy>)
    requires |strategies| > 0
    ensures SumInts(NewAllocations(RebalancedTier(strategies))) == FULL
  {
    var t := Trace(strategies);
    assert NewAllocations(RebalancedTier(strategies)) == t.allocations;
  }

  /**
   * Each updated strategy keeps its original fields and carries the reason
   * chosen by priority (weak, then strong, then neutral) and the rounded
   * change from its old allocation (0 when absent).
   */
  lemma TierExplained(strategies: seq<Strategy>)
    requires |strategies| > 0
    ensures forall i :: 0 <= i < |strategies| ==>
      var s, u := strategies[i], RebalancedTier(strategies)[i];
      && u.original == s
      && (u.reason == WeakTrend <==> CurrentAPY(s) < AvgAPY(s) - LOSS_THRESHOLD)
      && (u.reason == StrongTrend <==>
            !(CurrentAPY(s) < AvgAPY(s) - LOSS_THRESHOLD) && CurrentAPY(s) > AvgAPY(s))
      && u.allocationChange == Change(u.newAllocation, OldAllocation(s))
  {
    var t := Trace(strategies);
    var r := RebalancedTier(strategies);
    forall i | 0 <= i < |strategies|
      ensures r[i].original == strategies[i]
      ensures r[i].reason == ReasonFor(IsWeak(CurrentAPY(strategies[i]), AvgAPY(strategies[i])),
                                       CurrentAPY(strategies[i]), AvgAPY(strategies[i]))
      ensures r[i].allocationChange == Change(r[i].newAllocation, OldAllocation(strategies[i]))
    {
      assert r[i] == Explain(t.scored[i], t.allocations[i]);
    }
  }

  // --------------------------------------------------------------- methods

  /** The scoring loop: one scored record per strategy, in order. */
  method ScoreTier(strategies: seq<Strategy>) returns (scored: seq<ScoredStrategy>)
    ensures scored == Scored(strategies)
    ensures forall i :: 0 <= i < |strategies| ==>
      && scored[i].strategy == strategies[i]
      && scored[i].score >= SCORE_FLOOR
      && (scored[i].weak <==> CurrentAPY(strategies[i]) < AvgAPY(strategies[i]) - LOSS_THRESHOLD)
  {
    scored := [];
    for i := 0 to |strategies|
      invariant |scored| == i
      invariant forall j :: 0 <= j < i ==> scored[j] == ScoreStrategy(strategies[j])
    {
      var s := strategies[i];
      var currentAPY := s.currentAPY.GetOr(0.0);
      var avgAPY := s.avgAPY.GetOr(0.0);
      var weak := currentAPY < avgAPY - LOSS_THRESHOLD;
      var score := currentAPY;
      if weak {
        score := score * WEAK_FACTOR;
      }
      scored := scored + [ScoredStrategy(s, Max(score, SCORE_FLOOR), weak, currentAPY, avgAPY)];
    }
  }

  /**
   * The smoothing loop: each old allocation (0 when absent) moved 35 % of the
   * way to its target, so it lies between the two.
   */
  method SmoothTier(strategies: seq<Strategy>, targets: seq<real>) returns (smoothed: seq<real>)
    requires |targets| == |strategies|
    ensures smoothed == SmoothAll(OldAllocations(strategies), targets)
    ensures forall i :: 0 <= i < |strategies| ==>
      Min(OldAllocation(strategies[i]), targets[i]) <= smoothed[i] <= Max(OldAllocation(strategies[i]), targets[i])
  {
    smoothed := [];
    for i := 0 to |strategies|
      invariant |smoothed| == i
      invariant forall j :: 0 <= j < i ==> smoothed[j] == Smooth(OldAllocation(strategies[j]), targets[j])
    {
      var prior := strategies[i].currentAllocation.GetOr(0.0);
      var target := targets[i];
      smoothed := smoothed + [prior + SMOOTHING_ALPHA * (target - prior)];
    }
  }

  /**
   * The output loop: each strategy with its new allocation, its rounded change
   * and its reason.
   */
  method ExplainTier(scored: seq<ScoredStrategy>, allocations: seq<int>) returns (updated: seq<UpdatedStrategy>)
    requires |allocations| == |scored|
    ensures updated == Explained(scored, allocations)
    ensures forall i :: 0 <= i < |scored| ==>
      && updated[i].original == scored[i].strategy
      && updated[i].newAllocation == allocations[i]
      && (updated[i].reason == WeakTrend <==> scored[i].weak)
  {
    updated := [];
    for i := 0 to |scored|
      invariant |updated| == i
      invariant forall j :: 0 <= j < i ==> updated[j] == Explain(scored[j], allocations[j])
    {
      var x := scored[i];
      var prior := x.strategy.currentAllocation.GetOr(0.0);
      var newAlloc := allocations[i];
      var change := Round2(newAlloc as real / 100.0 - prior);
      var reason: Reason;
      if x.weak {
        reason := WeakTrend;
      } else if x.currentAPY > x.avgAPY {
        reason := StrongTrend;
      } else {
        reason := NeutralTrend;
      }
      updated := updated + [UpdatedStrategy(x.strategy, newAlloc, change, reason)];
    }
  }

  /**
   * Drift correction as `allocate_funds` does it, overwriting one entry of the
   * rounded list: the result totals exactly 100.00 % and differs from the
   * input only at the first strategy of highest score.
   */
  method FixDrift(rounded: seq<int>, scores: seq<real>) returns (fixed: seq<int>)
    requires |scores| == |rounded| > 0
    ensures fixed == Corrected(rounded, scores)
    ensures SumInts(fixed) == FULL
    ensures forall i :: 0 <= i < |rounded| && i != BestIndex(scores) ==> fixed[i] == rounded[i]
  {
    fixed := rounded;
    var drift := Round2(100.0 - SumInts(fixed) as real / 100.0);
    if drift != 0 {
      var best := BestIndex(scores);
      fixed := fixed[best := Round2(fixed[best] as real / 100.0 + drift as real / 100.0)];
    }
  }

  /**
   * One non-empty tier's pass as `allocate_funds` runs it, the rounded list
   * corrected by overwriting one entry. Returns the specified strategies: in input order,
   * each with its original fields, new allocations summing to exactly
   * 100.00 %.
   */
  method RebalanceTier(strategies: seq<Strategy>) returns (updated: seq<UpdatedStrategy>)
    requires |strategies| > 0
    ensures updated == RebalancedTier(strategies)
    ensures SumInts(NewAllocations(updated)) == FULL
    ensures forall i :: 0 <= i < |strategies| ==> updated[i].original == strategies[i]
  {
    var scored := ScoreTier(strategies);
    var scores := Scores(scored);
    ScoresTotalPositive(scores);
    var totalScore := Sum(scores);
    var targets := Normalise(scores, totalScore);
    var smoothed := SmoothTier(strategies, targets);
    var clamped := ClampAll(smoothed);
    var totalClamped := Sum(clamped);
    var finals := Finalise(clamped, totalClamped);
    var rounded := RoundAll(finals);
    rounded := FixDrift(rounded, scores);
    updated := ExplainTier(scored, rounded);
    TierSumsToFull(strategies);
    TierExplained(strategies);
  }

  /**
   * The outcome for one tier: an empty tier is appended as it came; a
   * non-empty one is rebuilt from its id, its name and its strategies in input
   * order, each keeping its original fields, with new allocations summing to
   * exactly 100.00 %.
   */
  function TierOutcome(tier: Tier): (r: TierResult)
    ensures tier.strategies == [] ==> r == PassedThrough(tier)
    ensures tier.strategies != [] ==>
      && r.Rebalanced? && r.tier == tier.tier && r.name == tier.name
      && |r.strategies| == |tier.strategies|
      && (forall i :: 0 <= i < |tier.strategies| ==> r.strategies[i].original == tier.strategies[i])
      && SumInts(NewAllocations(r.strategies)) == FULL
  {
    if tier.strategies == [] then PassedThrough(tier)
    else
      TierSumsToFull(tier.strategies);
      TierExplained(tier.strategies);
      Rebalanced(tier.tier, tier.name, RebalancedTier(tier.strategies))
  }

  /**
   * The whole request: one outcome per tier, in input order; the request type
   * defaults to "rebalance" and the timestamp is echoed.
   */
  method AllocateFunds(request: Request) returns (response: Response)
    ensures response.requestType == request.requestType.GetOr("rebalance")
    ensures response.timestamp == request.timestamp
    ensures |response.tiers| == |request.tiers|
    ensures forall i :: 0 <= i < |request.tiers| ==> response.tiers[i] == TierOutcome(request.tiers[i])
  {
    var tiers: seq<TierResult> := [];
    for i := 0 to |request.tiers|
      invariant |tiers| == i
      invariant forall j :: 0 <= j < i ==> tiers[j] == TierOutcome(request.tiers[j])
    {
      var tier := request.tiers[i];
      var outcome: TierResult;
      if tier.strategies == [] {
        outcome := PassedThrough(tier);
      } else {
        var updated := RebalanceTier(tier.strategies);
        outcome := Rebalanced(tier.tier, tier.name, updated);
      }
      assert outcome == TierOutcome(tier);
      tiers := tiers + [outcome];
    }
    response := Response(request.requestType.GetOr("rebalance"), request.timestamp, tiers);
  }
}
