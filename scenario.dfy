/**
 * The example request at the end of graph.py, tier by tier: what the
 * specification of a tier's pass yields for it. Each stage is evaluated by a
 * lemma of its own; the last lemma of each tier states the outcome. The
 * pass-through fields are left empty: they take no part in the computation.
 */
module Scenario {
  import opened Wrappers
  import opened Sums
  import opened Steps
  import opened Allocation

  // ---- the "Low Risk" tier
  function LowRisk(): seq<Strategy>
  {
    [Strategy(Some(4.0), Some(50.0), Some(4.5), map[]),
     Strategy(Some(3.0), Some(50.0), Some(3.5), map[])]
  }

  lemma LowRiskScores()
    ensures Scored(LowRisk()) == [ScoredStrategy(LowRisk()[0], 4.0, false, 4.0, 4.5),
                                  ScoredStrategy(LowRisk()[1], 3.0, false, 3.0, 3.5)]
    ensures Scores(Scored(LowRisk())) == [4.0, 3.0]
  {
  }

  lemma LowRiskTargets()
    ensures Sum([4.0, 3.0]) == 7.0
    ensures Normalise([4.0, 3.0], 7.0) == [400.0 / 7.0, 300.0 / 7.0]
  {
  }

  lemma LowRiskSmoothed()
    ensures OldAllocations(LowRisk()) == [50.0, 50.0]
    ensures SmoothAll([50.0, 50.0], [400.0 / 7.0, 300.0 / 7.0]) == [52.5, 47.5]
    ensures ClampAll([52.5, 47.5]) == [52.5, 47.5]
  {
  }

  lemma LowRiskFinals()
    ensures Sum([52.5, 47.5]) == 100.0
    ensures Finalise([52.5, 47.5], 100.0) == [52.5, 47.5]
    ensures RoundAll([52.5, 47.5]) == [5250, 4750]
  {
  }

  lemma LowRiskCorrected()
    ensures Corrected([5250, 4750], [4.0, 3.0]) == [5250, 4750]
  {
    assert [5250, 4750][..1] == [5250];
    assert SumInts([5250, 4750]) == FULL;
  }

  /**
   * New allocations 52.50 % and 47.50 %, changes +2.50 and -2.50,
   * no rounding drift.
   */
  lemma LowRiskTier()
    ensures var r := RebalancedTier(LowRisk());
      && r[0].newAllocation == 5250 && r[1].newAllocation == 4750
      && r[0].allocationChange == 250 && r[1].allocationChange == -250
      && r[0].reason == NeutralTrend && r[1].reason == NeutralTrend
  {
    var t := Trace(LowRisk());
    LowRiskScores();
    LowRiskTargets();
    LowRiskSmoothed();
    LowRiskFinals();
    LowRiskCorrected();
    assert t.allocations == [5250, 4750];
  }

  // ---- the "Medium Risk" tier
  function MediumRisk(): seq<Strategy>
  {
    [Strategy(Some(8.0), Some(60.0), Some(7.5), map[]),
     Strategy(Some(6.0), Some(40.0), Some(6.5), map[])]
  }

  lemma MediumRiskScores()
    ensures Scored(MediumRisk()) == [ScoredStrategy(MediumRisk()[0], 8.0, false, 8.0, 7.5),
                                  ScoredStrategy(MediumRisk()[1], 6.0, false, 6.0, 6.5)]
    ensures Scores(Scored(MediumRisk())) == [8.0, 6.0]
  {
  }

  lemma MediumRiskTargets()
    ensures Sum([8.0, 6.0]) == 14.0
    ensures Normalise([8.0, 6.0], 14.0) == [400.0 / 7.0, 300.0 / 7.0]
  {
  }

  lemma MediumRiskSmoothed()
    ensures OldAllocations(MediumRisk()) == [60.0, 40.0]
    ensures SmoothAll([60.0, 40.0], [400.0 / 7.0, 300.0 / 7.0]) == [59.0, 41.0]
    ensures ClampAll([59.0, 41.0]) == [59.0, 41.0]
  {
  }

  lemma MediumRiskFinals()
    ensures Sum([59.0, 41.0]) == 100.0
    ensures Finalise([59.0, 41.0], 100.0) == [59.0, 41.0]
    ensures RoundAll([59.0, 41.0]) == [5900, 4100]
  {
  }

  lemma MediumRiskCorrected()
    ensures Corrected([5900, 4100], [8.0, 6.0]) == [5900, 4100]
  {
    assert [5900, 4100][..1] == [5900];
    assert SumInts([5900, 4100]) == FULL;
  }

  /**
   * New allocations 59.00 % and 41.00 %, changes -1.00 and +1.00,
   * no rounding drift.
   */
  lemma MediumRiskTier()
    ensures var r := RebalancedTier(MediumRisk());
      && r[0].newAllocation == 5900 && r[1].newAllocation == 4100
      && r[0].allocationChange == -100 && r[1].allocationChange == 100
      && r[0].reason == StrongTrend && r[1].reason == NeutralTrend
  {
    var t := Trace(MediumRisk());
    MediumRiskScores();
    MediumRiskTargets();
    MediumRiskSmoothed();
    MediumRiskFinals();
    MediumRiskCorrected();
    assert t.allocations == [5900, 4100];
  }

  // ---- the "High Risk" tier
  function HighRisk(): seq<Strategy>
  {
    [Strategy(Some(18.0), Some(70.0), Some(17.5), map[]),
     Strategy(Some(22.0), Some(30.0), Some(21.5), map[])]
  }

  lemma HighRiskScores()
    ensures Scored(HighRisk()) == [ScoredStrategy(HighRisk()[0], 18.0, false, 18.0, 17.5),
                                  ScoredStrategy(HighRisk()[1], 22.0, false, 22.0, 21.5)]
    ensures Scores(Scored(HighRisk())) == [18.0, 22.0]
  {
  }

  lemma HighRiskTargets()
    ensures Sum([18.0, 22.0]) == 40.0
    ensures Normalise([18.0, 22.0], 40.0) == [45.0, 55.0]
  {
  }

  lemma HighRiskSmoothed()
    ensures OldAllocations(HighRisk()) == [70.0, 30.0]
    ensures SmoothAll([70.0, 30.0], [45.0, 55.0]) == [61.25, 38.75]
    ensures ClampAll([61.25, 38.75]) == [61.25, 38.75]
  {
  }

  lemma HighRiskFinals()
    ensures Sum([61.25, 38.75]) == 100.0
    ensures Finalise([61.25, 38.75], 100.0) == [61.25, 38.75]
    ensures RoundAll([61.25, 38.75]) == [6125, 3875]
  {
  }

  lemma HighRiskCorrected()
    ensures Corrected([6125, 3875], [18.0, 22.0]) == [6125, 3875]
  {
    assert [6125, 3875][..1] == [6125];
    assert SumInts([6125, 3875]) == FULL;
  }

  /**
   * New allocations 61.25 % and 38.75 %, changes -8.75 and +8.75,
   * no rounding drift.
   */
  lemma HighRiskTier()
    ensures var r := RebalancedTier(HighRisk());
      && r[0].newAllocation == 6125 && r[1].newAllocation == 3875
      && r[0].allocationChange == -875 && r[1].allocationChange == 875
      && r[0].reason == StrongTrend && r[1].reason == StrongTrend
  {
    var t := Trace(HighRisk());
    HighRiskScores();
    HighRiskTargets();
    HighRiskSmoothed();
    HighRiskFinals();
    HighRiskCorrected();
    assert t.allocations == [6125, 3875];
  }
}
