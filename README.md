# Allocation engine of the ethmoney AI service, in Dafny

This project models the rebalancing core of the service: `NodeData.allocate_funds`
in graph.py, which takes a request of risk tiers, each holding yield-bearing
strategies, and returns a new allocation per strategy. It also models the small
behaviour-to-risk table and the `risk_bucket` thresholds of
train_panic_sell_model.py.

For every tier with strategies, the engine runs these steps:

1. It scores each strategy. The score is its current APY, halved when the APY
   trails the historical average by more than 2.0. The score is never below 0.01.
2. It turns the scores into target shares of 100 %.
3. It moves each current allocation 35 % of the way to its target.
4. It clamps each result to [5, 80].
5. It rescales the clamped values to a 100 % total.
6. It rounds each share to hundredths of a percent.
7. It adds the rounding drift to the first strategy with the highest score.
8. It attaches the rounded change and a reason (weak, strong or neutral trend)
   to each strategy.

A tier without strategies is passed through as it came.

Modules:

- `Sums`: left-to-right sums of real and integer sequences, with lemmas about them.
- `Steps`: the per-strategy formulas and per-list steps, each with its contract.
  Allocations are exact reals. A rounded allocation is an integer count of
  hundredths of a percent, so 100.00 % is 10000 (`FULL`).
- `Allocation`: the request and response records and `Trace`/`RebalancedTier`.
  These two are the specification of one tier's pass. The module also holds the
  loops of `allocate_funds` as methods proved against that specification
  (`ScoreTier`, `SmoothTier`, `FixDrift`, `ExplainTier`, `RebalanceTier`,
  `AllocateFunds`), and lemmas about the outcome of a tier.
- `PanicSell`: the behaviour-to-score table, `RiskBucket` and the composed
  prediction-to-bucket mapping.
- `Scenario`: the example request at the end of graph.py, evaluated tier by tier.

Two properties of the code worth knowing:

- **Reason texts.** The code's reason texts compare the current APY with the
  "7d avg".
- **No bound on newAllocation.** Clamping to [5, 80] happens before the
  renormalisation, and renormalising can lift a share above 80 % again.
  `Steps.RenormalisationCanExceedCap` gives such an input, so the model states
  no bound on `newAllocation`.

## Model

| member | source | states |
|---|---|---|
| Steps.Score | graph.py:38-47 | the score is at least 0.01; it equals the current APY (halved when weak) unless that is below 0.01, in which case it is 0.01 |
| Steps.WeakNeverScoresHigher | graph.py:38-47 | a weak trend never scores above the same APY without one; a non-weak APY above the floor scores itself |
| Steps.Normalise | graph.py:54-55 | shares of a non-zero total sum to exactly 100 and keep the inputs' ratios (r[i]·x[j] = r[j]·x[i]) |
| Steps.NormaliseAt | graph.py:55 | each share is its input's fraction of the total, in percent |
| Steps.NormalisePositive | graph.py:54-55 | positive inputs with a positive total give positive target shares |
| Steps.ScoresTotalPositive | graph.py:47-54 | scores floored at 0.01 total at least 0.01·n > 0, so the division by total_score is defined |
| Steps.Smooth | graph.py:63 | the smoothed allocation lies between the old allocation and the target |
| Steps.SmoothContracts | graph.py:63 | the new gap to the target is 0.65 of the old gap, strictly smaller when non-zero, so repeated rebalancing converges |
| Steps.SmoothAll | graph.py:58-64 | one smoothed value per strategy, each between its old allocation and its target |
| Steps.SmoothAllSum | graph.py:58-64 | the smoothed total is 0.65·old total + 0.35·target total; old and target totals of 100 give 100 |
| Steps.Clamp | graph.py:67 | the result lies in [5, 80], is the identity on that range, 5 below it and 80 above it |
| Steps.ClampAll | graph.py:67 | every clamped value lies in [5, 80]; values already in range are unchanged |
| Steps.EqualSplit | graph.py:71-73 | n equal shares of 100/n that sum to 100 |
| Steps.Finalise | graph.py:70-75 | the result sums to 100; a zero total gives the equal split, a non-zero one keeps the inputs' ratios |
| Steps.FallbackUnreachable | graph.py:67-75 | clamped values total at least 5·n > 0, so renormalisation always rescales and never falls back |
| Steps.RenormalisationCanExceedCap | graph.py:67-75 | smoothed [85, 15] clamps to [80, 15] and renormalises to a first share above 80 |
| Steps.Round2 | graph.py:78 | round(x, 2) in hundredths lies within half a hundredth of x, halves rounded up |
| Steps.RoundExact | graph.py:84 | a whole number of hundredths rounds to itself |
| Steps.RoundAll | graph.py:78 | one rounded value per share, each within half a hundredth |
| Steps.RoundingDrift | graph.py:78-79 | shares summing to 100 round to a total within n/2 hundredths of 10000 |
| Steps.BestIndex | graph.py:83 | the index of a highest score, the first such in order |
| Steps.Drift | graph.py:79 | the drift round(100 − sum(rounded), 2) is exactly 10000 minus the rounded total |
| Steps.Corrected | graph.py:79-84 | after correction the allocations total exactly 10000; only the best-scoring entry changes, by the drift |
| Steps.ReasonFor | graph.py:95-101 | weak iff WeakTrend; not weak and APY above average iff StrongTrend; otherwise NeutralTrend |
| Steps.ReasonTextsDistinct | graph.py:97-101 | the three reason texts differ |
| Steps.Change | graph.py:93 | the change is within half a hundredth of new − old allocation |
| Steps.ChangeExact | graph.py:90-93 | when the old allocation is a whole number of hundredths, the change is exactly new − old |
| Allocation.ScoreStrategy | graph.py:35-51 | the scored record keeps the strategy, reads absent APYs as 0, is weak iff APY < avg − 2.0, scores at least 0.01, and scores the APY (halved when weak) whenever that is at least 0.01 |
| Allocation.Explain | graph.py:89-108 | the output record keeps the strategy and the new allocation, carries the priority-ordered reason (three iffs), and a change within half a hundredth of new − old |
| Allocation.Trace | graph.py:33-84 | one tier's intermediate lists are the steps composed in order (scores, targets of the positive score total, smoothing from old allocations, clamp, renormalise, round, drift fix), and the corrected allocations total exactly 10000 |
| Allocation.RebalancedTier | graph.py:33-108 | one output per strategy, in order, each keeping its strategy and carrying the corrected allocation of the tier's trace |
| Allocation.TierScores | graph.py:34-54 | each strategy is weak iff currentAPY < avgAPY − 2.0 (absent fields read 0); its score is max(APY·0.5 if weak else APY, 0.01); the total is positive |
| Allocation.TierFinals | graph.py:66-75 | for every tier, total_clamped ≥ 5·n; the final shares are the rescaled clamped values and sum to 100 |
| Allocation.TierDrift | graph.py:77-84 | the drift is at most n/2 hundredths; it lands whole on the first highest-scoring strategy; every other strategy keeps round(final, 2) |
| Allocation.TierSumsToFull | graph.py:69-84 | the new allocations of every non-empty tier sum to exactly 100.00 % |
| Allocation.TierExplained | graph.py:86-108 | each output keeps the strategy's fields, carries the priority-ordered reason and the rounded change from the old allocation |
| Allocation.ScoreTier | graph.py:33-51 | the scoring loop yields the specified scored list: same strategies in order, scores ≥ 0.01, weak iff trailing by more than 2.0 |
| Allocation.SmoothTier | graph.py:58-64 | the smoothing loop yields the specified smoothed list, each value between old allocation and target |
| Allocation.FixDrift | graph.py:78-84 | overwriting the best entry yields the specified correction: total exactly 10000, other entries unchanged |
| Allocation.ExplainTier | graph.py:86-108 | the output loop yields the specified records: original fields, the given new allocation, WeakTrend iff weak |
| Allocation.RebalanceTier | graph.py:33-108 | one tier's pass equals the specification: strategies in order with original fields, new allocations summing to exactly 100.00 % |
| Allocation.TierOutcome | graph.py:27-114 | an empty tier passes through unchanged; a non-empty one keeps tier id and name, one output per strategy in order, summing to 100.00 % |
| Allocation.AllocateFunds | graph.py:13-116 | request type defaults to "rebalance", the timestamp is echoed, one outcome per tier in order |
| PanicSell.RiskBucket | train_panic_sell_model.py:74-80 | Stable iff score ≤ 30; Medium Risk iff 30 < score ≤ 60; High Risk iff score > 60 |
| PanicSell.RiskBucketMonotone | train_panic_sell_model.py:74-80 | a higher score never lands in a lower bucket |
| PanicSell.LabelsDistinct | train_panic_sell_model.py:74-80 | the three bucket labels differ |
| PanicSell.BehaviorTable | train_panic_sell_model.py:66-72 | the table's keys are exactly the five behaviours; every score lies in [0, 100] |
| PanicSell.PredictedBucket | train_panic_sell_model.py:66-88 | an unknown behaviour has no bucket; "normal" is Stable; the other four are High Risk; nothing is Medium Risk |
| Scenario.LowRiskTier | graph.py:163-193 | the example Low Risk tier gets 52.50 % / 47.50 %, changes +2.50 / −2.50, both neutral |
| Scenario.MediumRiskTier | graph.py:194-225 | the example Medium Risk tier gets 59.00 % / 41.00 %, changes −1.00 / +1.00, strong then neutral |
| Scenario.HighRiskTier | graph.py:226-257 | the example High Risk tier gets 61.25 % / 38.75 %, changes −8.75 / +8.75, both strong |

## Left out

- Floating point: allocations are exact reals, so IEEE rounding error is not modelled. Because of it, sums such as `sum(final_allocs)` are exact here, while in the code they may differ from 100 by a few ulps.
- Steps.Round2: models round(x, 2) as rounding half up on the exact value. Python rounds the binary float, and ties go to even, so results can differ on exact halves: `round(0.125, 2)` is 0.12 in Python but `Round2(0.125)` is 13 hundredths. The contracts of `Round2`, `RoundAll` and `Change` fix halves upward (their lower bound is strict).
- Allocation.AllocateFunds: the request and response are typed records, not dictionaries. Other tier keys are dropped from a rebalanced tier, as in the code. A strategy's unread keys travel as an opaque `Payload`.
- Allocation.UpdatedStrategy keeps the original strategy beside the three computed fields. The `{**s, ...}` merge, which overwrites existing keys of those names, is therefore not modelled key by key.
- A missing `historical` object and a missing `avgAPY` both read as an absent average, which is 0. A non-numeric field, which makes `float(...)` raise in the code, cannot be expressed in the typed input.
- A `strategies` value that is missing or null is the empty list, since both take the pass-through branch.
- The initial value `"Stable"` of `reason` is always overwritten, so it does not appear.
- PanicSell.RiskBucket takes a real score. The table holds integers, so `PredictedBucket` converts them.
- PanicSell.PredictedBucket: an unknown behaviour yields `None`, where the code's dictionary lookup raises KeyError.
- The chat-model client (`NodeData.__init__`) and `generateScore` are not part of this model. They call a remote language model.
- The printing at the end of graph.py is not part of this model. Its request is covered by `Scenario`.
- main.py (the HTTP routes) and schemas.py (request validation) are not part of this model.
- The classifier training and prediction in train_panic_sell_model.py (data loading, the random forest, the report) are not part of this model. The model covers only the table and the bucketing.
- NodeData holds no state that `allocate_funds` reads or writes, so the engine is a module-level method and not a class.
