/**
 * The fixed mapping from a predicted trading behaviour to a risk score out
 * of 100, and the three-way bucketing of a score (train_panic_sell_model.py).
 */
module PanicSell {
  import opened Wrappers

  /** Risk score of each behaviour the classifier can predict. */
  const BehaviorToScore: map<string, int> := map[
    "normal" := 15,
    "panic" := 90,
    "fomo" := 85,
    "overtrade" := 75,
    "revenge" := 80
  ]

  datatype Bucket = Stable | MediumRisk | HighRisk {
    function Label(): string
    {
      match this
      case Stable => "Stable (0-30)"
      case MediumRisk => "Medium Risk (31-60)"
      case HighRisk => "High Risk (61-100)"
    }

    /** Position in increasing order of risk. */
    function Rank(): nat
    {
      match this
      case Stable => 0
      case MediumRisk => 1
      case HighRisk => 2
    }
  }

  /** `risk_bucket`: the bucket of a score, by the thresholds 30 and 60. */
  function RiskBucket(score: real): (b: Bucket)
    ensures b == Stable <==> score <= 30.0
    ensures b == MediumRisk <==> 30.0 < score <= 60.0
    ensures b == HighRisk <==> score > 60.0
  {
    if score <= 30.0 then Stable
    else if score <= 60.0 then MediumRisk
    else HighRisk
  }

  /** A higher score never lands in a lower bucket. */
  lemma RiskBucketMonotone(a: real, b: real)
    requires a <= b
    ensures RiskBucket(a).Rank() <= RiskBucket(b).Rank()
  {
  }

  /** Distinct buckets have distinct labels. */
  lemma LabelsDistinct(a: Bucket, b: Bucket)
    requires a != b
    ensures a.Label() != b.Label()
  {
  }

  /** The table covers exactly the five labels, with scores out of 100. */
  lemma BehaviorTable()
    ensures BehaviorToScore.Keys == {"normal", "panic", "fomo", "overtrade", "revenge"}
    ensures forall behavior :: behavior in BehaviorToScore ==> 0 <= BehaviorToScore[behavior] <= 100
  {
  }

  /**
   * The bucket of a predicted behaviour: its table score, bucketed. An
   * unknown behaviour has no score (the lookup fails). "normal" is Stable, the
   * four other labels are High Risk, and no behaviour is Medium Risk.
   */
  function PredictedBucket(behavior: string): (r: Option<Bucket>)
    ensures r == None <==> behavior !in BehaviorToScore
    ensures r == Some(Stable) <==> behavior == "normal"
    ensures r == Some(HighRisk) <==> behavior in {"panic", "fomo", "overtrade", "revenge"}
    ensures r != Some(MediumRisk)
  {
    if behavior in BehaviorToScore then Some(RiskBucket(BehaviorToScore[behavior] as real)) else None
  }
}
