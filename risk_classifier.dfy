/** `getRiskCategory`: five risk labels cut at the scores 2, 4, 6 and 8. */
module RiskClassifier {

  datatype RiskCategory =
    | Conservative
    | ModeratelyConservative
    | Moderate
    | ModeratelyAggressive
    | Aggressive
  {
    /** The text the dashboard shows for the category. */
    function Label(): string {
      match this
      case Conservative => "Conservative"
      case ModeratelyConservative => "Moderately Conservative"
      case Moderate => "Moderate"
      case ModeratelyAggressive => "Moderately Aggressive"
      case Aggressive => "Aggressive"
    }

    /** Position of the category from least to most risk-tolerant. */
    function Rank(): nat {
      match this
      case Conservative => 0
      case ModeratelyConservative => 1
      case Moderate => 2
      case ModeratelyAggressive => 3
      case Aggressive => 4
    }
  }

  /** The i-th cut point, i in 0..3: the inclusive upper bound of the category of rank i. */
  function Cut(i: nat): real
    requires i < 4
  {
    2.0 * (i + 1) as real
  }

  /** The half-open band (Cut(rank-1), Cut(rank)] of a category, unbounded at both ends. */
  ghost predicate InBand(score: real, c: RiskCategory) {
    && (c.Rank() == 0 || score > Cut(c.Rank() - 1))
    && (c.Rank() == 4 || score <= Cut(c.Rank()))
  }

  /** The classifier: ascending `<=` tests, the first that holds wins. */
  function Classify(score: real): (c: RiskCategory)
    ensures InBand(score, c)
  {
    if score <= 2.0 then Conservative
    else if score <= 4.0 then ModeratelyConservative
    else if score <= 6.0 then Moderate
    else if score <= 8.0 then ModeratelyAggressive
    else Aggressive
  }

  /** The bands partition the reals: a score lies in exactly one band, the classifier's. */
  lemma BandsPartition(score: real, c: RiskCategory)
    ensures InBand(score, c) <==> c == Classify(score)
  {
  }

  /** A higher score never yields a less risk-tolerant category. */
  lemma ClassifyMonotone(s: real, t: real)
    requires s <= t
    ensures Classify(s).Rank() <= Classify(t).Rank()
  {
  }

  /** Different categories show different labels, so each score gets exactly one label. */
  lemma LabelInjective(c: RiskCategory, d: RiskCategory)
    ensures c.Label() == d.Label() ==> c == d
  {
  }

  /** The boundary values: every cut point belongs to the band below it. */
  lemma ClassifyBoundaries()
    ensures Classify(2.0) == Conservative
    ensures Classify(2.01) == ModeratelyConservative
    ensures Classify(4.0) == ModeratelyConservative
    ensures Classify(6.0) == Moderate
    ensures Classify(8.0) == ModeratelyAggressive
    ensures Classify(8.01) == Aggressive
  {
  }
}
