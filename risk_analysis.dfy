/**
 * The labels of the client page's risk-analysis panel: volatility tolerance, income needs
 * and loss capacity, plus the amber highlight of high scores. In the component they are
 * inline conditional chains on the client's score.
 */
module RiskAnalysis {
  import RiskClassifier
  import RecommendationCatalog

  /** The words the panel uses for a level. */
  datatype Level = VeryLow | Low | Moderate | High | VeryHigh {
    function Label(): string {
      match this
      case VeryLow => "Very Low"
      case Low => "Low"
      case Moderate => "Moderate"
      case High => "High"
      case VeryHigh => "Very High"
    }
  }

  /** The volatility level that goes with each risk category. */
  function VolatilityOf(c: RiskClassifier.RiskCategory): Level {
    match c
    case Conservative => VeryLow
    case ModeratelyConservative => Low
    case Moderate => Moderate
    case ModeratelyAggressive => High
    case Aggressive => VeryHigh
  }

  /** Volatility tolerance: strict `>` tests at 8, 6, 4 and 2, from the top down. */
  function VolatilityTolerance(score: real): (v: Level)
    ensures v == VolatilityOf(RiskClassifier.Classify(score))
  {
    if score > 8.0 then VeryHigh
    else if score > 6.0 then High
    else if score > 4.0 then Moderate
    else if score > 2.0 then Low
    else VeryLow
  }

  /** The risk category a volatility level stands for. */
  function CategoryOf(v: Level): RiskClassifier.RiskCategory {
    match v
    case VeryLow => RiskClassifier.Conservative
    case Low => RiskClassifier.ModeratelyConservative
    case Moderate => RiskClassifier.Moderate
    case High => RiskClassifier.ModeratelyAggressive
    case VeryHigh => RiskClassifier.Aggressive
  }

  /** Categories and volatility levels correspond one to one: the two maps are inverse. */
  lemma VolatilityOfBijective(c: RiskClassifier.RiskCategory, v: Level)
    ensures CategoryOf(VolatilityOf(c)) == c
    ensures VolatilityOf(CategoryOf(v)) == v
  {
  }

  /** The loss-capacity level that goes with each recommendation band. */
  function CapacityOf(b: RecommendationCatalog.Band): Level {
    match b
    case Aggressive => High
    case Moderate => Moderate
    case Conservative => Low
  }

  /** Loss capacity: above 7 high, above 4 moderate, otherwise low. */
  function LossCapacity(score: real): (l: Level)
    ensures l == CapacityOf(RecommendationCatalog.BandOf(score))
  {
    if score > 7.0 then High
    else if score > 4.0 then Moderate
    else Low
  }

  /** Income needs: high strictly below 4, low from 4 up. */
  function IncomeNeeds(score: real): (l: Level)
    ensures l == High || l == Low
  {
    if score < 4.0 then High else Low
  }

  /** The amber colour of a score in the client list and the risk panel. */
  predicate Highlighted(score: real)
    ensures Highlighted(score) <==> RecommendationCatalog.BandOf(score) == RecommendationCatalog.Aggressive
  {
    score > 7.0
  }

  /** Highlighted scores are exactly those that get the aggressive table and high loss capacity. */
  lemma HighlightMatchesAggressiveTable(score: real)
    ensures Highlighted(score) <==> RecommendationCatalog.Recommend(score) == RecommendationCatalog.AggressiveTable
    ensures Highlighted(score) <==> LossCapacity(score) == High
  {
    RecommendationCatalog.TableProperties(RecommendationCatalog.Aggressive);
    RecommendationCatalog.TableProperties(RecommendationCatalog.Moderate);
    RecommendationCatalog.TableProperties(RecommendationCatalog.Conservative);
  }

  /**
   * Income needs are high exactly on the conservative band minus its top point 4: high
   * income needs imply low loss capacity, and at exactly 4 both labels read "Low".
   */
  lemma IncomeNeedsAndLossCapacity(score: real)
    ensures IncomeNeeds(score) == High <==>
      RecommendationCatalog.BandOf(score) == RecommendationCatalog.Conservative && score != 4.0
    ensures IncomeNeeds(score) == High ==> LossCapacity(score) == Low
    ensures IncomeNeeds(4.0) == Low && LossCapacity(4.0) == Low
  {
  }

  /**
   * The category and the table use different cuts: a score in (7, 8] is only
   * "Moderately Aggressive" yet gets the aggressive table.
   */
  lemma CategoryAndBandDisagree(score: real)
    requires 7.0 < score <= 8.0
    ensures RiskClassifier.Classify(score) == RiskClassifier.ModeratelyAggressive
    ensures RecommendationCatalog.BandOf(score) == RecommendationCatalog.Aggressive
  {
  }
}
