/** `generateRecommendations`: one of three fixed ticker tables, chosen by strict bands on the score. */
module RecommendationCatalog {
  import AllocationEngine

  datatype Recommendation = Recommendation(
    ticker: string,
    name: string,
    allocation: int,
    category: AllocationEngine.AssetClass)

  /** Which table a score selects. */
  datatype Band = Aggressive | Moderate | Conservative

  const AggressiveTable: seq<Recommendation> := [
    Recommendation("VTI", "Vanguard Total Stock Market ETF", 40, AllocationEngine.USStocks),
    Recommendation("AAPL", "Apple Inc.", 10, AllocationEngine.USStocks),
    Recommendation("MSFT", "Microsoft Corporation", 10, AllocationEngine.USStocks),
    Recommendation("VXUS", "Vanguard Total International Stock ETF", 20, AllocationEngine.IntlStocks),
    Recommendation("BND", "Vanguard Total Bond Market ETF", 10, AllocationEngine.Bonds),
    Recommendation("VNQ", "Vanguard Real Estate ETF", 7, AllocationEngine.Alternatives),
    Recommendation("VMFXX", "Vanguard Federal Money Market Fund", 3, AllocationEngine.Cash)
  ]

  const ModerateTable: seq<Recommendation> := [
    Recommendation("VTI", "Vanguard Total Stock Market ETF", 35, AllocationEngine.USStocks),
    Recommendation("VXUS", "Vanguard Total International Stock ETF", 15, AllocationEngine.IntlStocks),
    Recommendation("BND", "Vanguard Total Bond Market ETF", 40, AllocationEngine.Bonds),
    Recommendation("VNQ", "Vanguard Real Estate ETF", 5, AllocationEngine.Alternatives),
    Recommendation("VMFXX", "Vanguard Federal Money Market Fund", 5, AllocationEngine.Cash)
  ]

  const ConservativeTable: seq<Recommendation> := [
    Recommendation("VTI", "Vanguard Total Stock Market ETF", 20, AllocationEngine.USStocks),
    Recommendation("VXUS", "Vanguard Total International Stock ETF", 10, AllocationEngine.IntlStocks),
    Recommendation("BND", "Vanguard Total Bond Market ETF", 50, AllocationEngine.Bonds),
    Recommendation("VTIP", "Vanguard TIPS ETF", 10, AllocationEngine.Bonds),
    Recommendation("VMFXX", "Vanguard Federal Money Market Fund", 10, AllocationEngine.Cash)
  ]

  function Table(b: Band): seq<Recommendation> {
    match b
    case Aggressive => AggressiveTable
    case Moderate => ModerateTable
    case Conservative => ConservativeTable
  }

  /** The band: above 7 aggressive, above 4 up to 7 moderate, 4 and below conservative. */
  function BandOf(score: real): (b: Band)
    ensures b == Aggressive <==> 7.0 < score
    ensures b == Moderate <==> 4.0 < score <= 7.0
    ensures b == Conservative <==> score <= 4.0
  {
    if score > 7.0 then Aggressive
    else if score > 4.0 then Moderate
    else Conservative
  }

  /** The recommendation list for a score, as the component returns it. */
  function Recommend(score: real): (r: seq<Recommendation>)
    ensures r == Table(BandOf(score))
  {
    if score > 7.0 then AggressiveTable
    else if score > 4.0 then ModerateTable
    else ConservativeTable
  }

  /** The sum of the `allocation` fields of a list. */
  function TotalAllocation(rs: seq<Recommendation>): int {
    if rs == [] then 0 else rs[0].allocation + TotalAllocation(rs[1..])
  }

  /** Every entry has a positive share and no ticker appears twice. */
  predicate WellFormed(rs: seq<Recommendation>) {
    && (forall i :: 0 <= i < |rs| ==> rs[i].allocation > 0)
    && (forall i, j :: 0 <= i < j < |rs| ==> rs[i].ticker != rs[j].ticker)
  }

  lemma AggressiveTableProperties()
    ensures WellFormed(AggressiveTable)
    ensures TotalAllocation(AggressiveTable) == 100
  {
  }

  lemma ModerateTableProperties()
    ensures WellFormed(ModerateTable)
    ensures TotalAllocation(ModerateTable) == 100
  {
  }

  lemma ConservativeTableProperties()
    ensures WellFormed(ConservativeTable)
    ensures TotalAllocation(ConservativeTable) == 100
  {
  }

  /** Each table is well formed, has the stated length, and its shares sum to 100. */
  lemma TableProperties(b: Band)
    ensures WellFormed(Table(b))
    ensures TotalAllocation(Table(b)) == 100
    ensures |Table(b)| == (if b == Aggressive then 7 else 5)
  {
    match b
    case Aggressive => AggressiveTableProperties();
    case Moderate => ModerateTableProperties();
    case Conservative => ConservativeTableProperties();
  }

  /** Whatever the score, the recommended shares add up to exactly 100. */
  lemma RecommendationsSumTo100(score: real)
    ensures TotalAllocation(Recommend(score)) == 100
    ensures WellFormed(Recommend(score))
    ensures |Recommend(score)| == (if score > 7.0 then 7 else 5)
  {
    TableProperties(BandOf(score));
  }

  /** The strict band boundaries: 4 is conservative, just above 4 moderate, 7 moderate. */
  lemma BandBoundaries()
    ensures Recommend(4.0) == ConservativeTable
    ensures Recommend(4.0001) == ModerateTable
    ensures Recommend(7.0) == ModerateTable
    ensures Recommend(7.0001) == AggressiveTable
  {
  }
}
