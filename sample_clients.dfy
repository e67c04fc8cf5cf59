/** The five seeded client records and what the calculation core yields for them. */
module SampleClients {
  import RiskClassifier
  import AllocationEngine
  import RecommendationCatalog

  datatype Client = Client(
    id: int,
    name: string,
    age: int,
    riskScore: real,
    investmentTotal: int,
    goalProgress: int)

  const Clients: seq<Client> := [
    Client(1, "Sarah Johnson", 42, 7.2, 425000, 68),
    Client(2, "Robert Chen", 58, 4.3, 890000, 82),
    Client(3, "Maria Garcia", 35, 8.1, 210000, 45),
    Client(4, "James Wilson", 67, 3.2, 1250000, 94),
    Client(5, "Aisha Patel", 29, 9.0, 125000, 35)
  ]

  /** The id the onboarding form gives a new client: one past the seeded list, always 6. */
  function NewClientId(): (id: int)
    ensures forall c :: c in Clients ==> c.id < id
  {
    |Clients| + 1
  }

  /** The seed data satisfies the record invariants the calculations assume. */
  lemma ClientsWellFormed()
    ensures forall i :: 0 <= i < |Clients| ==> Clients[i].id == i + 1
    ensures forall c :: c in Clients ==> AllocationEngine.InDomain(c.riskScore)
    ensures forall c :: c in Clients ==> 18 <= c.age <= 120 && 0 <= c.goalProgress <= 100
    ensures NewClientId() == 6
  {
  }

  /** Category and table for each seeded client; the first shows the two cuts disagreeing. */
  lemma ClientAdvice()
    ensures RiskClassifier.Classify(Clients[0].riskScore) == RiskClassifier.ModeratelyAggressive
    ensures RecommendationCatalog.BandOf(Clients[0].riskScore) == RecommendationCatalog.Aggressive
    ensures RiskClassifier.Classify(Clients[1].riskScore) == RiskClassifier.Moderate
    ensures RecommendationCatalog.BandOf(Clients[1].riskScore) == RecommendationCatalog.Moderate
    ensures RiskClassifier.Classify(Clients[2].riskScore) == RiskClassifier.Aggressive
    ensures RecommendationCatalog.BandOf(Clients[2].riskScore) == RecommendationCatalog.Aggressive
    ensures RiskClassifier.Classify(Clients[3].riskScore) == RiskClassifier.ModeratelyConservative
    ensures RecommendationCatalog.BandOf(Clients[3].riskScore) == RecommendationCatalog.Conservative
    ensures RiskClassifier.Classify(Clients[4].riskScore) == RiskClassifier.Aggressive
    ensures RecommendationCatalog.BandOf(Clients[4].riskScore) == RecommendationCatalog.Aggressive
  {
  }
}
