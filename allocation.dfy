/** `generateAllocation`: five asset-class percentages, each from its own clamped formula. */
module AllocationEngine {
  import JsMath

  /** The five asset classes, with the labels the allocation chart and the ticker tables share. */
  datatype AssetClass = USStocks | IntlStocks | Bonds | Alternatives | Cash {
    function Label(): string {
      match this
      case USStocks => "US Stocks"
      case IntlStocks => "Int'l Stocks"
      case Bonds => "Bonds"
      case Alternatives => "Alternatives"
      case Cash => "Cash"
    }
  }

  datatype Allocation = Allocation(usStocks: int, intlStocks: int, bonds: int, alternatives: int, cash: int) {
    /** What the five percentages add up to; the formulas do not force it to be 100. */
    function Total(): int {
      usStocks + intlStocks + bonds + alternatives + cash
    }

    /** "Growth Assets": US and international stocks plus alternatives; the rest is defensive. */
    function Growth(): (g: int)
      ensures g + Defensive() == Total()
    {
      usStocks + intlStocks + alternatives
    }

    /** "Defensive Assets": bonds plus cash, the total less the three growth classes. */
    function Defensive(): (d: int)
      ensures d + usStocks + intlStocks + alternatives == Total()
    {
      bonds + cash
    }
  }

  /** The range of scores the client data and the onboarding slider produce. */
  predicate InDomain(score: real) {
    1.0 <= score <= 10.0
  }

  /** Each component is rounded independently; the result is never normalised. */
  function Allocate(score: real): (a: Allocation)
    ensures a.usStocks <= 65
    ensures a.intlStocks <= 40
    ensures a.bonds >= 5
    ensures 0 <= a.alternatives <= 15
    ensures a.cash >= 2
  {
    var us := JsMath.Min(65.0, 10.0 + score * 6.0);
    var intl := JsMath.Min(40.0, 5.0 + score * 3.0);
    var bonds := JsMath.Max(5.0, 70.0 - score * 6.0);
    var alts := JsMath.Min(15.0, JsMath.Max(0.0, (score - 3.0) * 2.0));
    var cash := JsMath.Max(2.0, 15.0 - score);
    Allocation(JsMath.Round(us), JsMath.Round(intl), JsMath.Round(bonds), JsMath.Round(alts), JsMath.Round(cash))
  }

  /** On the score domain every component is a non-negative percentage inside its clamp. */
  lemma AllocationRanges(score: real)
    requires InDomain(score)
    ensures var a := Allocate(score);
      && 16 <= a.usStocks <= 65
      && 8 <= a.intlStocks <= 35
      && 5 <= a.bonds <= 64
      && 0 <= a.alternatives <= 14
      && 5 <= a.cash <= 14
  {
  }

  /** Stocks and alternatives never shrink as the score grows; bonds and cash never grow. */
  lemma AllocationMonotone(s: real, t: real)
    requires s <= t
    ensures Allocate(s).usStocks <= Allocate(t).usStocks
    ensures Allocate(s).intlStocks <= Allocate(t).intlStocks
    ensures Allocate(s).alternatives <= Allocate(t).alternatives
    ensures Allocate(s).bonds >= Allocate(t).bonds
    ensures Allocate(s).cash >= Allocate(t).cash
  {
  }

  /** The growth share never shrinks and the defensive share never grows as the score rises. */
  lemma GrowthDefensiveMonotone(s: real, t: real)
    requires s <= t
    ensures Allocate(s).Growth() <= Allocate(t).Growth()
    ensures Allocate(s).Defensive() >= Allocate(t).Defensive()
  {
    AllocationMonotone(s, t);
  }

  /** The two subtotals the panel shows add up to more than 100 percent on the score domain. */
  lemma GrowthPlusDefensive(score: real)
    requires InDomain(score)
    ensures Allocate(score).Growth() + Allocate(score).Defensive() > 100
  {
    TotalExceeds100(score);
  }

  /** On the score domain the five percentages never add up to 100: they always exceed it. */
  lemma TotalExceeds100(score: real)
    requires InDomain(score)
    ensures Allocate(score).Total() > 100
  {
  }

  /** Worked values: each component is rounded on its own and the totals are 123 and 102. */
  lemma AllocationExamples()
    ensures Allocate(7.2) == Allocation(53, 27, 27, 8, 8)
    ensures Allocate(7.2).Total() == 123
    ensures Allocate(1.0) == Allocation(16, 8, 64, 0, 14)
    ensures Allocate(1.0).Total() == 102
  {
  }
}
