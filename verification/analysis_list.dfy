/**
 * The profitability badge and the margin colour of
 * src/components/AnalysisList.tsx, over the browser-side service's
 * `calculateCosts` results (fractions, not percentages).
 */
module AnalysisList {
  import opened Numeric
  import opened Types
  import MlService

  datatype Tier = Excellent | Good | Warning | Poor

  /** Tiers in order, best highest. */
  function Rank(t: Tier): nat {
    match t
    case Poor => 0
    case Warning => 1
    case Good => 2
    case Excellent => 3
  }

  /**
   * The chain `>= 0.30`, `>= 0.20`, `>= 0.10`, else: for a finite margin
   * exactly one tier's half-open band holds it; infinity is excellent and
   * NaN, which fails every comparison, and minus infinity are poor.
   */
  function Classify(m: Extended): (t: Tier)
    ensures m.Finite? ==> (t == Excellent <==> m.value >= 0.30)
    ensures m.Finite? ==> (t == Good <==> 0.20 <= m.value < 0.30)
    ensures m.Finite? ==> (t == Warning <==> 0.10 <= m.value < 0.20)
    ensures m.Finite? ==> (t == Poor <==> m.value < 0.10)
    ensures m == PosInf ==> t == Excellent
    ensures m == NaN || m == NegInf ==> t == Poor
  {
    if AtLeast(m, 0.30) then Excellent
    else if AtLeast(m, 0.20) then Good
    else if AtLeast(m, 0.10) then Warning
    else Poor
  }

  /** A larger finite margin never gets a lower tier. */
  lemma ClassifyMonotone(m1: real, m2: real)
    requires m1 <= m2
    ensures Rank(Classify(Finite(m1))) <= Rank(Classify(Finite(m2)))
  {
  }

  /**
   * The badge's margin, `(netRevenue - suggestedMaxCost) / netRevenue`, with
   * JavaScript's arithmetic on a non-finite suggested cost: `net - Infinity`
   * is minus infinity, and minus infinity divided by a non-negative net
   * (including 0) stays minus infinity.
   */
  function StatusMargin(c: MlService.CostCalculation): (m: Extended)
    ensures c.suggestedMaxCost.Finite? ==> m == Divide(c.netRevenue - c.suggestedMaxCost.value, c.netRevenue)
    ensures c.suggestedMaxCost == PosInf && c.netRevenue >= 0.0 ==> m == NegInf
    ensures c.suggestedMaxCost == NaN ==> m == NaN
  {
    var net := c.netRevenue;
    match c.suggestedMaxCost
    case Finite(v) => Divide(net - v, net)
    case PosInf => if net >= 0.0 then NegInf else PosInf
    case NegInf => if net >= 0.0 then PosInf else NegInf
    case NaN => NaN
  }

  /** `getProfitabilityStatus`. */
  function Status(c: MlService.CostCalculation): Tier {
    Classify(StatusMargin(c))
  }

  /** The colour of the projected margin uses the same thresholds on the stored margin. */
  function MarginColor(c: MlService.CostCalculation): Tier {
    Classify(c.profitMargin)
  }

  /** A zero net revenue makes the badge's margin NaN or minus infinity: the badge is always "poor". */
  lemma ZeroNetIsPoor(product: Listing, config: MlService.CostConfig)
    requires MlService.CalculateCosts(product, config).netRevenue == 0.0
    ensures StatusMargin(MlService.CalculateCosts(product, config)) in {NaN, NegInf}
    ensures Status(MlService.CalculateCosts(product, config)) == Poor
  {
  }

  /**
   * For a positive net revenue and a target above -100%, the badge's margin
   * is the stored margin, so the badge and the colour agree.
   */
  lemma BadgeMatchesColor(product: Listing, config: MlService.CostConfig)
    requires MlService.CalculateCosts(product, config).netRevenue > 0.0
    requires 1.0 + MlService.EffectiveTarget(config) > 0.0
    ensures StatusMargin(MlService.CalculateCosts(product, config)) == MlService.CalculateCosts(product, config).profitMargin
    ensures Status(MlService.CalculateCosts(product, config)) == MarginColor(MlService.CalculateCosts(product, config))
  {
    var c := MlService.CalculateCosts(product, config);
    var t := c.targetProfitMargin;
    var d := 1.0 + t;
    QuotientBounds(c.netRevenue, d);
    MlService.MarginIsTargetShare(product, config);
    MlService.MarginIdentity(c.netRevenue, d);
    assert d - 1.0 == t;
  }

  /**
   * With no configuration a profitable listing's margin is 3/13 (about 23%):
   * the badge reads "good", never "excellent", although the target is 30%.
   */
  lemma DefaultTargetReadsGood(product: Listing)
    requires MlService.CalculateCosts(product, MlService.NoConfig).netRevenue > 0.0
    ensures Status(MlService.CalculateCosts(product, MlService.NoConfig)) == Good
    ensures MarginColor(MlService.CalculateCosts(product, MlService.NoConfig)) == Good
  {
    BadgeMatchesColor(product, MlService.NoConfig);
    MlService.DefaultMarginIsThreeThirteenths(product);
  }
}
