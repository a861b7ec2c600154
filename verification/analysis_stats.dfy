/**
 * The statistics panel of components/analysis-stats.tsx over tiered-model
 * analyses (margins in percent): a four-band margin histogram counted in one
 * pass, the premium/classic split, the means, the profitable count and the
 * top three.
 */
module AnalysisStats {
  import opened TieredCost
  import Seqs
  import Text
  import Wrappers

  function Margin(a: CostAnalysis): real { a.profitMargin }
  function Net(a: CostAnalysis): real { a.netRevenue }

  /** The four bands of the bar chart. */
  predicate BandLow(a: CostAnalysis) { a.profitMargin < 15.0 }
  predicate BandFair(a: CostAnalysis) { 15.0 <= a.profitMargin < 30.0 }
  predicate BandGood(a: CostAnalysis) { 30.0 <= a.profitMargin < 50.0 }
  predicate BandHigh(a: CostAnalysis) { a.profitMargin >= 50.0 }

  /** At least 30%: the two upper bands together. */
  predicate Profitable(a: CostAnalysis) { a.profitMargin >= 30.0 }

  datatype MarginBar = MarginBar(range: string, count: nat, color: string)

  /** The four bars of the chart, labelled and coloured, from the band counts. */
  function Bars(low: nat, fair: nat, good: nat, high: nat): seq<MarginBar> {
    [MarginBar("0-15%", low, "#ef4444"), MarginBar("15-30%", fair, "#f59e0b"),
     MarginBar("30-50%", good, "#10b981"), MarginBar("50%+", high, "#06b6d4")]
  }

  /**
   * The `forEach` over the analyses: each analysis raises exactly one band's
   * count (the first test it passes in the chain `< 15`, `< 30`, `< 50`,
   * else), so each count is the number of analyses in its band and the four
   * counts add up to the number of analyses. The chart shows
   * `Bars(low, fair, good, high)`.
   */
  method CountMarginRanges(analyses: seq<CostAnalysis>) returns (low: nat, fair: nat, good: nat, high: nat)
    ensures low == Seqs.Count(analyses, BandLow)
    ensures fair == Seqs.Count(analyses, BandFair)
    ensures good == Seqs.Count(analyses, BandGood)
    ensures high == Seqs.Count(analyses, BandHigh)
    ensures low + fair + good + high == |analyses|
  {
    low, fair, good, high := 0, 0, 0, 0;
    var i := 0;
    while i < |analyses|
      invariant 0 <= i <= |analyses|
      invariant low == Seqs.Count(analyses[..i], BandLow)
      invariant fair == Seqs.Count(analyses[..i], BandFair)
      invariant good == Seqs.Count(analyses[..i], BandGood)
      invariant high == Seqs.Count(analyses[..i], BandHigh)
      invariant low + fair + good + high == i
    {
      var a := analyses[i];
      assert analyses[..i + 1] == analyses[..i] + [a];
      Seqs.CountSnoc(analyses[..i], a, BandLow);
      Seqs.CountSnoc(analyses[..i], a, BandFair);
      Seqs.CountSnoc(analyses[..i], a, BandGood);
      Seqs.CountSnoc(analyses[..i], a, BandHigh);
      if a.profitMargin < 15.0 {
        low := low + 1;
      } else if a.profitMargin < 30.0 {
        fair := fair + 1;
      } else if a.profitMargin < 50.0 {
        good := good + 1;
      } else {
        high := high + 1;
      }
      i := i + 1;
    }
    assert analyses[..i] == analyses;
  }

  /** `listing_type_id.includes('gold')`: any gold listing type is shown as premium. */
  predicate Premium(a: CostAnalysis) { Text.Contains(a.product.listingTypeId, "gold") }
  predicate Classic(a: CostAnalysis) { !Premium(a) }

  datatype AdType = AdType(name: string, value: nat, color: string)

  /** The pie of listing types: premium and classic split the analyses. */
  function AdTypes(analyses: seq<CostAnalysis>): (r: seq<AdType>)
    ensures |r| == 2
    ensures r[0].name == "Premium" && r[0].value == Seqs.Count(analyses, Premium)
    ensures r[1].name == "Clássico" && r[1].value == Seqs.Count(analyses, Classic)
    ensures r[0].value + r[1].value == |analyses|
  {
    Seqs.CountComplement(analyses, Premium, Classic);
    [AdType("Premium", Seqs.Count(analyses, Premium), "#8b5cf6"),
     AdType("Clássico", Seqs.Count(analyses, Classic), "#06b6d4")]
  }

  /** An analysis of a premium listing of the tiered model is also shown as premium. */
  lemma TieredPremiumShownPremium(a: CostAnalysis)
    requires IsPremium(a.product.listingTypeId)
    ensures Premium(a)
  {
    var t := a.product.listingTypeId;
    if Text.Contains(t, "gold_pro") {
      Text.ContainsOccurs(t, "gold_pro");
      var i :| Text.OccursAt(t, "gold_pro", i);
      assert t[i..i + 4] == "gold_pro"[..4];
      Text.OccursContains(t, "gold", i);
    } else {
      Text.ContainsOccurs(t, "gold_special");
      var i :| Text.OccursAt(t, "gold_special", i);
      assert t[i..i + 4] == "gold_special"[..4];
      Text.OccursContains(t, "gold", i);
    }
  }

  datatype Summary = Summary(avgMargin: real, avgRevenue: real, profitableCount: nat)

  /**
   * The quick summary, or nothing: an empty list takes the early return, so
   * the means are only ever taken over at least one analysis.
   */
  function Summarize(analyses: seq<CostAnalysis>): (s: Wrappers.Option<Summary>)
    ensures s.None? <==> |analyses| == 0
    ensures s.Some? ==> s.value.avgMargin * (|analyses| as real) == Seqs.SumBy(analyses, Margin)
    ensures s.Some? ==> s.value.avgRevenue * (|analyses| as real) == Seqs.SumBy(analyses, Net)
    ensures s.Some? ==> s.value.profitableCount == Seqs.Count(analyses, Profitable)
  {
    if |analyses| == 0 then Wrappers.None
    else Wrappers.Some(Summary(Seqs.MeanBy(analyses, Margin), Seqs.MeanBy(analyses, Net),
                               Seqs.Count(analyses, Profitable)))
  }

  /** The profitable count is the two upper bars of the chart together. */
  lemma ProfitableIsUpperBands(analyses: seq<CostAnalysis>)
    ensures Seqs.Count(analyses, Profitable) == Seqs.Count(analyses, BandGood) + Seqs.Count(analyses, BandHigh)
  {
    Seqs.CountDisjoint(analyses, BandGood, BandHigh, Profitable);
  }

  /** The tiered model's margin is below 30 for a positive price, so no such analysis is profitable. */
  lemma NoneProfitableAtPositivePrices(analyses: seq<CostAnalysis>)
    requires forall i :: 0 <= i < |analyses| ==> analyses[i] == AnalyzeCosts(analyses[i].product)
    requires forall i :: 0 <= i < |analyses| ==> analyses[i].product.price > 0.0
    ensures Seqs.Count(analyses, Profitable) == 0
    ensures Seqs.Count(analyses, BandGood) == 0 && Seqs.Count(analyses, BandHigh) == 0
  {
    forall a | a in analyses
      ensures a.profitMargin < 30.0
    {
      var i :| 0 <= i < |analyses| && analyses[i] == a;
      TieredMarginBelowThirty(a.product);
    }
    Seqs.NoneCounted(analyses, Profitable);
    Seqs.NoneCounted(analyses, BandGood);
    Seqs.NoneCounted(analyses, BandHigh);
  }

  /** `sort` by margin, best first, then `slice(0, 3)`: all of them when there are fewer than three. */
  function TopThree(analyses: seq<CostAnalysis>): (r: seq<CostAnalysis>)
    ensures |r| == if |analyses| < 3 then |analyses| else 3
    ensures Seqs.NonIncreasing(r, Margin)
    ensures multiset(r) <= multiset(analyses)
    ensures forall x, y :: x in multiset(analyses) - multiset(r) && y in r ==> x.profitMargin <= y.profitMargin
  {
    Seqs.TopKSpec(analyses, Margin, 3);
    Seqs.TopK(analyses, Margin, 3)
  }
}
