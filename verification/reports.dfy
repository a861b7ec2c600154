/**
 * The figures of app/reports/page.tsx, computed from the stored analyses
 * (margins in percent): margin and price histograms, the winning/losing
 * split, average margin, total revenue, the top ten and the margin colour.
 */
module Reports {
  import opened Types
  import Seqs
  import Numeric

  /** The margin bucket label: every margin gets exactly one of five. */
  function MarginRange(p: ProductAnalysis): (bucket: string)
    ensures bucket == "30%+" <==> p.profitMargin >= 30.0
    ensures bucket == "20-30%" <==> 20.0 <= p.profitMargin < 30.0
    ensures bucket == "10-20%" <==> 10.0 <= p.profitMargin < 20.0
    ensures bucket == "0-10%" <==> 0.0 <= p.profitMargin < 10.0
    ensures bucket == "Negativa" <==> p.profitMargin < 0.0
  {
    if p.profitMargin >= 30.0 then "30%+"
    else if p.profitMargin >= 20.0 then "20-30%"
    else if p.profitMargin >= 10.0 then "10-20%"
    else if p.profitMargin >= 0.0 then "0-10%"
    else "Negativa"
  }

  /** The price bucket label: every price gets exactly one of six. */
  function PriceRange(p: ProductAnalysis): (bucket: string)
    ensures bucket == "R$ 1000+" <==> p.currentPrice >= 1000.0
    ensures bucket == "R$ 500-1000" <==> 500.0 <= p.currentPrice < 1000.0
    ensures bucket == "R$ 200-500" <==> 200.0 <= p.currentPrice < 500.0
    ensures bucket == "R$ 100-200" <==> 100.0 <= p.currentPrice < 200.0
    ensures bucket == "R$ 50-100" <==> 50.0 <= p.currentPrice < 100.0
    ensures bucket == "R$ 0-50" <==> p.currentPrice < 50.0
  {
    if p.currentPrice >= 1000.0 then "R$ 1000+"
    else if p.currentPrice >= 500.0 then "R$ 500-1000"
    else if p.currentPrice >= 200.0 then "R$ 200-500"
    else if p.currentPrice >= 100.0 then "R$ 100-200"
    else if p.currentPrice >= 50.0 then "R$ 50-100"
    else "R$ 0-50"
  }

  /**
   * The histogram the `reduce` builds: one entry per label that occurs,
   * holding the number of products with that label; the counts add up to the
   * number of products.
   */
  function Histogram(products: seq<ProductAnalysis>, bucketOf: ProductAnalysis -> string): (h: seq<(string, nat)>)
    ensures Seqs.DistinctKeys(h)
    ensures |h| <= |products|
    ensures Seqs.SumCounts(h) == |products|
    ensures forall e :: e in h ==> e.0 in Seqs.Map(products, bucketOf) && e.1 == Seqs.Occurrences(Seqs.Map(products, bucketOf), e.0)
  {
    var keys := Seqs.Map(products, bucketOf);
    Seqs.TallySpec(keys);
    Seqs.TallySum(keys);
    forall e | e in Seqs.Tally(keys)
      ensures e.1 == Seqs.Occurrences(keys, e.0)
    {
      Seqs.TallyEntry(keys, e);
    }
    Seqs.Tally(keys)
  }

  datatype ChartEntry = ChartEntry(range: string, count: nat, percentage: real)

  /** `percentage` is `count` as a percentage of `total`. */
  predicate IsShare(percentage: real, count: nat, total: nat) {
    percentage * (total as real) == (count as real) * 100.0
  }

  /** `count` as a percentage of `total`. */
  function Share(count: nat, total: nat): (p: real)
    requires total > 0
    ensures IsShare(p, count, total)
    ensures 0.0 <= p
    ensures count <= total ==> p <= 100.0
  {
    var p := (count as real) / (total as real) * 100.0;
    Numeric.ProportionBounds(p, total as real, 100.0, count as real);
    p
  }

  /** One chart entry per histogram entry, with its share of `total`. */
  function Chart(h: seq<(string, nat)>, total: nat): (r: seq<ChartEntry>)
    requires |h| > 0 ==> total > 0
    ensures |r| == |h|
    ensures forall i :: 0 <= i < |r| ==> r[i].range == h[i].0 && r[i].count == h[i].1
    ensures forall i :: 0 <= i < |r| ==> IsShare(r[i].percentage, r[i].count, total)
  {
    seq(|h|, i requires 0 <= i < |h| => ChartEntry(h[i].0, h[i].1, Share(h[i].1, total)))
  }

  /** The margin chart: each histogram entry with its share of all products, in percent. */
  function MarginChartData(products: seq<ProductAnalysis>): (r: seq<ChartEntry>)
    ensures |r| == |Histogram(products, MarginRange)|
    ensures forall i :: 0 <= i < |r| ==>
              (r[i].range == Histogram(products, MarginRange)[i].0 &&
               r[i].count == Histogram(products, MarginRange)[i].1 &&
               IsShare(r[i].percentage, r[i].count, |products|))
  {
    Chart(Histogram(products, MarginRange), |products|)
  }

  /** The price chart: one entry per price band that occurs, with its count. */
  function PriceChartData(products: seq<ProductAnalysis>): (r: seq<(string, nat)>)
    ensures Seqs.DistinctKeys(r)
    ensures Seqs.SumCounts(r) == |products|
    ensures forall e :: e in r ==> e.1 == Seqs.Occurrences(Seqs.Map(products, PriceRange), e.0)
  {
    Histogram(products, PriceRange)
  }

  function TotalPercentage(r: seq<ChartEntry>): real {
    if |r| == 0 then 0.0 else r[0].percentage + TotalPercentage(r[1..])
  }

  function TotalCount(r: seq<ChartEntry>): nat {
    if |r| == 0 then 0 else r[0].count + TotalCount(r[1..])
  }

  /** Shares of one total add up to the share of the summed counts. */
  lemma {:induction false} SharesAdd(r: seq<ChartEntry>, total: nat)
    requires forall i :: 0 <= i < |r| ==> IsShare(r[i].percentage, r[i].count, total)
    ensures IsShare(TotalPercentage(r), TotalCount(r), total)
  {
    if |r| > 0 {
      SharesAdd(r[1..], total);
      assert IsShare(r[0].percentage, r[0].count, total);
      var t := total as real;
      calc {
        TotalPercentage(r) * t;
        r[0].percentage * t + TotalPercentage(r[1..]) * t;
        (r[0].count as real) * 100.0 + (TotalCount(r[1..]) as real) * 100.0;
      }
    }
  }

  /** Entries that copy a tally's counts add up to the tally's total. */
  lemma {:induction false} CountsMatch(r: seq<ChartEntry>, h: seq<(string, nat)>)
    requires |r| == |h|
    requires forall i :: 0 <= i < |r| ==> r[i].count == h[i].1
    ensures TotalCount(r) == Seqs.SumCounts(h)
  {
    if |r| > 0 {
      CountsMatch(r[1..], h[1..]);
    }
  }

  /** For any non-empty list of products the chart's percentages add up to exactly 100. */
  lemma PercentagesAddUpToHundred(products: seq<ProductAnalysis>)
    requires |products| > 0
    ensures TotalPercentage(MarginChartData(products)) == 100.0
  {
    var r := MarginChartData(products);
    var h := Histogram(products, MarginRange);
    CountsMatch(r, h);
    SharesAdd(r, |products|);
    WholeShare(TotalPercentage(r), |products|);
  }

  /** The share of a whole is 100 percent. */
  lemma WholeShare(p: real, n: nat)
    requires n > 0 && IsShare(p, n, n)
    ensures p == 100.0
  {
    Numeric.CancelFactor(p, 100.0, n as real);
  }

  predicate Winning(p: ProductAnalysis) { p.isWinning }
  predicate Losing(p: ProductAnalysis) { !p.isWinning }
  function Margin(p: ProductAnalysis): real { p.profitMargin }
  function Net(p: ProductAnalysis): real { p.netReceived }

  datatype Summary = Summary(winningProducts: nat, losingProducts: nat, averageMargin: real, totalRevenue: real)

  /** Winning and losing partition the products; the average margin is 0 for none. */
  function Summarize(products: seq<ProductAnalysis>): (s: Summary)
    ensures s.winningProducts + s.losingProducts == |products|
    ensures s.winningProducts == Seqs.Count(products, Winning)
    ensures |products| == 0 ==> s.averageMargin == 0.0
    ensures |products| > 0 ==> s.averageMargin * (|products| as real) == Seqs.SumBy(products, Margin)
    ensures s.totalRevenue == Seqs.SumBy(products, Net)
  {
    Seqs.CountComplement(products, Winning, Losing);
    Summary(Seqs.Count(products, Winning), Seqs.Count(products, Losing),
            Seqs.MeanBy(products, Margin), Seqs.SumBy(products, Net))
  }

  /** The top ten by margin, best first: all of them when there are fewer than ten. */
  function TopByMargin(products: seq<ProductAnalysis>): (r: seq<ProductAnalysis>)
    ensures |r| == if |products| < 10 then |products| else 10
    ensures Seqs.NonIncreasing(r, Margin)
    ensures multiset(r) <= multiset(products)
    ensures forall x, y :: x in multiset(products) - multiset(r) && y in r ==> x.profitMargin <= y.profitMargin
  {
    Seqs.TopKSpec(products, Margin, 10);
    Seqs.TopK(products, Margin, 10)
  }

  datatype MarginColor = Green | Yellow | Red

  /** `getProfitMarginColor`: green from 30%, yellow from 15%, red below. */
  function ProfitMarginColor(margin: real): (c: MarginColor)
    ensures c == Green <==> margin >= 30.0
    ensures c == Yellow <==> 15.0 <= margin < 30.0
    ensures c == Red <==> margin < 15.0
  {
    if margin >= 30.0 then Green else if margin >= 15.0 then Yellow else Red
  }

  /** The colour never drops as the margin grows. */
  lemma ColorMonotone(m1: real, m2: real)
    requires m1 <= m2
    ensures ProfitMarginColor(m1) == Green ==> ProfitMarginColor(m2) == Green
    ensures ProfitMarginColor(m2) == Red ==> ProfitMarginColor(m1) == Red
  {
  }

  /** Products in the green band are exactly those in the "30%+" bucket. */
  lemma GreenIsTopBucket(p: ProductAnalysis)
    ensures ProfitMarginColor(p.profitMargin) == Green <==> MarginRange(p) == "30%+"
  {
  }
}
