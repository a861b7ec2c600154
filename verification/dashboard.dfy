/** `calculateStats` of src/components/Dashboard.tsx: the summary figures and the two charts' data. */
module Dashboard {
  import opened Types
  import Seqs

  /** The pie chart's palette, used in turn. */
  const Colors: seq<string> := ["#3B82F6", "#10B981", "#F59E0B", "#EF4444", "#8B5CF6", "#06B6D4"]

  datatype CategorySlice = CategorySlice(name: string, value: nat, color: string)
  datatype MarginBucket = MarginBucket(range: string, count: nat, percentage: real)

  datatype DashboardStats = DashboardStats(
    totalAnalyses: nat,
    avgProfitMargin: real,
    totalRevenue: real,
    profitableProducts: nat,
    avgSuggestedCost: real,
    categoryDistribution: seq<CategorySlice>,
    profitMarginDistribution: seq<MarginBucket>)

  const Empty := DashboardStats(0, 0.0, 0.0, 0, 0.0, [], [])

  function Margin(a: SavedAnalysis): real { a.profitMargin }
  function Net(a: SavedAnalysis): real { a.netRevenue }
  function Suggested(a: SavedAnalysis): real { a.suggestedMaxCost }

  /** At least 30% margin, on the fraction scale. */
  predicate Profitable(a: SavedAnalysis) { a.profitMargin >= 0.30 }

  /** A missing category counts as "Outros". */
  function CategoryKey(a: SavedAnalysis): string {
    if a.product.categoryId == "" then "Outros" else a.product.categoryId
  }

  /** Names longer than 15 characters are cut to 15 and marked with an ellipsis. */
  function DisplayName(name: string): (d: string)
    ensures |name| <= 15 ==> d == name
    ensures |name| > 15 ==> |d| == 18 && d[..15] == name[..15] && d[15..] == "..."
  {
    if |name| > 15 then name[..15] + "..." else name
  }

  /** The histogram's half-open ranges on the fraction scale. */
  const Ranges: seq<(string, real, real)> :=
    [("< 10%", 0.0, 0.1), ("10-20%", 0.1, 0.2), ("20-30%", 0.2, 0.3), ("30-40%", 0.3, 0.4), ("> 40%", 0.4, 1.0)]

  predicate InRange(a: SavedAnalysis, lo: real, hi: real) {
    lo <= a.profitMargin < hi
  }

  function Bucket(analyses: seq<SavedAnalysis>, range: (string, real, real)): (b: MarginBucket)
    requires |analyses| > 0
    ensures b.range == range.0
    ensures b.count == Seqs.Count(analyses, a => InRange(a, range.1, range.2))
    ensures b.percentage * (|analyses| as real) == (b.count as real) * 100.0
  {
    var count := Seqs.Count(analyses, a => InRange(a, range.1, range.2));
    MarginBucket(range.0, count, (count as real) / (|analyses| as real) * 100.0)
  }

  /** The slice shows some occurring key, by its display name, with the key's exact count. */
  predicate ShowsCategory(keys: seq<string>, s: CategorySlice) {
    exists k :: k in keys && s.name == DisplayName(k) && s.value == Seqs.Occurrences(keys, k)
  }

  /** One slice per ranked entry: its shortened name, its count, and the next colour. */
  function Slices(top: seq<(string, nat)>): (r: seq<CategorySlice>)
    ensures |r| == |top|
    ensures forall i :: 0 <= i < |r| ==> r[i] == CategorySlice(DisplayName(top[i].0), top[i].1, Colors[i % 6])
  {
    seq(|top|, i requires 0 <= i < |top| => CategorySlice(DisplayName(top[i].0), top[i].1, Colors[i % 6]))
  }

  /** Some slice shows category `k`, by its display name, with its exact count. */
  predicate Shown(r: seq<CategorySlice>, keys: seq<string>, k: string) {
    exists i :: 0 <= i < |r| && r[i].name == DisplayName(k) && r[i].value == Seqs.Occurrences(keys, k)
  }

  /**
   * The category pie: the six most frequent categories, names shortened,
   * colours in turn. Slice `i` stands for the `i`-th entry of the ranking, so
   * no category has two slices, and a pie of fewer than six slices shows
   * every category.
   */
  function CategoryDistribution(analyses: seq<SavedAnalysis>): (r: seq<CategorySlice>)
    ensures |r| <= 6
    ensures forall i :: 0 <= i < |r| ==> r[i].color == Colors[i % 6]
    ensures forall i, j :: 0 <= i < j < |r| ==> r[i].value >= r[j].value
    ensures forall i :: 0 <= i < |r| ==> ShowsCategory(Seqs.Map(analyses, CategoryKey), r[i])
    ensures var top := Seqs.TopKeys(Seqs.Map(analyses, CategoryKey), 6);
      |r| == |top| && forall i :: 0 <= i < |r| ==> r[i].name == DisplayName(top[i].0) && r[i].value == top[i].1
    ensures |r| < 6 ==> forall a :: a in analyses ==> Shown(r, Seqs.Map(analyses, CategoryKey), CategoryKey(a))
  {
    var keys := Seqs.Map(analyses, CategoryKey);
    var top := Seqs.TopKeys(keys, 6);
    var r := Slices(top);
    SlicesNameCountedKeys(keys, top, r);
    ShortPieShowsAll(analyses, keys, top, r);
    r
  }

  /** When the ranking lists every category, every category has its slice. */
  lemma ShortPieShowsAll(analyses: seq<SavedAnalysis>, keys: seq<string>, top: seq<(string, nat)>, r: seq<CategorySlice>)
    requires keys == Seqs.Map(analyses, CategoryKey)
    requires |top| < 6 ==> forall x :: x in keys ==> Seqs.Listed(top, x)
    requires forall e :: e in top ==> e.1 == Seqs.Occurrences(keys, e.0)
    requires |r| == |top|
    requires forall i :: 0 <= i < |r| ==> r[i].name == DisplayName(top[i].0) && r[i].value == top[i].1
    ensures |r| < 6 ==> forall a :: a in analyses ==> Shown(r, keys, CategoryKey(a))
  {
    if |r| < 6 {
      forall a | a in analyses
        ensures Shown(r, keys, CategoryKey(a))
      {
        var n :| 0 <= n < |analyses| && analyses[n] == a;
        assert keys[n] == CategoryKey(a);
        assert Seqs.Listed(top, CategoryKey(a));
        var i :| 0 <= i < |top| && top[i].0 == CategoryKey(a);
        assert top[i] in top;
      }
    }
  }

  /** Each slice built from a ranked entry names a key that occurs, with its exact count. */
  lemma SlicesNameCountedKeys(keys: seq<string>, top: seq<(string, nat)>, r: seq<CategorySlice>)
    requires forall e :: e in top ==> e.0 in keys && e.1 == Seqs.Occurrences(keys, e.0)
    requires |r| == |top|
    requires forall i :: 0 <= i < |r| ==> r[i].name == DisplayName(top[i].0) && r[i].value == top[i].1
    requires Seqs.NonIncreasing(top, Seqs.EntryCount)
    ensures forall i, j :: 0 <= i < j < |r| ==> r[i].value >= r[j].value
    ensures forall i :: 0 <= i < |r| ==> ShowsCategory(keys, r[i])
  {
    forall i | 0 <= i < |r|
      ensures ShowsCategory(keys, r[i])
    {
      assert top[i] in top;
    }
  }

  /**
   * `calculateStats`: all zeros and empty charts for no analyses; otherwise
   * the count, the means of margin and suggested cost, the summed net, the
   * number at 30% or more, the category pie, and the five-range histogram.
   */
  function CalculateStats(analyses: seq<SavedAnalysis>): (s: DashboardStats)
    ensures |analyses| == 0 ==> s == Empty
    ensures |analyses| > 0 ==>
      s.totalAnalyses == |analyses| &&
      s.avgProfitMargin == Seqs.MeanBy(analyses, Margin) &&
      s.avgSuggestedCost == Seqs.MeanBy(analyses, Suggested) &&
      s.totalRevenue == Seqs.SumBy(analyses, Net) &&
      s.profitableProducts == Seqs.Count(analyses, Profitable) &&
      s.categoryDistribution == CategoryDistribution(analyses) &&
      |s.profitMarginDistribution| == 5 &&
      forall i :: 0 <= i < 5 ==> s.profitMarginDistribution[i] == Bucket(analyses, Ranges[i])
  {
    if |analyses| == 0 then Empty
    else
      DashboardStats(
        |analyses|,
        Seqs.MeanBy(analyses, Margin),
        Seqs.SumBy(analyses, Net),
        Seqs.Count(analyses, Profitable),
        Seqs.MeanBy(analyses, Suggested),
        CategoryDistribution(analyses),
        Seqs.Map(Ranges, r => Bucket(analyses, r)))
  }

  /**
   * The histogram's counts add up to the analyses with a margin in [0, 1):
   * negative margins and margins of 100% or more are in no bucket, so the
   * counts never exceed the total.
   */
  lemma {:induction false} BucketsCoverUnitInterval(analyses: seq<SavedAnalysis>)
    requires |analyses| > 0
    ensures var d := CalculateStats(analyses).profitMarginDistribution;
      d[0].count + d[1].count + d[2].count + d[3].count + d[4].count
        == Seqs.Count(analyses, a => InRange(a, 0.0, 1.0))
    ensures var d := CalculateStats(analyses).profitMarginDistribution;
      d[0].count + d[1].count + d[2].count + d[3].count + d[4].count <= |analyses|
  {
    var s := analyses;
    Seqs.CountDisjoint(s, a => InRange(a, 0.0, 0.1), a => InRange(a, 0.1, 0.2), a => InRange(a, 0.0, 0.2));
    Seqs.CountDisjoint(s, a => InRange(a, 0.0, 0.2), a => InRange(a, 0.2, 0.3), a => InRange(a, 0.0, 0.3));
    Seqs.CountDisjoint(s, a => InRange(a, 0.0, 0.3), a => InRange(a, 0.3, 0.4), a => InRange(a, 0.0, 0.4));
    Seqs.CountDisjoint(s, a => InRange(a, 0.0, 0.4), a => InRange(a, 0.4, 1.0), a => InRange(a, 0.0, 1.0));
  }

  /** A margin outside [0, 1) is counted in no bucket. */
  lemma OutsideEveryBucket(a: SavedAnalysis)
    requires a.profitMargin < 0.0 || a.profitMargin >= 1.0
    ensures forall i :: 0 <= i < |Ranges| ==> !InRange(a, Ranges[i].1, Ranges[i].2)
  {
  }

  /** Every profitable analysis with a margin below 100% is in one of the top two buckets. */
  lemma ProfitableBuckets(a: SavedAnalysis)
    requires Profitable(a) && a.profitMargin < 1.0
    ensures InRange(a, Ranges[3].1, Ranges[3].2) || InRange(a, Ranges[4].1, Ranges[4].2)
    ensures forall i :: 0 <= i < 3 ==> !InRange(a, Ranges[i].1, Ranges[i].2)
  {
  }
}
