/**
 * The pure logic of lib/firebase-service.ts. The `product_analyses`
 * collection is a sequence already ordered newest first (the order of the
 * `lastUpdated desc` query); reads that can fail are `Fetch` outcomes.
 */
module FirebaseService {
  import opened Wrappers
  import opened Text
  import opened Types
  import Seqs

  /** The settings used when none are stored or they cannot be read. */
  const DefaultSettings := Settings(30.0, 10.0, 12.0, 5.0, 0.0)

  /** The outcome of reading the settings document. */
  datatype SettingsRead = Found(stored: Settings) | Missing | ReadFailed

  /** `getAnalysisSettings`: the stored document when there is one, the defaults otherwise; it never fails. */
  function GetAnalysisSettings(read: SettingsRead): (s: Settings)
    ensures read.Found? ==> s == read.stored
    ensures !read.Found? ==> s == DefaultSettings
  {
    match read
    case Found(stored) => stored
    case _ => DefaultSettings
  }

  /** The `settings` collection: document id to document data. */
  type SettingsStore = map<string, Settings>

  /** The id `getAnalysisSettings` reads. */
  const SettingsDocId := "analysis_settings"

  /** Reading the settings document: its data when it exists, unless the read fails. */
  function ReadSettings(store: SettingsStore, readFails: bool): (r: SettingsRead)
    ensures readFails ==> r == ReadFailed
    ensures !readFails ==> (r.Found? <==> SettingsDocId in store)
    ensures r.Found? ==> r.stored == store[SettingsDocId]
  {
    if readFails then ReadFailed
    else if SettingsDocId in store then Found(store[SettingsDocId])
    else Missing
  }

  /**
   * `saveAnalysisSettings` as written: update the fixed document; if that
   * fails (it does whenever the document does not exist) add a new document
   * under a fresh generated id; if that fails too, throw (`None`).
   */
  function SaveAnalysisSettingsAsWritten(
    store: SettingsStore, settings: Settings, freshId: string, updateFails: bool, createFails: bool): (r: Option<SettingsStore>)
    requires freshId != SettingsDocId && freshId !in store
    ensures r.None? <==> (SettingsDocId !in store || updateFails) && createFails
    ensures r.Some? && SettingsDocId in store && !updateFails ==> r.value == store[SettingsDocId := settings]
    ensures r.Some? && (SettingsDocId !in store || updateFails) ==>
      r.value == store[freshId := settings] && (SettingsDocId in r.value <==> SettingsDocId in store)
  {
    if SettingsDocId in store && !updateFails then Some(store[SettingsDocId := settings])
    else if !createFails then Some(store[freshId := settings])
    else None
  }

  /** On a store with no settings document, a successful save is never read back: the defaults come back instead. */
  lemma SavedSettingsAreLost(settings: Settings, freshId: string)
    requires freshId != SettingsDocId
    requires settings != DefaultSettings
    ensures var saved := SaveAnalysisSettingsAsWritten(map[], settings, freshId, true, false);
      saved.Some? && GetAnalysisSettings(ReadSettings(saved.value, false)) == DefaultSettings &&
      GetAnalysisSettings(ReadSettings(saved.value, false)) != settings
  {
  }

  /** The evidently intended save: write the fixed document, creating it if needed (`None` when the write fails). */
  function SaveAnalysisSettings(store: SettingsStore, settings: Settings, writeFails: bool): (r: Option<SettingsStore>)
    ensures r.None? <==> writeFails
    ensures r.Some? ==> SettingsDocId in r.value && r.value[SettingsDocId] == settings
    ensures r.Some? ==> forall id :: id in store && id != SettingsDocId ==> id in r.value && r.value[id] == store[id]
  {
    if writeFails then None else Some(store[SettingsDocId := settings])
  }

  /** With the intended save, whatever was saved is what the next successful read returns. */
  lemma SettingsRoundTrip(store: SettingsStore, settings: Settings)
    ensures var saved := SaveAnalysisSettings(store, settings, false);
      GetAnalysisSettings(ReadSettings(saved.value, false)) == settings
  {
  }

  /** `getProductAnalyses(limit)`: the newest `limit` analyses, newest first. */
  function GetProductAnalyses(store: seq<ProductAnalysis>, limit: nat): (r: seq<ProductAnalysis>)
    ensures |r| == if limit < |store| then limit else |store|
    ensures r <= store
  {
    if limit < |store| then store[..limit] else store
  }

  datatype CategoryStats = CategoryStats(
    categoryId: string,
    categoryName: string,
    productCount: nat,
    totalPrice: real,
    averagePrice: real)

  datatype DashboardStats = DashboardStats(
    totalProducts: nat,
    averageProfitMargin: real,
    totalRevenue: real,
    topCategories: seq<CategoryStats>)

  function Margin(a: ProductAnalysis): real { a.profitMargin }
  function Net(a: ProductAnalysis): real { a.netReceived }
  function Price(a: ProductAnalysis): real { a.currentPrice }

  /**
   * `getDashboardStats` over the newest 1000 analyses: the count, the mean
   * margin (0 when there are none), the summed net, and one placeholder
   * "general" category holding every analysis. A failed read gives zeros.
   */
  function GetDashboardStats(read: Fetch<seq<ProductAnalysis>>): (d: DashboardStats)
    ensures read.Failed? ==> d == DashboardStats(0, 0.0, 0.0, [])
    ensures read.Fetched? ==> var a := GetProductAnalyses(read.data, 1000);
      d.totalProducts == |a| &&
      d.totalRevenue == Seqs.SumBy(a, Net) &&
      (|a| == 0 ==> d.averageProfitMargin == 0.0 && d.topCategories == []) &&
      (|a| > 0 ==> d.averageProfitMargin * (|a| as real) == Seqs.SumBy(a, Margin)) &&
      (|a| > 0 ==> (|d.topCategories| == 1 &&
                    d.topCategories[0].categoryId == "general" && d.topCategories[0].categoryName == "Geral" &&
                    d.topCategories[0].productCount == |a| &&
                    d.topCategories[0].averagePrice * (|a| as real) == Seqs.SumBy(a, Price)))
  {
    match read
    case Failed => DashboardStats(0, 0.0, 0.0, [])
    case Fetched(store) =>
      var a := GetProductAnalyses(store, 1000);
      var categories :=
        if |a| == 0 then []
        else
          var total := Seqs.SumBy(a, Price);
          [CategoryStats("general", "Geral", |a|, total, total / (|a| as real))];
      DashboardStats(|a|, Seqs.MeanBy(a, Margin), Seqs.SumBy(a, Net), categories)
  }

  /** The dashboard's mean margin lies within the range of the stored margins. */
  lemma DashboardMeanWithinRange(store: seq<ProductAnalysis>, lo: real, hi: real)
    requires forall x :: x in store ==> lo <= x.profitMargin <= hi
    requires |store| > 0
    ensures lo <= GetDashboardStats(Fetched(store)).averageProfitMargin <= hi
  {
    var a := GetProductAnalyses(store, 1000);
    assert forall x :: x in a ==> x in store;
    Seqs.MeanBounds(a, Margin, lo, hi);
  }

  /** The search match: the title contains the term ignoring case, or the product id contains it exactly. */
  predicate Matches(a: ProductAnalysis, term: string) {
    Contains(Lower(a.title), Lower(term)) || Contains(a.productId, term)
  }

  /**
   * `searchProductAnalyses` over the newest 1000 analyses: an empty term
   * returns them unchanged; otherwise exactly the matching ones, in order.
   * A failed read fails the search.
   */
  function SearchProductAnalyses(term: string, read: Fetch<seq<ProductAnalysis>>): (r: Fetch<seq<ProductAnalysis>>)
    ensures read.Failed? <==> r.Failed?
    ensures read.Fetched? && term == "" ==> r.data == GetProductAnalyses(read.data, 1000)
    ensures read.Fetched? && term != "" ==>
      Seqs.IsSubsequence(r.data, GetProductAnalyses(read.data, 1000)) &&
      forall x :: x in r.data <==> x in GetProductAnalyses(read.data, 1000) && Matches(x, term)
    ensures read.Fetched? && term != "" ==>
      |r.data| == Seqs.Count(GetProductAnalyses(read.data, 1000), x => Matches(x, term))
  {
    match read
    case Failed => Failed
    case Fetched(store) =>
      var a := GetProductAnalyses(store, 1000);
      Seqs.FilterLength(a, x => Matches(x, term));
      if term == "" then Fetched(a) else Fetched(Seqs.Filter(a, x => Matches(x, term)))
  }

  /** An analysis whose product id is exactly the term is always found. */
  lemma ExactIdIsFound(term: string, store: seq<ProductAnalysis>, i: nat)
    requires i < |store| && i < 1000 && store[i].productId == term
    ensures store[i] in SearchProductAnalyses(term, Fetched(store)).data
  {
    ContainsTrivial(term);
    assert store[i] == GetProductAnalyses(store, 1000)[i];
  }

  /** Searching the results again with the same term changes nothing, whatever the size of the store. */
  lemma SearchIdempotent(term: string, store: seq<ProductAnalysis>)
    ensures var once := SearchProductAnalyses(term, Fetched(store)).data;
      SearchProductAnalyses(term, Fetched(once)).data == once
  {
    if term != "" {
      Seqs.FilterIdempotent(GetProductAnalyses(store, 1000), x => Matches(x, term));
    }
  }
}
