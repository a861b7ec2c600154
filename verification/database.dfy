/** `getStats` of src/services/database.ts over the `product-analyses` collection (newest first). */
module Database {
  import opened Wrappers
  import opened Types
  import Seqs

  /** `getAnalyses(limit)`: the newest `limit` analyses; a failed read yields none. */
  function GetAnalyses(read: Fetch<seq<SavedAnalysis>>, limit: nat): (r: seq<SavedAnalysis>)
    ensures read.Failed? ==> r == []
    ensures read.Fetched? ==> r <= read.data && |r| == if limit < |read.data| then limit else |read.data|
  {
    match read
    case Failed => []
    case Fetched(store) => if limit < |store| then store[..limit] else store
  }

  function Margin(a: SavedAnalysis): real { a.profitMargin }
  function CategoryOf(a: SavedAnalysis): string { a.product.categoryId }

  /** The statistics; each top category is a pair (category id, count). */
  datatype Stats = Stats(totalAnalyses: nat, avgProfitMargin: real, topCategories: seq<(string, nat)>)

  /**
   * The five most frequent categories with their exact counts, most frequent
   * first, no category twice; fewer than five only when every category is
   * listed.
   */
  function TopCategories(a: seq<SavedAnalysis>): (r: seq<(string, nat)>)
    ensures |r| <= 5
    ensures Seqs.DistinctKeys(r)
    ensures |r| < 5 ==> forall x :: x in a ==> Seqs.Listed(r, CategoryOf(x))
    ensures Seqs.NonIncreasing(r, Seqs.EntryCount)
    ensures forall c :: c in r ==> c.0 in Seqs.Map(a, CategoryOf) && c.1 == Seqs.Occurrences(Seqs.Map(a, CategoryOf), c.0)
    ensures forall k, c :: (k in Seqs.Map(a, CategoryOf) && !Seqs.Listed(r, k) && c in r) ==>
      Seqs.Occurrences(Seqs.Map(a, CategoryOf), k) <= c.1
    ensures |a| == 0 ==> r == []
  {
    Seqs.TopKeys(Seqs.Map(a, CategoryOf), 5)
  }

  /**
   * `getStats` over the newest 1000 analyses: their number, their mean margin
   * (0 when there are none), and the category ranking. A failed read gives
   * `{0, 0, []}`.
   */
  function GetStats(read: Fetch<seq<SavedAnalysis>>): (s: Stats)
    ensures var a := GetAnalyses(read, 1000);
      s.totalAnalyses == |a| <= 1000 &&
      s.avgProfitMargin == Seqs.MeanBy(a, Margin) &&
      s.topCategories == TopCategories(a)
    ensures read.Failed? ==> s == Stats(0, 0.0, [])
  {
    var a := GetAnalyses(read, 1000);
    Stats(|a|, Seqs.MeanBy(a, Margin), TopCategories(a))
  }
}
