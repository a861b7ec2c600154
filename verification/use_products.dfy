/**
 * The state transitions of the hook src/hooks/useProducts.ts. Every
 * collaborator call (search, save, delete, load) is an outcome passed in;
 * `analyzeProduct` of the browser-side service is the pure calculation with
 * no configuration.
 */
module UseProducts {
  import opened Wrappers
  import opened Types
  import Text
  import Seqs
  import MlService

  datatype State = State(
    products: seq<Listing>,
    analyses: seq<MlService.LocalAnalysis>,
    loading: bool,
    error: Option<string>)

  const Initial := State([], [], false, None)

  /** How a collaborator call ended: its value, or an exception with or without a message. */
  datatype Outcome<+T> = Returned(value: T) | Threw(message: Option<string>)

  /** `err instanceof Error ? err.message : fallback`. */
  function ErrorText<T>(o: Outcome<T>, fallback: string): (m: string)
    requires o.Threw?
    ensures o.message.Some? ==> m == o.message.value
    ensures o.message.None? ==> m == fallback
  {
    o.message.GetOr(fallback)
  }

  /**
   * `searchProducts`: a blank query changes nothing; otherwise the error is
   * cleared and the products are replaced by the results, or emptied with an
   * error when the search throws.
   */
  function SearchProducts(s: State, query: string, search: Outcome<seq<Listing>>): (r: State)
    ensures Text.IsBlank(query) ==> r == s
    ensures !Text.IsBlank(query) ==> r.analyses == s.analyses && !r.loading
    ensures !Text.IsBlank(query) && search.Returned? ==> r.products == search.value && r.error == None
    ensures !Text.IsBlank(query) && search.Threw? ==>
      r.products == [] && r.error == Some(ErrorText(search, "Erro ao buscar produtos"))
  {
    if Text.IsBlank(query) then s
    else
      match search
      case Returned(results) => s.(products := results, loading := false, error := None)
      case Threw(_) => s.(products := [], loading := false, error := Some(ErrorText(search, "Erro ao buscar produtos")))
  }

  /** `searchBestSellers`: as a search, without the blank check and with its own message. */
  function SearchBestSellers(s: State, search: Outcome<seq<Listing>>): (r: State)
    ensures r.analyses == s.analyses && !r.loading
    ensures search.Returned? ==> r.products == search.value && r.error == None
    ensures search.Threw? ==>
      r.products == [] && r.error == Some(ErrorText(search, "Erro ao buscar mais vendidos"))
  {
    match search
    case Returned(results) => s.(products := results, loading := false, error := None)
    case Threw(_) => s.(products := [], loading := false, error := Some(ErrorText(search, "Erro ao buscar mais vendidos")))
  }

  function Analyze(product: Listing): MlService.LocalAnalysis {
    MlService.AnalyzeProduct(product, MlService.NoConfig)
  }

  /**
   * `analyzeProduct`: once the save succeeds the new analysis is put in
   * front and nothing else changes; a failed save only sets the error.
   */
  function AnalyzeProduct(s: State, product: Listing, save: Outcome<()>): (r: State)
    ensures r.products == s.products && r.loading == s.loading
    ensures save.Returned? ==> r.analyses == [Analyze(product)] + s.analyses && r.error == s.error
    ensures save.Returned? ==> r.analyses[0].id == product.id && r.analyses[1..] == s.analyses
    ensures save.Threw? ==> r.analyses == s.analyses && r.error == Some(ErrorText(save, "Erro ao analisar produto"))
  {
    match save
    case Returned(_) => s.(analyses := [Analyze(product)] + s.analyses)
    case Threw(_) => s.(error := Some(ErrorText(save, "Erro ao analisar produto")))
  }

  /** The index of the first save that throws, if any. */
  function FirstFailure(saves: seq<Outcome<()>>): (k: Option<nat>)
    ensures k.None? <==> forall i :: 0 <= i < |saves| ==> saves[i].Returned?
    ensures k.Some? ==> k.value < |saves| && saves[k.value].Threw?
    ensures k.Some? ==> forall i :: 0 <= i < k.value ==> saves[i].Returned?
  {
    if |saves| == 0 then None
    else if saves[0].Threw? then Some(0)
    else
      match FirstFailure(saves[1..])
      case None => None
      case Some(k) => Some(k + 1)
  }

  /**
   * `analyzeAllProducts`, one save per product in order. With no products
   * nothing happens. If every save succeeds the new analyses, in product
   * order, go in front of the old ones. The first save that throws stops the
   * loop: the analyses already saved stay in the store (`persisted`), but
   * none of them is added to the local list.
   */
  method AnalyzeAllProducts(s: State, saves: seq<Outcome<()>>) returns (r: State, persisted: seq<MlService.LocalAnalysis>)
    requires |saves| == |s.products|
    ensures |s.products| == 0 ==> r == s && persisted == []
    ensures r.products == s.products
    ensures |s.products| > 0 ==> !r.loading
    ensures FirstFailure(saves).None? ==>
      persisted == Seqs.Map(s.products, Analyze) &&
      r.analyses == persisted + s.analyses && r.error == (if |s.products| == 0 then s.error else None)
    ensures FirstFailure(saves).Some? ==>
      persisted == Seqs.Map(s.products[..FirstFailure(saves).value], Analyze) &&
      r.analyses == s.analyses &&
      r.error == Some(ErrorText(saves[FirstFailure(saves).value], "Erro ao analisar produtos"))
  {
    if |s.products| == 0 {
      return s, [];
    }
    var added: seq<MlService.LocalAnalysis> := [];
    var i := 0;
    while i < |s.products|
      invariant 0 <= i <= |s.products|
      invariant added == Seqs.Map(s.products[..i], Analyze)
      invariant forall j :: 0 <= j < i ==> saves[j].Returned?
    {
      var analysis := Analyze(s.products[i]);
      if saves[i].Threw? {
        assert FirstFailure(saves) == Some(i);
        persisted := added;
        r := s.(loading := false, error := Some(ErrorText(saves[i], "Erro ao analisar produtos")));
        return;
      }
      assert s.products[..i + 1] == s.products[..i] + [s.products[i]];
      MapSnoc(s.products[..i], s.products[i]);
      added := added + [analysis];
      i := i + 1;
    }
    assert s.products[..i] == s.products;
    persisted := added;
    r := s.(analyses := added + s.analyses, loading := false, error := None);
  }

  /** Mapping one more element at the end. */
  lemma {:induction false} MapSnoc(products: seq<Listing>, p: Listing)
    ensures Seqs.Map(products + [p], Analyze) == Seqs.Map(products, Analyze) + [Analyze(p)]
  {
    var a := Seqs.Map(products + [p], Analyze);
    var b := Seqs.Map(products, Analyze) + [Analyze(p)];
    assert |a| == |b|;
    forall k | 0 <= k < |a|
      ensures a[k] == b[k]
    {
      if k < |products| {
        assert (products + [p])[k] == products[k];
      }
    }
  }

  /** `loadSavedAnalyses`: the stored list replaces the local one, or the error is set. */
  function LoadSavedAnalyses(s: State, load: Outcome<seq<MlService.LocalAnalysis>>): (r: State)
    ensures r.products == s.products && !r.loading
    ensures load.Returned? ==> r.analyses == load.value && r.error == s.error
    ensures load.Threw? ==> r.analyses == s.analyses && r.error == Some(ErrorText(load, "Erro ao carregar análises"))
  {
    match load
    case Returned(saved) => s.(analyses := saved, loading := false)
    case Threw(_) => s.(loading := false, error := Some(ErrorText(load, "Erro ao carregar análises")))
  }

  /**
   * `deleteAnalysis`: after a successful delete exactly the entries with
   * that id are gone, the rest in order; a failed delete only sets the error.
   */
  function DeleteAnalysis(s: State, id: string, delete: Outcome<()>): (r: State)
    ensures r.products == s.products && r.loading == s.loading
    ensures delete.Returned? ==> Seqs.IsSubsequence(r.analyses, s.analyses) && r.error == s.error
    ensures delete.Returned? ==> forall a :: a in r.analyses <==> a in s.analyses && a.id != id
    ensures delete.Returned? ==>
      |r.analyses| == |s.analyses| - Seqs.Count(s.analyses, (a: MlService.LocalAnalysis) => a.id == id)
    ensures delete.Threw? ==> r.analyses == s.analyses && r.error == Some(ErrorText(delete, "Erro ao deletar análise"))
  {
    match delete
    case Returned(_) =>
      Seqs.FilterLength(s.analyses, (a: MlService.LocalAnalysis) => a.id != id);
      Seqs.CountComplement(s.analyses, (a: MlService.LocalAnalysis) => a.id == id, (a: MlService.LocalAnalysis) => a.id != id);
      s.(analyses := Seqs.Filter(s.analyses, (a: MlService.LocalAnalysis) => a.id != id))
    case Threw(_) => s.(error := Some(ErrorText(delete, "Erro ao deletar análise")))
  }

  /** `clearProducts`: no products and no error; the analyses are kept. */
  function ClearProducts(s: State): (r: State)
    ensures r.products == [] && r.error == None
    ensures r.analyses == s.analyses && r.loading == s.loading
  {
    s.(products := [], error := None)
  }

  /** Deleting an id twice is deleting it once. */
  lemma DeleteTwice(s: State, id: string)
    ensures DeleteAnalysis(DeleteAnalysis(s, id, Returned(())), id, Returned(())) == DeleteAnalysis(s, id, Returned(()))
  {
    Seqs.FilterIdempotent(s.analyses, (a: MlService.LocalAnalysis) => a.id != id);
  }

  /** Analysing then deleting the new entry's id leaves no entry with that id. */
  lemma AnalyzeThenDelete(s: State, product: Listing)
    ensures forall a :: a in DeleteAnalysis(AnalyzeProduct(s, product, Returned(())), product.id, Returned(())).analyses ==>
      a.id != product.id
  {
  }
}
