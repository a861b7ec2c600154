/**
 * The list page of app/products/page.tsx: the status and text filters over
 * the stored analyses, and the local removal after a confirmed delete.
 */
module ProductsPage {
  import opened Types
  import opened Text
  import Seqs

  datatype StatusFilter = All | WinningOnly | LosingOnly

  predicate Winning(p: ProductAnalysis) { p.isWinning }
  predicate Losing(p: ProductAnalysis) { !p.isWinning }

  predicate MatchesStatus(p: ProductAnalysis, status: StatusFilter) {
    match status
    case All => true
    case WinningOnly => Winning(p)
    case LosingOnly => Losing(p)
  }

  /** The lowercased title or product id contains the lowercased, untrimmed term. */
  predicate MatchesText(p: ProductAnalysis, term: string) {
    Contains(Lower(p.title), Lower(term)) || Contains(Lower(p.productId), Lower(term))
  }

  /** A blank term (empty or whitespace only) filters nothing out. */
  predicate MatchesTerm(p: ProductAnalysis, term: string) {
    IsBlank(term) || MatchesText(p, term)
  }

  /** Both filters pass. */
  predicate Passes(p: ProductAnalysis, term: string, status: StatusFilter) {
    MatchesStatus(p, status) && MatchesTerm(p, term)
  }

  function ByStatus(products: seq<ProductAnalysis>, status: StatusFilter): seq<ProductAnalysis> {
    match status
    case All => products
    case WinningOnly => Seqs.Filter(products, Winning)
    case LosingOnly => Seqs.Filter(products, Losing)
  }

  /**
   * `filterAndSearchProducts`: the products that pass both filters, in their
   * original order, each as often as it occurs; with "all" and a blank term,
   * every product.
   */
  function FilterAndSearch(products: seq<ProductAnalysis>, term: string, status: StatusFilter): (r: seq<ProductAnalysis>)
    ensures Seqs.IsSubsequence(r, products)
    ensures forall x :: x in r <==> x in products && MatchesStatus(x, status) && MatchesTerm(x, term)
    ensures |r| == Seqs.Count(products, p => Passes(p, term, status))
    ensures status == All && IsBlank(term) ==> r == products
  {
    SearchCount(products, term, status, p => Passes(p, term, status));
    var filtered := ByStatus(products, status);
    if IsBlank(term) then
      Seqs.SubsequenceRefl(products);
      filtered
    else
      TextAfterStatus(products, term, status);
      Seqs.Filter(filtered, p => MatchesText(p, term))
  }

  /** The text filter after the status filter keeps an order-preserving selection of the products. */
  lemma TextAfterStatus(products: seq<ProductAnalysis>, term: string, status: StatusFilter)
    ensures Seqs.IsSubsequence(Seqs.Filter(ByStatus(products, status), p => MatchesText(p, term)), products)
  {
    var text := (p: ProductAnalysis) => MatchesText(p, term);
    if status == WinningOnly {
      Seqs.FilterFuse(products, Winning, text, (p: ProductAnalysis) => p.isWinning && MatchesText(p, term));
    } else if status == LosingOnly {
      Seqs.FilterFuse(products, Losing, text, (p: ProductAnalysis) => !p.isWinning && MatchesText(p, term));
    }
  }

  /** The two-stage filter keeps as many products as pass both filters at once. */
  lemma SearchCount(products: seq<ProductAnalysis>, term: string, status: StatusFilter, passes: ProductAnalysis -> bool)
    requires forall x :: passes(x) <==> Passes(x, term, status)
    ensures IsBlank(term) ==> |ByStatus(products, status)| == Seqs.Count(products, passes)
    ensures !IsBlank(term) ==>
      |Seqs.Filter(ByStatus(products, status), p => MatchesText(p, term))| == Seqs.Count(products, passes)
  {
    var text := (p: ProductAnalysis) => MatchesText(p, term);
    if IsBlank(term) {
      match status
      case All =>
        Seqs.FilterAllPass(products, passes);
        Seqs.FilterLength(products, passes);
      case WinningOnly =>
        Seqs.FilterLength(products, Winning);
        Seqs.CountMonotone(products, Winning, passes);
        Seqs.CountMonotone(products, passes, Winning);
      case LosingOnly =>
        Seqs.FilterLength(products, Losing);
        Seqs.CountMonotone(products, Losing, passes);
        Seqs.CountMonotone(products, passes, Losing);
    } else {
      Seqs.FilterLength(products, passes);
      match status
      case All =>
        Seqs.FilterLength(products, text);
        Seqs.CountMonotone(products, text, passes);
        Seqs.CountMonotone(products, passes, text);
      case WinningOnly =>
        Seqs.FilterFuse(products, Winning, text, passes);
      case LosingOnly =>
        Seqs.FilterFuse(products, Losing, text, passes);
    }
  }

  /** With a blank term, "winning" and "losing" split the list between them. */
  lemma WinningAndLosingPartition(products: seq<ProductAnalysis>, term: string)
    requires IsBlank(term)
    ensures |FilterAndSearch(products, term, WinningOnly)| + |FilterAndSearch(products, term, LosingOnly)| == |products|
    ensures forall x :: x in products ==>
      (x in FilterAndSearch(products, term, WinningOnly) <==> x !in FilterAndSearch(products, term, LosingOnly))
  {
    Seqs.FilterLength(products, Winning);
    Seqs.FilterLength(products, Losing);
    Seqs.CountComplement(products, Winning, Losing);
  }

  /** Narrowing by status never lets more products through than "all". */
  lemma StatusNarrows(products: seq<ProductAnalysis>, term: string, status: StatusFilter)
    ensures forall x :: x in FilterAndSearch(products, term, status) ==> x in FilterAndSearch(products, term, All)
  {
  }

  /** Whether the user confirmed, and how the delete request ended. */
  datatype DeleteOutcome = Cancelled | Responded(ok: bool) | Threw

  /**
   * `deleteProduct`: only a confirmed request that comes back OK removes
   * anything, and then exactly the entries with that id, keeping the order
   * of the rest.
   */
  function DeleteProduct(products: seq<ProductAnalysis>, id: string, outcome: DeleteOutcome): (r: seq<ProductAnalysis>)
    ensures outcome != Responded(true) ==> r == products
    ensures outcome == Responded(true) ==> Seqs.IsSubsequence(r, products)
    ensures outcome == Responded(true) ==> forall x :: x in r <==> x in products && x.id != id
    ensures outcome == Responded(true) ==>
      |r| + Seqs.Count(products, (p: ProductAnalysis) => p.id == id) == |products|
  {
    if outcome == Responded(true) then
      Seqs.FilterLength(products, (p: ProductAnalysis) => p.id != id);
      Seqs.CountComplement(products, (p: ProductAnalysis) => p.id != id, (p: ProductAnalysis) => p.id == id);
      Seqs.Filter(products, (p: ProductAnalysis) => p.id != id)
    else products
  }
}
