/**
 * The analysis pipeline of app/api/analysis/route.ts (`POST`), as a total
 * function from the outcomes of its collaborators to the HTTP response.
 * `Math.random` draws and `Date.now` are parameters.
 */
module AnalysisRoute {
  import opened Wrappers
  import opened Numeric
  import opened Text
  import opened Types
  import opened MercadoLivreApi

  /** The parsed request body: unparsable, or an object whose `productId` may be absent. */
  datatype RequestBody = Malformed | Body(productId: Option<string>)

  /** The competition record as the price-to-win endpoint returns it; any field may be missing. */
  datatype CompetitionInfo = CompetitionInfo(
    totalListings: Option<real>,
    averagePrice: Option<real>,
    lowestPrice: Option<real>,
    priceToWin: Option<real>,
    status: string)

  /** Four `Math.random()` draws, in the order the estimate consumes them. */
  datatype Draws = Draws(total: real, average: real, lowest: real, priceToWin: real)

  predicate InUnitInterval(d: Draws) {
    0.0 <= d.total < 1.0 && 0.0 <= d.average < 1.0 && 0.0 <= d.lowest < 1.0 && 0.0 <= d.priceToWin < 1.0
  }

  /** The competition call either settles (with a record or null) or throws. */
  datatype CompetitionOutcome = Settled(info: Option<CompetitionInfo>) | Threw(draws: Draws)

  /** The demo-list lookup either yields a list or throws. */
  datatype DemoOutcome = DemoList(products: seq<Listing>) | DemoThrew

  datatype SaveOutcome = Saved(id: string) | SaveFailed(timestamp: nat)

  /** The record the route assembles; the two quotients are JavaScript numbers and may be non-finite. */
  datatype AnalysisDraft = AnalysisDraft(
    productId: string,
    title: string,
    currentPrice: real,
    soldQuantity: int,
    catalogPrice: real,
    shippingCost: real,
    marketplaceFee: real,
    advertisingCost: real,
    totalCosts: real,
    netReceived: real,
    recommendedCostPrice: Extended,
    profitMargin: Extended,
    isWinning: bool,
    competition: CompetitionSummary)

  datatype Response =
    | Analysis(id: string, draft: AnalysisDraft, warning: Option<string>)
    | Error(status: int, message: string)

  const SaveWarning := "Análise gerada mas não foi possível salvar no banco de dados"

  /** The settings the route falls back to when reading them throws. */
  const RouteDefaults := Settings(30.0, 8.0, 12.0, 5.0, 10.0)

  /** `productId` is truthy: present and not the empty string. */
  predicate HasProductId(body: RequestBody) {
    body.Body? && body.productId.Some? && body.productId.value != ""
  }

  /** `Array.prototype.find` by exact id: the first listing carrying it. */
  function FindById(products: seq<Listing>, id: string): (r: Option<Listing>)
    ensures r.None? <==> forall i :: 0 <= i < |products| ==> products[i].id != id
    ensures r.Some? ==> r.value.id == id
    ensures r.Some? ==> (exists i :: 0 <= i < |products| && products[i] == r.value &&
                           (forall j :: 0 <= j < i ==> products[j].id != id))
  {
    if |products| == 0 then None
    else if products[0].id == id then Some(products[0])
    else FindById(products[1..], id)
  }

  /** `price * (base + Math.random() * width)` for the draw `r`. */
  function Drawn(price: real, base: real, width: real, r: real): real {
    price * (base + r * width)
  }

  /** The estimate built when the competition call throws. */
  function Estimate(price: real, d: Draws): CompetitionInfo {
    CompetitionInfo(
      Some((d.total * 50.0).Floor as real + 10.0),
      Some(Drawn(price, 0.9, 0.2, d.average)),
      Some(Drawn(price, 0.8, 0.1, d.lowest)),
      Some(Drawn(price, 0.85, 0.1, d.priceToWin)),
      if price < price * 0.9 then "winning" else "losing")
  }

  /**
   * `isWinning`: the conditional binds looser than `||`, so the comparison
   * with the price to win applies when the status is "winning" or the price to
   * win is truthy; otherwise the product counts as winning. A missing price to
   * win makes the comparison false.
   */
  function IsWinning(info: Option<CompetitionInfo>, price: real): (w: bool)
    ensures info.None? ==> w
    ensures info.Some? && info.value.status != "winning" && !Truthy(info.value.priceToWin) ==> w
    ensures info.Some? && info.value.status == "winning" ==>
      (w <==> info.value.priceToWin.Some? && price <= info.value.priceToWin.value)
    ensures info.Some? && Truthy(info.value.priceToWin) ==> (w <==> price <= info.value.priceToWin.value)
  {
    if (info.Some? && info.value.status == "winning") || (info.Some? && Truthy(info.value.priceToWin)) then
      info.value.priceToWin.Some? && price <= info.value.priceToWin.value
    else true
  }

  /**
   * A "winning" status with a price to win of 0 still compares the price: the
   * product counts as winning only at a price of at most 0, although a 0 price
   * to win alone would not trigger the comparison.
   */
  lemma WinningStatusZeroPriceToWin(info: CompetitionInfo, price: real)
    requires info.status == "winning" && info.priceToWin == Some(0.0)
    ensures IsWinning(Some(info), price) <==> price <= 0.0
    ensures IsWinning(Some(info.(status := "losing")), price)
  {
  }

  /** The competition summary: missing or zero fields fall back to 0 listings and to the product price. */
  function Summary(info: Option<CompetitionInfo>, price: real): (c: CompetitionSummary)
    ensures info.None? ==> c == CompetitionSummary(0.0, price, price)
    ensures info.Some? ==> c.totalListings == OrElse(info.value.totalListings, 0.0)
    ensures info.Some? ==> c.averagePrice == OrElse(info.value.averagePrice, price)
    ensures info.Some? ==> c.lowestPrice == OrElse(info.value.lowestPrice, price)
  {
    match info
    case None => CompetitionSummary(0.0, price, price)
    case Some(i) => CompetitionSummary(OrElse(i.totalListings, 0.0), OrElse(i.averagePrice, price), OrElse(i.lowestPrice, price))
  }

  /** The record assembly: identity fields from the listing, costs from the percentage model. */
  function Draft(product: Listing, info: Option<CompetitionInfo>, settings: Settings): (d: AnalysisDraft)
    ensures d.productId == product.id && d.title == product.title
    ensures d.currentPrice == product.price && d.catalogPrice == product.price
    ensures d.soldQuantity == product.soldQuantity
    ensures var b := CalculateProductAnalysis(product, settings);
      d.shippingCost == b.shippingCost && d.marketplaceFee == b.marketplaceFee &&
      d.advertisingCost == b.advertisingCost && d.totalCosts == b.totalCosts &&
      d.netReceived == b.netReceived && d.recommendedCostPrice == b.recommendedCostPrice &&
      d.profitMargin == b.currentProfitMargin
    ensures d.netReceived + d.totalCosts == d.currentPrice
    ensures d.isWinning == IsWinning(info, product.price)
    ensures d.competition == Summary(info, product.price)
  {
    var b := CalculateProductAnalysis(product, settings);
    AnalysisDraft(
      product.id, product.title, product.price, product.soldQuantity, product.price,
      b.shippingCost, b.marketplaceFee, b.advertisingCost, b.totalCosts, b.netReceived,
      b.recommendedCostPrice, b.currentProfitMargin,
      IsWinning(info, product.price), Summary(info, product.price))
  }

  /** The competition record used for a product: the settled one, or the estimate when the call threw. */
  function CompetitionFor(competition: CompetitionOutcome, price: real): Option<CompetitionInfo> {
    match competition
    case Settled(i) => i
    case Threw(d) => Some(Estimate(price, d))
  }

  /** The settings used: the stored ones, or the route's own defaults when reading them threw. */
  function SettingsFor(settings: Fetch<Settings>): Settings {
    match settings
    case Fetched(v) => v
    case Failed => RouteDefaults
  }

  /**
   * The full pipeline, from the request body and the collaborators' outcomes
   * to the response. A product that is fetched, or found in the demo list
   * after the fetch failed, always yields an analysis of that product.
   */
  function Post(
    body: RequestBody, product: Fetch<Listing>, demo: DemoOutcome,
    competition: CompetitionOutcome, settings: Fetch<Settings>, save: SaveOutcome): (r: Response)
    ensures body.Malformed? ==> r == Error(500, "Falha ao analisar produto. Tente novamente.")
    ensures body.Body? && !HasProductId(body) ==> r == Error(400, "ID do produto é obrigatório")
    ensures HasProductId(body) && product.Failed? && demo.DemoThrew? ==> r.Error? && r.status == 500
    ensures HasProductId(body) && product.Failed? && demo.DemoList? ==>
      (r == Error(404, "Produto não encontrado") <==> FindById(demo.products, body.productId.value).None?)
    ensures r.Analysis? ==> HasProductId(body)
    ensures r.Analysis? && save.Saved? ==> r.id == save.id && r.warning.None?
    ensures r.Analysis? && save.SaveFailed? ==>
      r.id == "temp-" + NatToString(save.timestamp) && r.warning == Some(SaveWarning)
    ensures r.Analysis? && product.Fetched? ==> r.draft.productId == product.data.id
    ensures r.Analysis? && product.Failed? ==> r.draft.productId == body.productId.value
    ensures HasProductId(body) && product.Fetched? ==>
      r.Analysis? &&
      r.draft == Draft(product.data, CompetitionFor(competition, product.data.price), SettingsFor(settings))
    ensures HasProductId(body) && product.Failed? && demo.DemoList? &&
            FindById(demo.products, body.productId.value).Some? ==>
      var p := FindById(demo.products, body.productId.value).value;
      r.Analysis? && r.draft == Draft(p, CompetitionFor(competition, p.price), SettingsFor(settings))
    ensures r.Error? ==> r.status in {400, 404, 500}
  {
    if body.Malformed? then Error(500, "Falha ao analisar produto. Tente novamente.")
    else if !HasProductId(body) then Error(400, "ID do produto é obrigatório")
    else
      var id := body.productId.value;
      var found :=
        match product
        case Fetched(p) => Some(Some(p))
        case Failed =>
          match demo
          case DemoThrew => None
          case DemoList(ps) => Some(FindById(ps, id));
      if found.None? then Error(500, "Falha ao analisar produto. Tente novamente.")
      else if found.value.None? then Error(404, "Produto não encontrado")
      else
        var p := found.value.value;
        var draft := Draft(p, CompetitionFor(competition, p.price), SettingsFor(settings));
        match save
        case Saved(sid) => Analysis(sid, draft, None)
        case SaveFailed(ts) => Analysis("temp-" + NatToString(ts), draft, Some(SaveWarning))
  }

  /** A positive price scaled by `base + r * width` for a draw `r` in [0, 1) lies in [base, base + width) times the price. */
  lemma DrawRange(price: real, r: real, base: real, width: real, top: real)
    requires price > 0.0 && 0.0 <= r < 1.0 && width > 0.0 && top == base + width
    ensures base * price <= Drawn(price, base, width, r) < top * price
  {
    ScaleLess(r * width, width, price);
    assert price * (r * width) >= 0.0;
    assert price * (base + r * width) == base * price + (r * width) * price;
    assert top * price == base * price + width * price;
  }

  /** The estimated competition stays within the ranges its draws allow, and its status is "losing" for any price that is not negative. */
  lemma EstimateRanges(price: real, d: Draws)
    requires InUnitInterval(d)
    ensures 10.0 <= Estimate(price, d).totalListings.value <= 59.0
    ensures price > 0.0 ==> 0.9 * price <= Estimate(price, d).averagePrice.value < 1.1 * price
    ensures price > 0.0 ==> 0.8 * price <= Estimate(price, d).lowestPrice.value < 0.9 * price
    ensures price > 0.0 ==> 0.85 * price <= Estimate(price, d).priceToWin.value < 0.95 * price
    ensures Estimate(price, d).status == "losing" <==> price >= 0.0
  {
    var f := (d.total * 50.0).Floor;
    assert 0 <= f < 50;
    if price > 0.0 {
      DrawRange(price, d.average, 0.9, 0.2, 1.1);
      DrawRange(price, d.lowest, 0.8, 0.1, 0.9);
      DrawRange(price, d.priceToWin, 0.85, 0.1, 0.95);
    }
  }

  /** Whenever the estimate is used for a positive price, the product is reported as losing. */
  lemma EstimateNeverWins(price: real, d: Draws)
    requires InUnitInterval(d) && price > 0.0
    ensures !IsWinning(Some(Estimate(price, d)), price)
  {
    EstimateRanges(price, d);
  }

  /** An empty or missing id is rejected whatever the collaborators would have done. */
  lemma ValidationComesFirst(
    body: RequestBody, product1: Fetch<Listing>, demo1: DemoOutcome, competition1: CompetitionOutcome,
    settings1: Fetch<Settings>, save1: SaveOutcome, product2: Fetch<Listing>, demo2: DemoOutcome,
    competition2: CompetitionOutcome, settings2: Fetch<Settings>, save2: SaveOutcome)
    requires body.Body? && !HasProductId(body)
    ensures Post(body, product1, demo1, competition1, settings1, save1)
         == Post(body, product2, demo2, competition2, settings2, save2)
  {
  }

  /** A failed save still answers with the full analysis, under a temporary id, and never under a stored-looking one. */
  lemma SaveFailureKeepsAnalysis(
    body: RequestBody, product: Fetch<Listing>, demo: DemoOutcome, competition: CompetitionOutcome,
    settings: Fetch<Settings>, sid: string, ts: nat)
    requires Post(body, product, demo, competition, settings, Saved(sid)).Analysis?
    ensures var saved := Post(body, product, demo, competition, settings, Saved(sid));
      var unsaved := Post(body, product, demo, competition, settings, SaveFailed(ts));
      unsaved.Analysis? && unsaved.draft == saved.draft && unsaved.id[..5] == "temp-"
  {
  }
}
