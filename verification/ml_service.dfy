/**
 * The browser-side marketplace service of src/services/mercadoLivre.ts: the
 * fraction-based cost calculator with `||` defaults, the best-seller filter,
 * and the fixed mock list used whenever a search fails.
 */
module MlService {
  import opened Wrappers
  import opened Numeric
  import opened Types
  import Seqs

  /** A partial configuration: every field may be absent. Fractions, not percentages. */
  datatype CostConfig = CostConfig(
    mlFeePercentage: Option<real>,
    shippingCost: Option<real>,
    premiumAdCost: Option<real>,
    targetProfitMargin: Option<real>)

  const NoConfig := CostConfig(None, None, None, None)

  /** The result of `calculateCosts`. The two quotient fields can be non-finite when `1 + target` is 0. */
  datatype CostCalculation = CostCalculation(
    sellingPrice: real,
    mlFees: real,
    shippingCost: real,
    premiumAdCost: real,
    totalCosts: real,
    netRevenue: real,
    suggestedMaxCost: Extended,
    profitMargin: Extended,
    targetProfitMargin: real)

  /** The effective target fraction: the supplied one when truthy, else 30%. */
  function EffectiveTarget(config: CostConfig): real {
    OrElse(config.targetProfitMargin, 0.30)
  }

  /** `Math.max(0, x)` on a possibly non-finite number; NaN propagates. */
  function ClampAtZero(x: Extended): (r: Extended)
    ensures x.Finite? ==> r == Finite(Max(0.0, x.value))
    ensures x == NegInf ==> r == Finite(0.0)
    ensures x == PosInf ==> r == PosInf
    ensures x == NaN ==> r == NaN
  {
    match x
    case Finite(v) => Finite(Max(0.0, v))
    case NegInf => Finite(0.0)
    case _ => x
  }

  /** `(net - s) / net` when `s > 0`, else 0, where `s` is the unclamped suggested cost. */
  function MarginFrom(net: real, s: Extended): Extended {
    if AtLeast(s, 0.0) && s != Finite(0.0) then
      match s
      case Finite(v) => Divide(net - v, net)
      case _ => NegInf
    else Finite(0.0)
  }

  /** Removing `net / d` from a nonzero `net` leaves the fraction `(d - 1) / d` of it. */
  lemma MarginIdentity(net: real, d: real)
    requires net != 0.0 && d != 0.0
    ensures (net - net / d) / net == (d - 1.0) / d
  {
    var s := net / d;
    assert s * d == net;
    var m := (net - s) / net;
    assert m * net == net - s;
    assert (m * net) * d == (net - s) * d;
    assert (net - s) * d == net * d - s * d;
    assert (m * d) * net == (m * net) * d;
    assert (d - 1.0) * net == net * d - net;
    CancelFactor(m * d, d - 1.0, net);
  }

  /**
   * `calculateCosts`: each configured value falls back to its default when it
   * is absent or 0 (fee 12%, shipping 15 with free shipping else 0, ads 5% of
   * the price, target 30%); the suggested cost is clamped at 0; the margin
   * equals `target / (1 + target)` whenever the unclamped suggested cost is
   * positive, whatever the price.
   */
  function CalculateCosts(product: Listing, config: CostConfig): (c: CostCalculation)
    ensures c.sellingPrice == product.price
    ensures c.targetProfitMargin == EffectiveTarget(config)
    ensures Truthy(config.targetProfitMargin) ==> c.targetProfitMargin == config.targetProfitMargin.value
    ensures !Truthy(config.targetProfitMargin) ==> c.targetProfitMargin == 0.30
    ensures Truthy(config.mlFeePercentage) ==> c.mlFees == product.price * config.mlFeePercentage.value
    ensures !Truthy(config.mlFeePercentage) ==> c.mlFees == product.price * 0.12
    ensures Truthy(config.shippingCost) ==> c.shippingCost == config.shippingCost.value
    ensures !Truthy(config.shippingCost) ==> c.shippingCost == (if product.freeShipping then 15.0 else 0.0)
    ensures Truthy(config.premiumAdCost) ==> c.premiumAdCost == config.premiumAdCost.value
    ensures !Truthy(config.premiumAdCost) ==> c.premiumAdCost == product.price * 0.05
    ensures c.totalCosts == c.mlFees + c.shippingCost + c.premiumAdCost
    ensures c.netRevenue + c.totalCosts == product.price
    ensures c.suggestedMaxCost.Finite? ==> c.suggestedMaxCost.value >= 0.0
    ensures 1.0 + c.targetProfitMargin != 0.0 ==>
      c.suggestedMaxCost == Finite(Max(0.0, c.netRevenue / (1.0 + c.targetProfitMargin)))
  {
    var price := product.price;
    var fee := OrElse(config.mlFeePercentage, 0.12);
    var shipping := OrElse(config.shippingCost, if product.freeShipping then 15.0 else 0.0);
    var ads := OrElse(config.premiumAdCost, price * 0.05);
    var target := EffectiveTarget(config);
    var mlFees := price * fee;
    var total := mlFees + shipping + ads;
    var net := price - total;
    var suggested := Divide(net, 1.0 + target);
    CostCalculation(price, mlFees, shipping, ads, total, net, ClampAtZero(suggested), MarginFrom(net, suggested), target)
  }

  /** For a well-defined target the margin is `target / (1 + target)` when the suggested cost is positive, else 0. */
  lemma MarginIsTargetShare(product: Listing, config: CostConfig)
    requires 1.0 + EffectiveTarget(config) != 0.0
    ensures var c := CalculateCosts(product, config);
      var t := c.targetProfitMargin;
      (c.netRevenue / (1.0 + t) > 0.0 ==> c.profitMargin == Finite(t / (1.0 + t))) &&
      (c.netRevenue / (1.0 + t) <= 0.0 ==> c.profitMargin == Finite(0.0))
  {
    var c := CalculateCosts(product, config);
    var t := c.targetProfitMargin;
    var d := 1.0 + t;
    if c.netRevenue / d > 0.0 {
      assert c.netRevenue != 0.0;
      MarginIdentity(c.netRevenue, d);
      assert d - 1.0 == t;
    }
  }

  /** With the default 30% target a positive suggested cost always gives the margin 3/13. */
  lemma DefaultMarginIsThreeThirteenths(product: Listing)
    requires CalculateCosts(product, NoConfig).netRevenue > 0.0
    ensures CalculateCosts(product, NoConfig).profitMargin == Finite(3.0 / 13.0)
  {
    MarginIsTargetShare(product, NoConfig);
    var c := CalculateCosts(product, NoConfig);
    assert c.netRevenue / 1.3 > 0.0;
  }

  /** When `1 + target` is 0, a positive net gives an infinite suggested cost and a margin of minus infinity. */
  lemma DegenerateTarget(product: Listing, config: CostConfig)
    requires EffectiveTarget(config) == -1.0
    ensures var c := CalculateCosts(product, config);
      (c.netRevenue > 0.0 ==> c.suggestedMaxCost == PosInf && c.profitMargin == NegInf) &&
      (c.netRevenue < 0.0 ==> c.suggestedMaxCost == Finite(0.0) && c.profitMargin == Finite(0.0)) &&
      (c.netRevenue == 0.0 ==> c.suggestedMaxCost == NaN && c.profitMargin == Finite(0.0))
  {
  }

  /** An explicit 0 in every field behaves exactly as an empty configuration. */
  lemma ExplicitZeroIsDefault(product: Listing)
    ensures CalculateCosts(product, CostConfig(Some(0.0), Some(0.0), Some(0.0), Some(0.0)))
         == CalculateCosts(product, NoConfig)
  {
  }

  /** The local analysis record of `analyzeProduct` (timestamps not modelled). */
  datatype LocalAnalysis = LocalAnalysis(id: string, product: Listing, analysis: CostCalculation)

  function AnalyzeProduct(product: Listing, config: CostConfig): (a: LocalAnalysis)
    ensures a.id == product.id && a.product == product
    ensures a.analysis == CalculateCosts(product, config)
  {
    LocalAnalysis(product.id, product, CalculateCosts(product, config))
  }

  /** The best-seller filter: more than 10 sold and a positive price. */
  predicate IsBestSeller(product: Listing) {
    product.soldQuantity > 10 && product.price > 0.0
  }

  /** A demo title: the search term, a dash, and the product name. */
  function Titled(term: string, name: string): (t: string)
    requires |name| > 0
    ensures |t| > |term| + 3 && t[..|term| + 3] == term + " - "
  {
    assert (term + " - " + name)[..|term| + 3] == term + " - ";
    term + " - " + name
  }

  /** The five fixed demo listings, titled `<term> - <name>` where the term defaults to `Produto`. */
  function MockProducts(query: string): (r: seq<Listing>)
    ensures |r| == 5
    ensures forall i :: 0 <= i < |r| ==>
      var term := if query == "" then "Produto" else query;
      |r[i].title| > |term| + 3 && r[i].title[..|term| + 3] == term + " - "
    ensures forall i :: 0 <= i < |r| ==> r[i].freeShipping && IsBestSeller(r[i])
    ensures forall i, j :: 0 <= i < j < |r| ==> r[i].id != r[j].id
  {
    var term := if query == "" then "Produto" else query;
    [ Listing("MLB123456789", Titled(term, "Smartphone Samsung Galaxy A54 128GB 6GB RAM Dual Sim"), 1299.99, 5847, "MLB1055", "", true),
      Listing("MLB987654321", Titled(term, "Notebook Lenovo IdeaPad 3 15.6\" Intel i5 8GB 256GB SSD"), 2899.90, 2341, "MLB1649", "", true),
      Listing("MLB555666777", Titled(term, "Apple AirPods Pro 2ª Geração com Case MagSafe"), 1899.99, 8765, "MLB1276", "", true),
      Listing("MLB111222333", Titled(term, "Smart TV LG 55\" 4K UHD ThinQ AI"), 2199.00, 1456, "MLB1002", "", true),
      Listing("MLB444555666", Titled(term, "Console PlayStation 5 825GB SSD"), 3999.99, 3278, "MLB1144", "", true) ]
  }

  /**
   * `searchBestSellers`: the fetched results that are best sellers, in their
   * original order; any failure yields the mock list for the default term.
   */
  function SearchBestSellers(response: Fetch<seq<Listing>>): (r: seq<Listing>)
    ensures response.Failed? ==> r == MockProducts("")
    ensures response.Fetched? ==> Seqs.IsSubsequence(r, response.data)
    ensures response.Fetched? ==> forall x :: x in r <==> x in response.data && IsBestSeller(x)
    ensures response.Fetched? ==> |r| == Seqs.Count(response.data, IsBestSeller)
    ensures forall i :: 0 <= i < |r| ==> IsBestSeller(r[i])
  {
    match response
    case Fetched(results) =>
      Seqs.FilterLength(results, IsBestSeller);
      Seqs.Filter(results, IsBestSeller)
    case Failed => MockProducts("")
  }

  /** `searchProducts`: the fetched results unchanged, or the mock list titled with the query. */
  function SearchProducts(query: string, response: Fetch<seq<Listing>>): (r: seq<Listing>)
    ensures response.Fetched? ==> r == response.data
    ensures response.Failed? ==> r == MockProducts(query)
  {
    match response
    case Fetched(results) => results
    case Failed => MockProducts(query)
  }

  /** An empty query and a failed search give the same demo list as a failed best-seller search. */
  lemma FallbacksAgree()
    ensures SearchProducts("", Failed) == SearchBestSellers(Failed)
  {
  }
}
