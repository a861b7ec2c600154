/**
 * The marketplace client of lib/mercadolivre-api.ts: the percentage-configured
 * cost model, and the two lookups that swallow their failures.
 */
module MercadoLivreApi {
  import opened Wrappers
  import opened Numeric
  import opened Types

  /** What `calculateProductAnalysis` returns. The two quotients may be non-finite. */
  datatype Breakdown = Breakdown(
    price: real,
    shippingCost: real,
    marketplaceFee: real,
    advertisingCost: real,
    totalCosts: real,
    netReceived: real,
    recommendedCostPrice: Extended,
    currentProfitMargin: Extended)

  /**
   * Each percentage cost is that share of the price; net is price minus all
   * costs, never clamped; the recommended cost marked up by the target margin
   * gives back the net; the current margin is net as a percentage of price.
   * Dividing by a zero price (or by a -100% markup) gives JavaScript's
   * non-finite results rather than an error.
   */
  function CalculateProductAnalysis(product: Listing, settings: Settings): (b: Breakdown)
    ensures b.price == product.price
    ensures b.shippingCost * 100.0 == product.price * settings.shippingCostPercentage
    ensures b.marketplaceFee * 100.0 == product.price * settings.marketplaceFeePercentage
    ensures b.advertisingCost * 100.0 == product.price * settings.advertisingCostPercentage
    ensures b.totalCosts == b.shippingCost + b.marketplaceFee + b.advertisingCost + settings.additionalCosts
    ensures b.netReceived + b.totalCosts == product.price
    ensures b.netReceived < 0.0 <==> b.totalCosts > product.price
    ensures b.recommendedCostPrice.Finite? <==> settings.targetProfitMargin != -100.0
    ensures b.recommendedCostPrice.Finite? ==>
      b.recommendedCostPrice.value * (1.0 + settings.targetProfitMargin / 100.0) == b.netReceived
    ensures b.currentProfitMargin.Finite? <==> product.price != 0.0
    ensures b.currentProfitMargin.Finite? ==> b.currentProfitMargin.value * product.price == b.netReceived * 100.0
  {
    AtPrice(product.price, settings)
  }

  /** The body of `calculateProductAnalysis`, which reads nothing of the product but its price. */
  function AtPrice(price: real, settings: Settings): (b: Breakdown)
    ensures b.price == price
  {
    var shippingCost := price * (settings.shippingCostPercentage / 100.0);
    var marketplaceFee := price * (settings.marketplaceFeePercentage / 100.0);
    var advertisingCost := price * (settings.advertisingCostPercentage / 100.0);
    var totalCosts := shippingCost + marketplaceFee + advertisingCost + settings.additionalCosts;
    var netReceived := price - totalCosts;
    Breakdown(
      price,
      shippingCost,
      marketplaceFee,
      advertisingCost,
      totalCosts,
      netReceived,
      Divide(netReceived, 1.0 + settings.targetProfitMargin / 100.0),
      Scale(Divide(netReceived, price), 100.0))
  }

  /** For any target above -100%, the recommended cost is finite and has the sign of the net received. */
  lemma RecommendedCostSign(product: Listing, settings: Settings)
    requires settings.targetProfitMargin > -100.0
    ensures CalculateProductAnalysis(product, settings).recommendedCostPrice.Finite?
    ensures var b := CalculateProductAnalysis(product, settings);
      (b.recommendedCostPrice.value < 0.0 <==> b.netReceived < 0.0) &&
      (b.recommendedCostPrice.value == 0.0 <==> b.netReceived == 0.0)
  {
    var b := CalculateProductAnalysis(product, settings);
    var m := 1.0 + settings.targetProfitMargin / 100.0;
    assert m > 0.0;
    var r := b.recommendedCostPrice.value;
    assert r * m == b.netReceived;
    if r < 0.0 {
      assert r * m < 0.0;
    } else if r > 0.0 {
      assert r * m > 0.0;
    }
  }

  /** For a positive price the margin is finite, negative exactly when costs exceed the price, and below 100%
      exactly when costs are positive. */
  lemma MarginSign(product: Listing, settings: Settings)
    requires product.price > 0.0
    ensures var b := CalculateProductAnalysis(product, settings);
      b.currentProfitMargin.Finite? &&
      (b.currentProfitMargin.value < 0.0 <==> b.totalCosts > product.price) &&
      (b.currentProfitMargin.value < 100.0 <==> b.totalCosts > 0.0)
  {
    var b := CalculateProductAnalysis(product, settings);
    QuotientBounds(b.netReceived, product.price);
  }

  /** The breakdown depends on the listing only through its price. */
  lemma OnlyPriceMatters(p1: Listing, p2: Listing, settings: Settings)
    requires p1.price == p2.price
    ensures CalculateProductAnalysis(p1, settings) == CalculateProductAnalysis(p2, settings)
  {
  }

  /** `getCompetitionInfo`: the `price_to_win` data, or `null` when the request fails for any reason. */
  function GetCompetitionInfo<T>(response: Fetch<T>): (r: Option<T>)
    ensures r.None? <==> response.Failed?
    ensures r.Some? ==> r.value == response.data
  {
    match response
    case Fetched(data) => Some(data)
    case Failed => None
  }

  /** `searchProducts`: the results, or an empty list when the body is empty or the request fails. */
  function SearchProducts(response: Fetch<Option<seq<Listing>>>): (r: seq<Listing>)
    ensures response.Failed? ==> r == []
    ensures response.Fetched? && response.data.Some? ==> r == response.data.value
    ensures response.Fetched? && response.data.None? ==> r == []
  {
    match response
    case Fetched(Some(results)) => results
    case _ => []
  }
}
