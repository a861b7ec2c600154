/**
 * The tiered cost model of lib/mercado-livre.ts: a commission percentage by
 * listing type, a fixed fee by price band, a shipping estimate by price band,
 * and a flat recommendation of 70% of the net revenue (a fixed 30% target).
 */
module TieredCost {
  import opened Numeric
  import opened Text
  import opened Types

  /** The `CostAnalysis` record: `commission` is an amount, not a percentage. */
  datatype CostAnalysis = CostAnalysis(
    product: Listing,
    salePrice: real,
    commission: real,
    fixedFee: real,
    shippingCost: real,
    totalCosts: real,
    netRevenue: real,
    recommendedCostPrice: real,
    profitMargin: real)

  datatype Commission = Commission(commissionPercent: real, fixedFee: real)

  /** Premium listing types: `gold_pro` and `gold_special`. */
  predicate IsPremium(listingType: string) {
    Contains(listingType, "gold_pro") || Contains(listingType, "gold_special")
  }

  /**
   * Premium listings pay 17%, every other listing 12%. The fixed fee is half
   * the price up to 12.50, 5% of the price up to 79 (the 6.75 cap never binds
   * there, since 5% of 79 is 3.95), and 6.75 above; it lies in [0, 6.75] for
   * every non-negative price and is positive for every positive price.
   */
  function CalculateMLCommission(price: real, listingType: string): (c: Commission)
    ensures c.commissionPercent == 17.0 <==> IsPremium(listingType)
    ensures c.commissionPercent == 12.0 <==> !IsPremium(listingType)
    ensures price <= 12.5 ==> c.fixedFee == price / 2.0
    ensures 12.5 < price <= 79.0 ==> c.fixedFee == price / 20.0 && c.fixedFee < 6.75
    ensures price > 79.0 ==> c.fixedFee == 6.75
    ensures price >= 0.0 ==> 0.0 <= c.fixedFee <= 6.75
    ensures price > 0.0 ==> c.fixedFee > 0.0
  {
    var commissionPercent := if IsPremium(listingType) then 17.0 else 12.0;
    var fixedFee :=
      if price <= 12.5 then price * 0.5
      else if price <= 79.0 then Min(6.75, price * 0.05)
      else 6.75;
    Commission(commissionPercent, fixedFee)
  }

  /** The fixed fee is not monotone in the price: it drops from 6.25 to 0.65 between 12.50 and 13. */
  lemma FixedFeeDropsAfterFirstBand(listingType: string)
    ensures CalculateMLCommission(12.5, listingType).fixedFee == 6.25
    ensures CalculateMLCommission(13.0, listingType).fixedFee == 0.65
  {
  }

  /**
   * No shipping cost without free shipping; with it, 8, 12, 15, 20 or 25 for
   * prices up to 50, 100, 200, 500 (inclusive) and above.
   */
  function EstimateShippingCost(price: real, freeShipping: bool): (s: real)
    ensures !freeShipping ==> s == 0.0
    ensures freeShipping ==> 8.0 <= s <= 25.0
    ensures freeShipping && price <= 50.0 ==> s == 8.0
    ensures freeShipping && 50.0 < price <= 100.0 ==> s == 12.0
    ensures freeShipping && 100.0 < price <= 200.0 ==> s == 15.0
    ensures freeShipping && 200.0 < price <= 500.0 ==> s == 20.0
    ensures freeShipping && 500.0 < price ==> s == 25.0
  {
    if !freeShipping then 0.0
    else if price <= 50.0 then 8.0
    else if price <= 100.0 then 12.0
    else if price <= 200.0 then 15.0
    else if price <= 500.0 then 20.0
    else 25.0
  }

  /** With free shipping, a higher price never gets a cheaper shipping estimate. */
  lemma ShippingMonotone(p1: real, p2: real)
    requires p1 <= p2
    ensures EstimateShippingCost(p1, true) <= EstimateShippingCost(p2, true)
  {
  }

  /**
   * The shared tail of both tiered calculators: commission amount from a
   * percentage, costs, net, 70% recommendation and the margin left after
   * paying the recommended cost. The margin divides by the price only when
   * the net is positive, which a zero price with non-negative fees rules out.
   */
  function Assemble(product: Listing, commissionPercent: real, fixedFee: real, shippingCost: real): (a: CostAnalysis)
    requires product.price == 0.0 ==> fixedFee + shippingCost >= 0.0
    ensures a.product == product && a.salePrice == product.price
    ensures a.commission * 100.0 == product.price * commissionPercent
    ensures a.fixedFee == fixedFee && a.shippingCost == shippingCost
    ensures a.totalCosts == a.commission + a.fixedFee + a.shippingCost
    ensures a.netRevenue + a.totalCosts == a.salePrice
    ensures a.recommendedCostPrice == a.netRevenue * 0.7
    ensures a.netRevenue <= 0.0 ==> a.profitMargin == 0.0
    ensures a.netRevenue > 0.0 ==> a.salePrice != 0.0 && a.profitMargin * a.salePrice == 30.0 * a.netRevenue
  {
    var salePrice := product.price;
    var commission := (salePrice * commissionPercent) / 100.0;
    var totalCosts := commission + fixedFee + shippingCost;
    var netRevenue := salePrice - totalCosts;
    var recommendedCostPrice := netRevenue * 0.7;
    var profitMargin := if netRevenue > 0.0 then ((netRevenue - recommendedCostPrice) / salePrice) * 100.0 else 0.0;
    CostAnalysis(product, salePrice, commission, fixedFee, shippingCost, totalCosts, netRevenue, recommendedCostPrice, profitMargin)
  }

  /** `analyzeCosts`: the tiered model applied to one listing. */
  function AnalyzeCosts(product: Listing): (a: CostAnalysis)
    ensures a.product == product && a.salePrice == product.price
    ensures a.commission * 100.0 == product.price * CalculateMLCommission(product.price, product.listingTypeId).commissionPercent
    ensures a.fixedFee == CalculateMLCommission(product.price, product.listingTypeId).fixedFee
    ensures a.shippingCost == EstimateShippingCost(product.price, product.freeShipping)
    ensures a.totalCosts == a.commission + a.fixedFee + a.shippingCost
    ensures a.netRevenue + a.totalCosts == a.salePrice
    ensures a.recommendedCostPrice == a.netRevenue * 0.7
    ensures a.netRevenue <= 0.0 ==> a.profitMargin == 0.0
    ensures a.netRevenue > 0.0 ==> a.profitMargin * a.salePrice == 30.0 * a.netRevenue
  {
    var c := CalculateMLCommission(product.price, product.listingTypeId);
    Assemble(product, c.commissionPercent, c.fixedFee, EstimateShippingCost(product.price, product.freeShipping))
  }

  /** A positive margin over a positive price, computed as 30 * net / price, is below 30 exactly when net < price. */
  lemma MarginBelowThirty(a: CostAnalysis)
    requires a.salePrice > 0.0
    requires a.netRevenue > 0.0 ==> a.profitMargin * a.salePrice == 30.0 * a.netRevenue
    requires a.netRevenue <= 0.0 ==> a.profitMargin == 0.0
    requires a.netRevenue < a.salePrice
    ensures 0.0 <= a.profitMargin < 30.0
  {
    if a.netRevenue > 0.0 {
      ProportionBounds(a.profitMargin, a.salePrice, 30.0, a.netRevenue);
    }
  }

  /** A positive net revenue needs a positive price: below zero every term of the net is non-positive. */
  lemma PositiveNetNeedsPositivePrice(product: Listing)
    ensures AnalyzeCosts(product).netRevenue > 0.0 ==> product.price > 0.0
  {
    var a := AnalyzeCosts(product);
    if product.price <= 0.0 {
      var c := CalculateMLCommission(product.price, product.listingTypeId);
      assert a.fixedFee == product.price / 2.0;
      assert a.commission >= product.price * 17.0 / 100.0;
    }
  }

  /** The tiered margin is never negative and, for every positive price, always below 30%. */
  lemma TieredMarginBelowThirty(product: Listing)
    ensures AnalyzeCosts(product).profitMargin >= 0.0
    ensures product.price > 0.0 ==> AnalyzeCosts(product).profitMargin < 30.0
  {
    var a := AnalyzeCosts(product);
    PositiveNetNeedsPositivePrice(product);
    if product.price > 0.0 {
      assert a.commission > 0.0;
      MarginBelowThirty(a);
    }
  }
}
