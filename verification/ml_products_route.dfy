/**
 * The products route of app/api/ml/products/route.ts: one upstream search,
 * then an inline copy of the tiered cost model with its own bands, mapped
 * over every result.
 */
module MlProductsRoute {
  import opened Numeric
  import opened Text
  import opened Types
  import opened TieredCost
  import Seqs

  /** Every listing type containing `gold` pays 17%; the rest pay 12%. */
  function InlineCommissionPercent(listingTypeId: string): (pct: real)
    ensures pct == 17.0 <==> Contains(listingTypeId, "gold")
    ensures pct == 12.0 <==> !Contains(listingTypeId, "gold")
  {
    if Contains(listingTypeId, "gold") then 17.0 else 12.0
  }

  /** 5% of the price up to 79 (never reaching the 6.75 cap there), 6.75 above; no half-price band. */
  function InlineFixedFee(price: real): (fee: real)
    ensures price <= 79.0 ==> fee == price / 20.0 && fee < 6.75
    ensures price > 79.0 ==> fee == 6.75
    ensures price > 0.0 ==> 0.0 < fee <= 6.75
  {
    if price <= 79.0 then Min(6.75, price * 0.05) else 6.75
  }

  /** With free shipping: 8 up to 50, 12 up to 100, 15 above; otherwise 0. Never more than 15. */
  function InlineShipping(price: real, freeShipping: bool): (s: real)
    ensures !freeShipping ==> s == 0.0
    ensures freeShipping && price <= 50.0 ==> s == 8.0
    ensures freeShipping && 50.0 < price <= 100.0 ==> s == 12.0
    ensures freeShipping && 100.0 < price ==> s == 15.0
    ensures 0.0 <= s <= 15.0
  {
    if freeShipping then (if price <= 50.0 then 8.0 else if price <= 100.0 then 12.0 else 15.0) else 0.0
  }

  /** The per-product mapping inside `GET`. */
  function AnalyzeListing(product: Listing): (a: CostAnalysis)
    ensures a.product == product && a.salePrice == product.price
    ensures a.commission * 100.0 == product.price * InlineCommissionPercent(product.listingTypeId)
    ensures a.fixedFee == InlineFixedFee(product.price)
    ensures a.shippingCost == InlineShipping(product.price, product.freeShipping)
    ensures a.totalCosts == a.commission + a.fixedFee + a.shippingCost
    ensures a.netRevenue + a.totalCosts == a.salePrice
    ensures a.recommendedCostPrice == a.netRevenue * 0.7
    ensures a.netRevenue <= 0.0 ==> a.profitMargin == 0.0
    ensures a.netRevenue > 0.0 ==> a.profitMargin * a.salePrice == 30.0 * a.netRevenue
  {
    Assemble(
      product,
      InlineCommissionPercent(product.listingTypeId),
      InlineFixedFee(product.price),
      InlineShipping(product.price, product.freeShipping))
  }

  /** As in the tiered model, the inline margin is never negative and stays below 30% for every positive price. */
  lemma InlineMarginBelowThirty(product: Listing)
    ensures AnalyzeListing(product).profitMargin >= 0.0
    ensures product.price > 0.0 ==> AnalyzeListing(product).profitMargin < 30.0
  {
    var a := AnalyzeListing(product);
    if product.price <= 0.0 {
      assert a.commission >= product.price * 17.0 / 100.0;
      assert a.netRevenue <= 0.0;
    } else {
      assert a.commission > 0.0;
      MarginBelowThirty(a);
    }
  }

  /** Every listing the tiered model treats as premium is premium here too, since both markers contain `gold`. */
  lemma TieredPremiumIsInlinePremium(listingTypeId: string)
    requires IsPremium(listingTypeId)
    ensures InlineCommissionPercent(listingTypeId) == 17.0
  {
    ContainsIff(listingTypeId, "gold");
    if Contains(listingTypeId, "gold_pro") {
      ContainsIff(listingTypeId, "gold_pro");
      var i :| OccursAt(listingTypeId, "gold_pro", i);
      assert listingTypeId[i..i + 4] == listingTypeId[i..i + 8][..4];
      assert OccursAt(listingTypeId, "gold", i);
    } else {
      ContainsIff(listingTypeId, "gold_special");
      var i :| OccursAt(listingTypeId, "gold_special", i);
      assert listingTypeId[i..i + 4] == listingTypeId[i..i + 12][..4];
      assert OccursAt(listingTypeId, "gold", i);
    }
  }

  /** The two copies disagree: a plain `gold` listing pays 17% here but 12% in the tiered model. */
  lemma CopiesDisagreeOnPlainGold()
    ensures InlineCommissionPercent("gold") == 17.0
    ensures CalculateMLCommission(100.0, "gold").commissionPercent == 12.0
  {
    ContainsTrivial("gold");
    ContainsIff("gold", "gold_pro");
    ContainsIff("gold", "gold_special");
  }

  /** The upstream search outcome: a non-OK status, the result list, or a thrown error. */
  datatype Upstream = NotOk | Ok(results: seq<Listing>) | Threw

  datatype ProductsResponse = Success(data: seq<CostAnalysis>) | Failure(status: int, error: string)

  /**
   * `GET`: one analysis per upstream result, in the same order; a non-OK
   * response or any exception gives a 500 failure with no partial data.
   */
  function Get(upstream: Upstream): (r: ProductsResponse)
    ensures upstream.Ok? <==> r.Success?
    ensures r.Success? ==> |r.data| == |upstream.results|
    ensures r.Success? ==> forall i :: 0 <= i < |r.data| ==>
      r.data[i].product == upstream.results[i] && r.data[i] == AnalyzeListing(upstream.results[i])
    ensures r.Failure? ==> r.status == 500
  {
    match upstream
    case Ok(results) => Success(Seqs.Map(results, AnalyzeListing))
    case _ => Failure(500, "Erro ao buscar produtos")
  }
}
