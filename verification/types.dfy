/**
 * The records the dashboard passes around. A listing field the marketplace
 * omits is modelled by its zero value (`""`, `0`, `false`).
 */
module Types {

  /** A marketplace listing, as returned by the item and search endpoints. */
  datatype Listing = Listing(
    id: string,
    title: string,
    price: real,
    soldQuantity: int,
    categoryId: string,
    listingTypeId: string,
    freeShipping: bool)

  /** The percentage-configured cost model's parameters (percent values, plus a fixed amount). */
  datatype Settings = Settings(
    targetProfitMargin: real,
    shippingCostPercentage: real,
    marketplaceFeePercentage: real,
    advertisingCostPercentage: real,
    additionalCosts: real)

  datatype CompetitionSummary = CompetitionSummary(totalListings: real, averagePrice: real, lowestPrice: real)

  /** A stored analysis as the pages read it back from the store (margins in percent). */
  datatype ProductAnalysis = ProductAnalysis(
    id: string,
    productId: string,
    title: string,
    currentPrice: real,
    soldQuantity: int,
    catalogPrice: real,
    shippingCost: real,
    marketplaceFee: real,
    advertisingCost: real,
    totalCosts: real,
    netReceived: real,
    recommendedCostPrice: real,
    profitMargin: real,
    isWinning: bool,
    competition: CompetitionSummary)

  /**
   * A stored analysis of the browser-side service, as the dashboard and the
   * analysis list read it back (fractions, not percentages; finite values).
   */
  datatype SavedAnalysis = SavedAnalysis(
    id: string,
    product: Listing,
    netRevenue: real,
    suggestedMaxCost: real,
    profitMargin: real,
    targetProfitMargin: real)
}
