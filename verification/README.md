# Marketplace profit dashboard — a Dafny model of its calculations

The dashboard analyses Mercado Livre listings. It estimates what a sale costs
the seller (commission, fixed fee, shipping, ads), what is left, what the
seller could pay for the item and still reach a target margin, and whether the
listing is "winning" against its competition. It stores analyses and settings
in Firestore and shows statistics, histograms and filtered lists of them.

This project models the pure computations underneath that, with exact `real`
arithmetic over immutable records and sequences:

- the four cost calculators, kept separate because they really differ:
  - the percentage-configured model (`MercadoLivreApi`);
  - the tiered commission/fee/shipping model (`TieredCost`);
  - its inline copy in the products route (`MlProductsRoute`);
  - the fraction-based model with `||` defaults (`MlService`);
- the analysis `POST` pipeline as a function of its collaborators' outcomes (`AnalysisRoute`);
- the store-side logic: settings defaults and save, dashboard aggregation, search (`FirebaseService`, `Database`);
- the settings validator and settings page (`SettingsRoute`, `SettingsPage`);
- the statistics, histograms and top-k lists of the UI (`Dashboard`, `Reports`, `AnalysisStats`);
- the classifiers and filters (`AnalysisList`, `ProductsPage`);
- the URL parser (`ProductId`);
- two small state machines: the search history (`SearchHistory`) and the products hook (`UseProducts`).

Shared pieces:
- `Numeric` models JavaScript's division by zero (`Infinity`, `-Infinity`, `NaN`) and the `x || d` idiom.
- `Text` models `trim`, ASCII `toLowerCase`, `includes` and decimal rendering.
- `Seqs` models `filter`, counting, `reduce` sums and means, a stable descending sort with `slice(0, k)`, and first-seen-order tallies.

Collaborators (HTTP, Firestore, `Math.random`, `Date.now`, `confirm`) are
parameters: each call is an outcome value, such as `Fetch`, `Outcome`, `Draws` or `SaveOutcome`.

## Model

| member | source | states |
|---|---|---|
| MercadoLivreApi.CalculateProductAnalysis | lib/mercadolivre-api.ts:115-152 | Each percentage cost is that share of the price. The total adds the fixed costs. Net is price minus costs and is never clamped, so it is negative exactly when costs exceed the price. The recommended cost times `1 + target/100` gives back the net. Its margin times the price is 100 × net. Either quotient is non-finite exactly when its divisor is 0. The computation itself is `AtPrice`, applied to the listing's price. |
| MercadoLivreApi.RecommendedCostSign | lib/mercadolivre-api.ts:137 | For any target above -100% the recommended cost is finite and has the sign of the net received. |
| MercadoLivreApi.MarginSign | lib/mercadolivre-api.ts:140 | For a positive price the margin is finite. It is negative iff the costs exceed the price, and below 100 iff the costs are positive. |
| MercadoLivreApi.OnlyPriceMatters | lib/mercadolivre-api.ts:125-151 | Two listings with the same price get the same breakdown. |
| MercadoLivreApi.GetCompetitionInfo | lib/mercadolivre-api.ts:89-100 | Never fails: the data, or null exactly when the request failed. |
| MercadoLivreApi.SearchProducts | lib/mercadolivre-api.ts:31-73 | Never fails: the results, or an empty list when the body is empty or the request fails. |
| TieredCost.CalculateMLCommission | lib/mercado-livre.ts:46-70 | 17% iff the type contains `gold_pro` or `gold_special`, else 12%. The fee is half the price up to 12.50, 5% up to 79 (the 6.75 cap never binds there), and 6.75 above. It lies in [0, 6.75] for prices ≥ 0 and is positive for prices > 0. |
| TieredCost.FixedFeeDropsAfterFirstBand | lib/mercado-livre.ts:60-66 | The fee is not monotone: 6.25 at a price of 12.50, 0.65 at 13. |
| TieredCost.EstimateShippingCost | lib/mercado-livre.ts:72-82 | 0 without free shipping. Otherwise 8/12/15/20/25 with inclusive upper bounds 50/100/200/500, always within [8, 25]. |
| TieredCost.ShippingMonotone | lib/mercado-livre.ts:76-80 | With free shipping a higher price never gets cheaper shipping. |
| TieredCost.Assemble | lib/mercado-livre.ts:89-107 | The commission is an amount, price × pct / 100. Total = commission + fee + shipping, and net = price − total. Recommended cost = 0.7 × net, also when net is negative. Margin is 0 when net ≤ 0, else margin × price = 30 × net. |
| TieredCost.AnalyzeCosts | lib/mercado-livre.ts:84-108 | `analyzeCosts` ties these figures to the commission, fee and shipping tiers of the listing. |
| TieredCost.MarginBelowThirty | lib/mercado-livre.ts:95 | A margin computed as 30 × net / price over a positive price is in [0, 30) when net < price. |
| TieredCost.PositiveNetNeedsPositivePrice | lib/mercado-livre.ts:85-91 | A positive net revenue implies a positive price. |
| TieredCost.TieredMarginBelowThirty | lib/mercado-livre.ts:60-66 | The tiered margin is never negative and is below 30% for every positive price. |
| MlProductsRoute.InlineCommissionPercent | app/api/ml/products/route.ts:46 | 17% iff the listing type contains `gold` (any gold type), else 12%. |
| MlProductsRoute.InlineFixedFee | app/api/ml/products/route.ts:48 | 5% of the price up to 79, always below the 6.75 cap there, and 6.75 above. There is no half-price band. |
| MlProductsRoute.InlineShipping | app/api/ml/products/route.ts:49-50 | 0 without free shipping, else 8/12/15 with bounds 50/100, never more than 15. |
| MlProductsRoute.AnalyzeListing | app/api/ml/products/route.ts:44-68 | The inline per-product record: the tiered-model identities with the inline tiers. |
| MlProductsRoute.InlineMarginBelowThirty | app/api/ml/products/route.ts:48-55 | The inline margin is never negative and is below 30% for every positive price. |
| MlProductsRoute.TieredPremiumIsInlinePremium | app/api/ml/products/route.ts:46 | Every type the tiered model calls premium pays 17% here as well. |
| MlProductsRoute.CopiesDisagreeOnPlainGold | app/api/ml/products/route.ts:46 | A plain `gold` listing pays 17% here and 12% in the tiered model. |
| MlProductsRoute.Get | app/api/ml/products/route.ts:20-79 | Success iff the upstream answered OK. Success holds one analysis per result, in order. A non-OK answer or an exception gives a 500 failure with no data. |
| MlService.ClampAtZero | src/services/mercadoLivre.ts:193 | `Math.max(0, x)`: finite values clamp at 0, minus infinity becomes 0, infinity stays, NaN propagates. |
| MlService.MarginIdentity | src/services/mercadoLivre.ts:184 | Removing `net / d` from a non-zero net leaves the fraction `(d − 1) / d`. |
| MlService.CalculateCosts | src/services/mercadoLivre.ts:171-197 | Each value falls back to its default when absent or 0: fee 0.12, shipping 15 with free shipping else 0, ads 5% of price, target 0.30. Fees, total and net are as computed. The suggested cost is never negative, and equals max(0, net / (1 + target)) when `1 + target ≠ 0`. Price and effective target are echoed. |
| MlService.MarginIsTargetShare | src/services/mercadoLivre.ts:183-184 | The margin is target / (1 + target) whenever the unclamped suggested cost is positive, and 0 otherwise. It does not depend on the price. |
| MlService.DefaultMarginIsThreeThirteenths | src/services/mercadoLivre.ts:176-184 | With no configuration and a positive net the margin is exactly 3/13. |
| MlService.DegenerateTarget | src/services/mercadoLivre.ts:183-184 | With target −1 the quotients become non-finite: ±∞ or NaN, depending on the sign of net. |
| MlService.ExplicitZeroIsDefault | src/services/mercadoLivre.ts:173-176 | An explicit 0 in every field behaves exactly as an empty configuration. |
| MlService.AnalyzeProduct | src/services/mercadoLivre.ts:200-209 | The record carries the product's id and `calculateCosts` of the product. |
| MlService.MockProducts | src/services/mercadoLivre.ts:76-167 | Exactly 5 items with distinct ids, each titled `<query or "Produto"> - …`, each a free-shipping best seller. |
| MlService.SearchBestSellers | src/services/mercadoLivre.ts:27-52 | Exactly the results with more than 10 sold and a positive price, in order, as many as there are such results, repeats included. A failure gives the mock list. |
| MlService.SearchProducts | src/services/mercadoLivre.ts:55-73 | The results unchanged, or on failure the mock list titled with the query. |
| MlService.FallbacksAgree | src/services/mercadoLivre.ts:48-51 | A failed search with an empty query gives the same list as a failed best-seller search. |
| AnalysisRoute.FindById | app/api/analysis/route.ts:31-32 | `find` by exact id: none iff no listing has the id, else the first listing that does. |
| AnalysisRoute.IsWinning | app/api/analysis/route.ts:96 | Null competition means winning. With a truthy price to win, winning iff price ≤ price to win, whatever the status. A `"winning"` status decides nothing by itself: it wins iff a price to win is present and the price is at most it, and `"winning"` without a truthy price to win means losing. |
| AnalysisRoute.WinningStatusZeroPriceToWin | app/api/analysis/route.ts:96 | With status `"winning"` and a price to win of 0, the listing wins iff its price is at most 0. Any other status with the same price to win is always winning. |
| AnalysisRoute.Summary | app/api/analysis/route.ts:97-101 | Listings fall back to 0, and the average and lowest prices to the product price, when the info is null or the field is missing or 0. |
| AnalysisRoute.Draft | app/api/analysis/route.ts:79-102 | Id and title are copied. The price is both current and catalogue price. Costs come from `calculateProductAnalysis`. The margin is its current margin, plus the winning flag and the competition summary. |
| AnalysisRoute.Post | app/api/analysis/route.ts:6-132 | A missing or empty id gives 400. A fetched product, or else the demo product with that id, always gives an analysis whose draft is built from that product, the competition (or the estimate when it throws) and the settings (or {30, 8, 12, 5, 10} when they throw). A failed fetch with no demo match gives 404, and any throw gives 500. A save success uses the stored id; a save failure gives a "temp-" id with a warning. |
| AnalysisRoute.DrawRange | app/api/analysis/route.ts:54-56 | `price × (base + r × width)` for r in [0, 1) lies in [base, base + width) × price. |
| AnalysisRoute.EstimateRanges | app/api/analysis/route.ts:51-58 | The estimate has 10–59 listings and average, lowest and price-to-win prices in [0.9, 1.1), [0.8, 0.9) and [0.85, 0.95) of the price. Its status is "losing" for every non-negative price. These are the fields of `Estimate`. |
| AnalysisRoute.EstimateNeverWins | app/api/analysis/route.ts:51-58 | Estimated competition always reports a positive-priced product as losing. |
| AnalysisRoute.ValidationComesFirst | app/api/analysis/route.ts:8-15 | A missing id gives the same 400 whatever every collaborator would do. |
| AnalysisRoute.SaveFailureKeepsAnalysis | app/api/analysis/route.ts:104-123 | A failed save returns the same analysis as a successful one, under "temp-<timestamp>" with a warning. |
| FirebaseService.GetAnalysisSettings | lib/firebase-service.ts:122-150 | The stored document when present. Otherwise, when missing or on any error, the defaults {30, 10, 12, 5, 0}. |
| FirebaseService.ReadSettings | lib/firebase-service.ts:124-129 | Reads the fixed document id `analysis_settings`. |
| FirebaseService.SaveAnalysisSettingsAsWritten | lib/firebase-service.ts:104-120 | Updates the fixed document. If that fails, it adds the settings under a fresh generated id. It throws only when both fail. |
| FirebaseService.SavedSettingsAreLost | lib/firebase-service.ts:104-129 | On a store without the document, a successful save is read back as the defaults. |
| FirebaseService.SaveAnalysisSettings | lib/firebase-service.ts:104-120 | The corrected save writes the fixed document and keeps every other document. |
| FirebaseService.SettingsRoundTrip | lib/firebase-service.ts:122-129 | After the corrected save, the next read returns exactly what was saved. |
| FirebaseService.GetProductAnalyses | lib/firebase-service.ts:64-82 | The newest `limit` analyses: a prefix of the newest-first store. |
| FirebaseService.GetDashboardStats | lib/firebase-service.ts:153-201 | Over the newest 1000 analyses: the count is their number. Revenue is the summed net and the margin is the mean (0 when empty). Categories are empty, or the single "general" entry with the count and mean price. Failure gives all zeros. |
| FirebaseService.DashboardMeanWithinRange | lib/firebase-service.ts:158 | The mean margin lies within the range of the stored margins. |
| FirebaseService.SearchProductAnalyses | lib/firebase-service.ts:204-218 | Over the newest 1000 analyses; a failed read fails the search. An empty term returns the list unchanged. Otherwise it keeps, in order, exactly those whose lowercased title contains the lowercased term or whose product id contains the term case-sensitively, as many as match, repeats included. |
| FirebaseService.ExactIdIsFound | lib/firebase-service.ts:213 | An analysis whose product id equals the term is always found. |
| FirebaseService.SearchIdempotent | lib/firebase-service.ts:210-213 | Searching the results again with the same term changes nothing. |
| SettingsRoute.AsSettings | app/api/settings/route.ts:22 | A submitted object stands for well-formed settings, field for field, iff its target converts to a number other than NaN. |
| SettingsRoute.Post | app/api/settings/route.ts:20-43 | A target whose numeric conversion lies outside [0, 100] gives 400 and the save is never attempted. Numeric strings such as "150" count, and `null` counts as 0. Any other object is saved as given, including one whose target is absent or converts to NaN. The response is success iff the check passes and the save did not throw. An unparsable body gives 500. |
| SettingsRoute.BoundsInclusiveCostsUnchecked | app/api/settings/route.ts:25-35 | 0 and 100 are accepted. No other field is checked. |
| SettingsRoute.MissingTargetSaved | app/api/settings/route.ts:25-35 | A body whose target is absent or converts to NaN is saved as it is, and stands for no well-formed settings. |
| SettingsRoute.SavedTargetInRange | app/api/settings/route.ts:25-35 | A saved object with a numeric target has that target in [0, 100]. |
| SettingsRoute.RejectionIgnoresStore | app/api/settings/route.ts:25-30 | An out-of-range target gives 400 whatever the store would do. |
| SettingsPage.Initial | app/settings/page.tsx:14-20 | The initial settings are the store's defaults {30, 10, 12, 5, 0}. |
| SettingsPage.HandleReset | app/settings/page.tsx:69-78 | Reset returns the initial state with no message. |
| SettingsPage.UpdateSetting | app/settings/page.tsx:80-83 | The named field takes the value, every other field keeps its own, and the message is cleared. |
| SettingsPage.SettingsExtensional | app/settings/page.tsx:80-83 | Settings agreeing on every key are equal. |
| SettingsPage.UpdateWithSameValue | app/settings/page.tsx:80-83 | Writing back a field's current value leaves the settings unchanged. |
| SettingsPage.FetchSettings | app/settings/page.tsx:29-41 | An OK response replaces the settings, and anything else changes nothing. |
| SettingsPage.HandleSave | app/settings/page.tsx:43-67 | The settings are kept either way. The message is a success iff the response was OK. |
| SettingsPage.ShowPreview | app/settings/page.tsx:243-264 | Each cost line at R$ 100 equals its percentage. The net is 100 minus the lines and the fixed costs. |
| SettingsPage.PreviewMatchesAnalysis | app/settings/page.tsx:260-264 | The preview's net and max cost equal `calculateProductAnalysis` at price 100. |
| Database.GetAnalyses | src/services/database.ts:36-58 | The newest `limit` analyses, or none when the read fails. |
| Database.TopCategories | src/services/database.ts:112-121 | At most 5 entries, no category twice, in non-increasing count order. Each count is the exact number of analyses with that category. No unlisted category outnumbers a listed one. Fewer than 5 only when every category is listed. |
| Database.GetStats | src/services/database.ts:99-136 | Total is the number fetched, at most 1000. The average is the mean margin, 0 when empty. Top categories as above. A failure gives {0, 0, []}. |
| Dashboard.DisplayName | src/components/Dashboard.tsx:96 | Names over 15 characters become their first 15 characters plus "...". |
| Dashboard.Bucket | src/components/Dashboard.tsx:110-118 | The count of margins in [min, max). The percentage × total = count × 100. |
| Dashboard.Slices | src/components/Dashboard.tsx:95-99 | Entry i shows the shortened name, the count and `COLORS[i mod 6]`. |
| Dashboard.CategoryDistribution | src/components/Dashboard.tsx:85-99 | Slice i is entry i of the top-6 category tally, an empty category counted as "Outros": its shortened name and exact count, in non-increasing order, with cycling colours. Fewer than 6 slices only when every analysis's category is shown. |
| Dashboard.SlicesNameCountedKeys | src/components/Dashboard.tsx:92-99 | A slice built from a ranked tally entry names a key that occurs, with its exact count. |
| Dashboard.CalculateStats | src/components/Dashboard.tsx:58-130 | Empty input gives all-zero stats. Otherwise the count and the means of margin and suggested cost, the summed net, the number with margin ≥ 0.30, the pie, and the five buckets. |
| Dashboard.BucketsCoverUnitInterval | src/components/Dashboard.tsx:102-119 | The bucket counts add up to the number of margins in [0, 1), so at most the total. |
| Dashboard.OutsideEveryBucket | src/components/Dashboard.tsx:102-119 | A margin below 0 or at least 1 is in no bucket. |
| Dashboard.ProfitableBuckets | src/components/Dashboard.tsx:80 | A profitable margin below 1 lies in one of the two top buckets and in none of the others. |
| Reports.MarginRange | app/reports/page.tsx:69-77 | Each margin gets exactly one of five labels: ≥30, [20,30), [10,20), [0,10), negative. |
| Reports.PriceRange | app/reports/page.tsx:85-94 | Each price gets exactly one of six labels, with thresholds 1000/500/200/100/50. |
| Reports.Histogram | app/reports/page.tsx:69-94 | One entry per label that occurs, keys distinct, each count the exact number of products with that label, and the counts add up to the number of products. |
| Reports.Share | app/reports/page.tsx:82 | The percentage of a count out of a positive total lies in [0, 100]. |
| Reports.Chart | app/reports/page.tsx:79-83 | One entry per histogram entry, with its label, count and share of the total. |
| Reports.MarginChartData | app/reports/page.tsx:79-83 | The margin chart: each histogram entry with percentage × number of products = count × 100. |
| Reports.PriceChartData | app/reports/page.tsx:96-100 | The price chart: distinct bands with exact counts adding up to the number of products. |
| Reports.PercentagesAddUpToHundred | app/reports/page.tsx:79-83 | For a non-empty list the chart's percentages add up to exactly 100. |
| Reports.Summarize | app/reports/page.tsx:114-119 | Winning + losing = the number of products. The average margin is the mean, 0 when empty. Revenue is the summed net. |
| Reports.TopByMargin | app/reports/page.tsx:397-399 | Exactly 10 products, or all of them when there are fewer, drawn from the list, in non-increasing margin order. None left out has a higher margin. |
| Reports.ProfitMarginColor | app/reports/page.tsx:429-433 | Green iff ≥ 30, yellow iff in [15, 30), red iff < 15. |
| Reports.ColorMonotone | app/reports/page.tsx:429-433 | A higher margin never gets a worse colour. |
| Reports.GreenIsTopBucket | app/reports/page.tsx:429-433 | Green products are exactly those in the "30%+" bucket of the margin chart (lines 69-77). |
| AnalysisStats.CountMarginRanges | components/analysis-stats.tsx:33-45 | Each of the four counts is the number in its band (<15, [15,30), [30,50), ≥50). The counts add up to the number of analyses. |
| AnalysisStats.AdTypes | components/analysis-stats.tsx:48-59 | Premium is the number whose type contains "gold" and Clássico the rest. Together they make up the whole list. |
| AnalysisStats.TieredPremiumShownPremium | components/analysis-stats.tsx:54 | A listing premium in the tiered model is shown as premium. |
| AnalysisStats.Summarize | components/analysis-stats.tsx:13-64 | None exactly for the empty list. Otherwise the mean margin, the mean net, and the count with margin ≥ 30. |
| AnalysisStats.ProfitableIsUpperBands | components/analysis-stats.tsx:41-64 | The profitable count equals the two upper bars together. |
| AnalysisStats.NoneProfitableAtPositivePrices | components/analysis-stats.tsx:64 | For tiered analyses of positive prices the profitable count and the two upper bars are always 0. |
| AnalysisStats.TopThree | components/analysis-stats.tsx:157-159 | Exactly 3, or all of them when there are fewer, drawn from the list, in non-increasing margin order. None left out has a higher margin. |
| AnalysisList.Classify | src/components/AnalysisList.tsx:52-80 | For a finite margin exactly one tier holds: ≥0.30, [0.20,0.30), [0.10,0.20) or <0.10. Infinity is excellent, and NaN and −∞ are poor. `Status` classifies the badge margin and `MarginColor` the stored margin with it. |
| AnalysisList.ClassifyMonotone | src/components/AnalysisList.tsx:52-80 | A larger margin never gets a lower tier. |
| AnalysisList.StatusMargin | src/components/AnalysisList.tsx:50 | `(net − suggested) / net` with JavaScript's division, including by 0 and of infinities. |
| AnalysisList.ZeroNetIsPoor | src/components/AnalysisList.tsx:50-80 | A zero net makes the status margin NaN or −∞, so the badge is "poor". |
| AnalysisList.BadgeMatchesColor | src/components/AnalysisList.tsx:50-80 | For a positive net and a target above −100%, the badge margin is the stored margin, so the badge agrees with the margin colour of lines 197-202. |
| AnalysisList.DefaultTargetReadsGood | src/components/AnalysisList.tsx:60-66 | With no configuration a profitable listing reads "good", never "excellent", in the badge and in the margin colour of lines 197-202, although the target is 30%. |
| ProductsPage.FilterAndSearch | app/products/page.tsx:52-71 | An order-preserving subsequence holding exactly the products that pass the status filter and the text filter, as many as pass, repeats included. A whitespace-only term filters nothing; otherwise the lowercased title or id must contain the lowercased untrimmed term. With "all" and a blank term, everything. |
| ProductsPage.TextAfterStatus | app/products/page.tsx:56-67 | The two filters in sequence keep an order-preserving selection. |
| ProductsPage.SearchCount | app/products/page.tsx:56-67 | The two filters in sequence keep as many products as pass both at once. |
| ProductsPage.WinningAndLosingPartition | app/products/page.tsx:56-60 | With a blank term, "winning" and "losing" split the list: sizes add up and each product is in exactly one. |
| ProductsPage.StatusNarrows | app/products/page.tsx:56-60 | A status filter never admits a product that "all" would not. |
| ProductsPage.DeleteProduct | app/products/page.tsx:73-89 | Only a confirmed request answered OK removes anything. It removes exactly the entries with that id, keeping the order of the rest. |
| ProductId.FirstWhere | app/analysis/page.tsx:38-41 | The leftmost position where a pattern matches, or none at all. |
| ProductId.IdRun | app/analysis/page.tsx:33-35 | The greedy `[A-Z0-9-]+` run: all ID characters and maximal. |
| ProductId.Capture | app/analysis/page.tsx:33-35 | The captured group is the slice at the start position that holds only ID characters and stops at the end or before a non-ID character. |
| ProductId.IdRunExact | app/analysis/page.tsx:33-35 | A run of ID characters ended by the end of the input or a non-ID character is exactly the greedy run. |
| ProductId.MatchLiteral | app/analysis/page.tsx:33-35 | `lit([A-Z0-9-]+)`: the maximal ID run right after the leftmost occurrence of the literal that an ID character follows, or none exactly when there is no such occurrence. |
| ProductId.LeftmostCapture | app/analysis/page.tsx:33-35 | The match is decided by the leftmost occurrence of the literal followed by an ID character. |
| ProductId.AnchoredAt | app/analysis/page.tsx:33-35 | An ID placed right after the leftmost literal match, ending at the end or before a non-ID character, is exactly the capture. |
| ProductId.LiteralAnchored | app/analysis/page.tsx:33-35 | `<prefix><lit><ID><rest>`, with `rest` empty or starting with a non-ID character and no earlier match in the prefix, captures exactly the ID. |
| ProductId.PathAnchored | app/analysis/page.tsx:33 | A product-page URL `<prefix>/p/<ID><rest>` with no earlier `/p/` match yields exactly the ID. |
| ProductId.MatchEnd | app/analysis/page.tsx:34 | `/([A-Z0-9-]+)$`: the whole tail after a slash, non-empty and all ID characters, or none exactly when no slash is followed by an all-ID tail up to the end. |
| ProductId.MatchWhole | app/analysis/page.tsx:44-46 | The trimmed input iff it is non-empty and all ID characters. |
| ProductId.ExtractProductId | app/analysis/page.tsx:30-49 | The patterns in order, the first match winning. A result is never empty and holds only ID characters. Null exactly when nothing matches. |
| ProductId.NoSlashNoLiteral | app/analysis/page.tsx:33-35 | An input without a slash matches neither the `/p/` nor the `item/` pattern. |
| ProductId.TrimmedIdHasNoSlash | app/analysis/page.tsx:44 | An input whose trim is all ID characters contains no slash anywhere. |
| ProductId.BareIdIsTrimmed | app/analysis/page.tsx:44-46 | An input whose trim is an ID comes back as that trim. |
| ProductId.EndAnchored | app/analysis/page.tsx:34 | `<prefix>/<ID>` without a `/p/` match yields exactly the ID. |
| ProductId.TrailingBlankDefeatsEnd | app/analysis/page.tsx:34 | Trailing whitespace defeats the end-anchored pattern. |
| ProductId.HandleAnalyze | app/analysis/page.tsx:51-61 | Blank input is rejected before extraction. No match is rejected with the invalid-URL message. Otherwise the extracted ID is requested. |
| SearchHistory.Save | src/components/ProductSearch.tsx:42-46 | The term is first and occurs once. The length is 1 plus the number of other terms, capped at 5. The rest is a prefix of the old history without the term, in order, so nothing else is dropped while fewer than 5 others remain. |
| SearchHistory.SaveIdempotent | src/components/ProductSearch.tsx:43 | Saving the same term twice in a row equals saving it once. |
| SearchHistory.SaveKeepsDistinct | src/components/ProductSearch.tsx:43 | A history without repeats stays without repeats. |
| SearchHistory.HandleSearch | src/components/ProductSearch.tsx:48-54 | A blank query does nothing. Otherwise the trimmed query is searched and saved at the head. |
| SearchHistory.PaddingDoesNotDuplicate | src/components/ProductSearch.tsx:50-52 | Queries with the same trim lead to a single history entry. |
| SearchHistory.Clear | src/components/ProductSearch.tsx:60-63 | The history becomes empty. |
| UseProducts.ErrorText | src/hooks/useProducts.ts:36 | The error shown is the thrown Error's message, or the operation's fixed fallback text when the throw carries none. |
| UseProducts.SearchProducts | src/hooks/useProducts.ts:26-41 | A blank query is a no-op. Otherwise the products become the results, or empty with an error when the search throws. |
| UseProducts.SearchBestSellers | src/hooks/useProducts.ts:43-56 | The products become the results, or empty with an error. The analyses are untouched. |
| UseProducts.AnalyzeProduct | src/hooks/useProducts.ts:58-70 | A successful save puts the new analysis in front and leaves the rest unchanged. A failed one leaves the analyses unchanged and sets the error. |
| UseProducts.FirstFailure | src/hooks/useProducts.ts:81-85 | The first save that throws, if any. |
| UseProducts.AnalyzeAllProducts | src/hooks/useProducts.ts:72-93 | No products is a no-op. If all saves succeed, the new analyses in product order go ahead of the old ones. At the first failing save, the earlier ones stay persisted, nothing is added locally, and the error is set. |
| UseProducts.LoadSavedAnalyses | src/hooks/useProducts.ts:95-106 | The stored list replaces the local one, or the error is set. |
| UseProducts.DeleteAnalysis | src/hooks/useProducts.ts:108-115 | A successful delete removes exactly the entries with that id, in order, so the list shrinks by their number. A failure leaves the analyses unchanged and sets the error. |
| UseProducts.DeleteTwice | src/hooks/useProducts.ts:111 | Deleting an id twice equals deleting it once. |
| UseProducts.AnalyzeThenDelete | src/hooks/useProducts.ts:58-115 | After analysing a product and deleting its id, no entry with that id remains. |
| UseProducts.ClearProducts | src/hooks/useProducts.ts:117-120 | No products and no error. The analyses are untouched. |

## Left out

- Rendering, styling, charts, icons, dialogs, toasts and navigation are not modelled. They have no bearing on the numbers.
- HTTP, axios/fetch, Firestore and Next route wrappers are not modelled. Every call is an outcome parameter: `Fetch`, `Outcome`, `SaveOutcome`, `SettingsRead`, `Upstream`.
- The Firestore collection of analyses is a newest-first `seq`, and the settings collection is a map from document id to data. The extra `id` field that the fallback save writes into the document is not modelled.
- `Math.random` draws, `Date.now` timestamps, date-fns and the last-7-days series of the reports page are not modelled. Draws and timestamps are parameters.
- Floating-point rounding, `toFixed`, `toLocaleString` and `Intl.NumberFormat` are not modelled. Arithmetic is exact over `real`. Only the non-finite results of dividing by zero are modelled, in `Numeric.Extended`.
- `toLowerCase` is restricted to ASCII letters. Unicode case mapping is not modelled.
- `getDemoProducts` and `getPopularProducts` are called but not defined in lib/mercadolivre-api.ts. The demo list is an abstract outcome: a list, or a throw leading to 500.
- `getPopularCategories`, `buildUrl`, `window.location`, `encodeURIComponent` and the localStorage persistence of the search history are browser plumbing and are left out.
- `Object.entries` puts integer-like keys first in ascending order. The tallies keep first-seen order, which matches only for non-integer keys such as category ids and range labels.
- A listing field the marketplace omits is modelled by its zero value, so `sold_quantity || 0` is the identity. Competition fields are `Option<real>`, so a missing field and 0 both fall back.
- The read-side records (`ProductAnalysis`, `SavedAnalysis`) hold finite numbers. A stored non-finite margin is not modelled.
- The reports page's and the statistics panel's `sort` mutate the array they were given. The model returns a new sorted sequence and leaves the input unchanged.
- `Promise.all` concurrency in the reports page is left out.
- The GET handlers of the settings and analysis routes only forward a store read and are left out.
- `updateProductAnalysis`, `deleteProductAnalysis`, `getProductAnalysis` and the Firestore CRUD helpers are left out. Only their outcomes appear.
- `getStats` keys its category tally by `category_id` as a property name, so an analysis without a category is counted under the key "undefined". The model's listing always has a category string, so that key is not modelled.
- AnalysisRoute.IsWinning: a `price_to_win` of `null` is modelled as a missing one. Under status "winning" that means losing, while JavaScript would compare `price <= null` as `price <= 0`.
- The settings route compares the target after converting it to a number, and the model holds the converted number. A target sent as a numeric string, `null` or a boolean is stored with its original type; the model stores the number it converts to.
- The settings route reads only the target of the body. A missing or non-numeric cost field is saved as given, but the model's submitted object holds every cost as a number.
- Dashboard.DisplayName: JavaScript's `length` and `substring` count UTF-16 code units, while the model counts characters. A name with characters outside the Basic Multilingual Plane may be cut at a different place.
- With src/services/database.ts as written, `getAnalyses` catches every error and returns an empty list, so the `Threw` outcome of `UseProducts.LoadSavedAnalyses` cannot arise from it. `deleteAnalysis` rethrows any failure of `deleteDoc` as an Error with the fixed message "Falha ao deletar análise", so `UseProducts.DeleteAnalysis` only ever shows that text. Both outcomes are kept abstract, as collaborator outcomes, rather than tied to that service.
- In the analysis route, the `getCompetitionInfo` and `getAnalysisSettings` collaborators never throw, so the route's estimated-competition and default-settings fallbacks are reachable only through the abstract "throws" outcomes.

## Findings

| source | as written | input that shows it | evidently intended | confidence | as-written member | corrected member |
|---|---|---|---|---|---|---|
| lib/firebase-service.ts:104-129 | When `updateDoc` on `settings/analysis_settings` fails, which is always the case when the document does not exist yet, the settings are added with `addDoc` under a generated id. `getAnalysisSettings` only ever reads the id `analysis_settings`. | Empty settings collection: save {40, 10, 12, 5, 0}. The save succeeds, and the next read returns the defaults {30, 10, 12, 5, 0}. | Write the settings under the fixed id (create or overwrite it), so the next read returns them. | not executed | FirebaseService.SavedSettingsAreLost | FirebaseService.SettingsRoundTrip |
