# Galaxy SaaS delivery-restaurant profit model

A Dafny model of the profit arithmetic of a back office for delivery restaurants,
and of the small computations built on it:

- **Pricing engine and product-health assistant** (`Calculations`, from
  `lib/calculations.ts`): platform fee, net profit, margin (0 on zero revenue),
  the suggested-price solver with its `cost × 1.5` fallback and its rounding to
  cents, the three-way health classifier (`loss` before `low_margin` before
  `profit`), the loss per unit, the recommendation builder and the portfolio
  analyser that splits a product list into "losing money" and "low margin".
- **Order creation** (`Orders`, from `POST /api/orders`): request validation, the
  loop that snapshots each line's unit price and cost and sums gross and cost,
  the rejection of a missing product or a foreign platform, and the order's
  fee, profit, margin and initial status `"NEW"`.
- **Report summary** (`Reports`, from `GET /api/reports/summary`): the totals, the
  average margin guarded by positive revenue, and the per-day series grouped by
  date key and sorted by date.
- **Cart of the new-order page** (`Cart`): add, remove and clear as functions
  over the cart's lines, the invariant they keep (unique product ids, every
  quantity at least 1), and the live totals.
- **Assistant insights** (`Insights`): the fee choice (first active platform, or
  23%), the empty-catalogue reply, the issue count, the health score and the
  list of recommendations.

Money is `real`, so every sum and product is exact. JavaScript's
`Math.round(x)` becomes `Floor(x + 1/2)` (`Money.RoundHalfUp`) and
`Math.round(x * 100) / 100` becomes `Money.Round2`. The store is not modelled:
the products and platforms it returns are parameters (sequences, or maps keyed
by id). A created order is the record the handler hands to the store with HTTP
status 201; rejections carry their HTTP status.

Notes on what the code does:

- The portfolio analyser's `lowMargin[].margin` is `calculateMargin` of the
  product, a percentage (`lib/calculations.ts:202-205`).
- The order route's product lookup filters only by id and tenant
  (`app/api/orders/route.ts:29-31`), so inactive products are accepted.
  `Orders.CreateOrder` receives the tenant's products whatever their `active`
  flag.
- A request that fails the schema throws, and the `catch` answers with status
  500 (`app/api/orders/route.ts:26`, `118-121`).
- The healthy class is called `profit` in the code. Rounding is JavaScript's
  `Math.round`: halves go toward +infinity.
- The classifier's margin is 0 for every price <= 0
  (`lib/calculations.ts:84`). The engine's `calculateMargin` is 0 only for a zero
  gross. The two differ only for negative prices
  (`Calculations.ClassifierMarginNegativePrice`). The same split holds between
  the report's `avgMargin` and the page's margin (guarded by `> 0`) on one side
  and the engine's `Margin` on the other.
- The summary route carries a comment about leaving canceled orders out of the
  statistics, but no query excludes them (`app/api/reports/summary/route.ts:23-26`).
  The model summarises whatever orders it is given.

## Model

| member | source | states |
|---|---|---|
| `Money.RoundHalfUp` | lib/calculations.ts:56 | `Math.round(x)` is the integer n with x - 1/2 < n <= x + 1/2 |
| `Money.RoundHalfUpUnique` | lib/calculations.ts:56 | that integer is unique: any m in (x - 1/2, x + 1/2] equals `RoundHalfUp(x)` |
| `Money.Abs` | lib/calculations.ts:107 | `Math.abs` is non-negative and is x or -x |
| `Money.Round2` | lib/calculations.ts:56 | the rounded price is within half a cent of the exact one (x - 0.005 < r <= x + 0.005) and is a whole number of cents |
| `Money.Round2OfCents` | lib/calculations.ts:56 | a price already in whole cents is unchanged by rounding |
| `Money.Round2Idempotent` | lib/calculations.ts:56 | rounding to cents twice equals rounding once |
| `Calculations.PlatformFee` | lib/calculations.ts:9-11 | the platform's cut is gross × fee rate; its bounds are in `PlatformFeeBounds` |
| `Calculations.NetProfit` | lib/calculations.ts:16-22 | profit is gross minus cost minus the platform fee; `NetProfitAfterFee` gives its closed form |
| `Calculations.Margin` | lib/calculations.ts:27-30 | margin is 0 when gross is 0; otherwise margin × gross = profit × 100 |
| `Calculations.NetProfitAfterFee` | lib/calculations.ts:9-22 | profit after the platform fee is gross × (1 - fee) - cost |
| `Calculations.PlatformFeeBounds` | lib/calculations.ts:9-11 | with fee in [0, 1] and a non-negative gross, the fee lies between 0 and the gross |
| `Calculations.EngineExample` | lib/calculations.ts:9-30 | gross 100 at a 0.23 fee with cost 40 gives fee 23, profit 37, margin 37 |
| `Calculations.TargetPrice` | lib/calculations.ts:34-53 | for a positive denominator, the exact price P satisfies P × (1 - fee - target/100) = cost, and its profit after the fee is P × target / 100 |
| `Calculations.SuggestPrice` | lib/calculations.ts:36-57 | denominator <= 0 gives cost × 1.5, unrounded; otherwise the target price rounded to cents, within half a cent of it |
| `Calculations.SuggestPriceExample` | lib/calculations.ts:36-57 | cost 12, fee 0.23, target 30 suggests 25.53 |
| `Calculations.SuggestPriceFallbackExample` | lib/calculations.ts:45-51 | cost 10, fee 0.6, target 50 (denominator -0.1) falls back to 15 |
| `Calculations.IsProductLosingMoney` | lib/calculations.ts:62-70 | a product loses money when its profit after the fee is negative; `LosingMoneyMeansPriceBelowCost` gives the equivalent price condition |
| `Calculations.LosingMoneyMeansPriceBelowCost` | lib/calculations.ts:62-70 | a product loses money iff price × (1 - fee) < cost, iff the engine's net profit is negative |
| `Calculations.ClassifierMarginIsMargin` | lib/calculations.ts:84 | for a price >= 0 the classifier's margin equals `calculateMargin` of the profit |
| `Calculations.ClassifierMarginNegativePrice` | lib/calculations.ts:84 | for a negative price the classifier takes margin 0 where `calculateMargin` gives 50 |
| `Calculations.AnalyzeProductHealth` | lib/calculations.ts:76-95 | `loss` iff losing money; `low_margin` iff profit >= 0 and the classifier's margin < target; `profit` iff profit >= 0 and margin >= target |
| `Calculations.LossBeforeMargin` | lib/calculations.ts:86-88 | a zero-price product whose cost exceeds its revenue is `loss` even against a negative target its 0 margin meets |
| `Calculations.HealthExamples` | lib/calculations.ts:76-95 | price 20, cost 15, fee 0.23 is `low_margin`; price 10, cost 9 is `loss` |
| `Calculations.TargetPriceIsHealthy` | lib/calculations.ts:44-53 | selling at the exact target price (cost > 0, target >= 0) meets the target margin, so the classifier says `profit` |
| `Calculations.CalculateLoss` | lib/calculations.ts:100-108 | the loss is >= 0; it is > 0 iff the product loses money, and then it is minus the profit |
| `Calculations.GetProductRecommendation` | lib/calculations.ts:121-158 | null iff health is `profit`; otherwise the type matches the health and is never `warning`; the suggested price is `suggestPrice`, the potential profit is the profit at that price, the current margin is `calculateMargin` at the current price |
| `Calculations.AnalyzeProducts` | lib/calculations.ts:163-215 | the loop's lists are the losing-money and low-margin lists of the whole product list, and the total loss is the sum of the listed losses |
| `Calculations.VisitProduct` | lib/calculations.ts:181-207 | the `forEach` callback appends a `loss` product's entry to the losing list and adds its loss to the total, appends a `low_margin` product's entry to the low-margin list, and leaves everything unchanged for a healthy product |
| `Calculations.StepShapes` | lib/calculations.ts:181-207 | every product that is not healthy gets a recommendation; a `loss` product yields exactly one losing entry, with its positive loss; a `low_margin` product yields exactly one low-margin entry, with its engine margin; a healthy product yields none |
| `Calculations.ProductsWithHealthMembership` | lib/calculations.ts:181-208 | a product is kept by the health filter iff it is in the input with that health |
| `Calculations.LosingMoneyIsLossProducts` | lib/calculations.ts:197-200 | `losingMoney` holds exactly the `loss` products in input order, each with its positive loss and its recommendation |
| `Calculations.LowMarginIsLowMarginProducts` | lib/calculations.ts:201-206 | `lowMargin` holds exactly the `low_margin` products in input order, each with `calculateMargin` of that product, which is below the target |
| `Calculations.LowMarginBelowTarget` | lib/calculations.ts:201-206 | a `low_margin` product's engine margin is below the target for every price, negative prices included |
| `Calculations.FlaggedCount` | lib/calculations.ts:197-207 | the two lists and the healthy products partition the input: their lengths add up to the number of products |
| `Calculations.TotalLossNonNegative` | lib/calculations.ts:179-200 | the total potential loss is >= 0, and > 0 iff some product is `loss` |
| `Orders.FirstMissingNoneIffAllFound` | app/api/orders/route.ts:40-44 | no missing product is reported iff every item's product is in the tenant's map; a reported id is absent from it |
| `Orders.ValidRequest` | app/api/orders/route.ts:8-20 | the schema's value constraints: a listed payment method, at least one item, each quantity >= 1 |
| `Orders.FirstMissing` | app/api/orders/route.ts:40-44 | the id of the first item whose product the tenant lacks, or none; `FirstMissingNoneIffAllFound` states its meaning |
| `Orders.SnapshotAll` | app/api/orders/route.ts:54-59 | there is one stored line per request item |
| `Orders.PriceItems` | app/api/orders/route.ts:35-59 | the item loop stops at the first item whose product is missing and names it; it names none iff every product is found, and then the lines are the items' snapshots and gross and cost are the sums over those lines |
| `Orders.PriceStep` | app/api/orders/route.ts:40-59 | one found item keeps the loop invariant: the snapshot gains that item's line, and gross and cost grow by price × quantity and cost × quantity |
| `Orders.CreateOrder` | app/api/orders/route.ts:22-96 | an invalid request gets 500; the first missing product gets 400 naming it; a missing or foreign platform gets 400; otherwise the order has one snapshot line per item, gross and cost are the line sums, fee, profit and margin come from the engine, status is `"NEW"` and the request fields are copied |
| `Orders.SnapshotLines` | app/api/orders/route.ts:54-59 | line k carries item k's product id and quantity and its product's sale price and cost |
| `Orders.LineGrossAppend` | app/api/orders/route.ts:35-52 | the gross of two blocks of lines is the sum of their grosses |
| `Orders.LineCostAppend` | app/api/orders/route.ts:35-52 | the cost of two blocks of lines is the sum of their costs |
| `Orders.TotalsIgnoreBlockOrder` | app/api/orders/route.ts:35-52 | swapping two blocks of lines changes neither gross nor cost |
| `Orders.DuplicateLinesCountEach` | app/api/orders/route.ts:40-52 | two lines of the same product (1 and 2 units) count as 3 units of its price and cost |
| `Orders.CreatedOrderFinances` | app/api/orders/route.ts:72-75 | a created order's profit is gross × (1 - fee) - cost, and its margin is 0 when its gross is 0 |
| `Reports.TotalsConsistent` | app/api/reports/summary/route.ts:33-40 | when every order's profit is its gross minus cost and fee, the summed profit is the summed gross minus summed costs and fees |
| `Reports.FeesAtOneRate` | app/api/reports/summary/route.ts:36 | when all orders paid one fee rate, the fee total is that rate of the revenue |
| `Reports.Summarize` | app/api/reports/summary/route.ts:33-44 | the count is the number of orders; the four totals are the sums of the order fields; the average margin is 0 unless revenue > 0, when margin × revenue = profit × 100 |
| `Reports.AvgMarginIsMargin` | app/api/reports/summary/route.ts:42-44 | for positive revenue the average margin is the engine's margin of the totals |
| `Reports.AvgMarginNegativeRevenue` | app/api/reports/summary/route.ts:42-44 | the engine's margin of profit 10 on revenue -20 is -50, not 0; `Summarize` reports 0 for every revenue <= 0, so the report and the engine differ there |
| `Reports.DateLessIrreflexive` | app/api/reports/summary/route.ts:58 | no date key sorts before itself |
| `Reports.DateLessTotal` | app/api/reports/summary/route.ts:58 | of two different date keys one sorts first |
| `Reports.DateLessTransitive` | app/api/reports/summary/route.ts:58 | the date order is transitive |
| `Reports.DateLess` | app/api/reports/summary/route.ts:58 | `localeCompare` on date keys, as character-by-character lexicographic order; the three lemmas above make it a strict total order |
| `Reports.NothingOnAbsentDate` | app/api/reports/summary/route.ts:46-56 | a date with no orders has count 0 and gross and net 0 |
| `Reports.IndexOfDate` | app/api/reports/summary/route.ts:49-52 | the lookup finds a day with the date, or reports that none has it |
| `Reports.InsertByDate` | app/api/reports/summary/route.ts:58 | inserting a day adds exactly that day to the list's contents |
| `Reports.SortByDate` | app/api/reports/summary/route.ts:58 | sorting permutes the days |
| `Reports.InsertKeepsAscending` | app/api/reports/summary/route.ts:58 | inserting a day of a new date into an ascending list keeps it ascending |
| `Reports.SortIsAscending` | app/api/reports/summary/route.ts:58 | sorting days of distinct dates gives strictly ascending dates |
| `Reports.AscendingIsDistinct` | app/api/reports/summary/route.ts:58 | in an ascending series every earlier date sorts before every later one, so no date repeats |
| `Reports.SortSums` | app/api/reports/summary/route.ts:58 | sorting keeps the sums of counts, grosses and nets |
| `Reports.SortDates` | app/api/reports/summary/route.ts:58 | sorting keeps the set of dates |
| `Reports.AppendNewDay` | app/api/reports/summary/route.ts:49-55 | the first order of a new date opens a day at the end with that order's gross, net and count 1, and the day list still describes the orders |
| `Reports.NewDayDistinct` | app/api/reports/summary/route.ts:49-52 | a day opened for a date not yet in the list keeps the dates distinct |
| `Reports.AddIntoDay` | app/api/reports/summary/route.ts:52-55 | a further order of a known date is added into that day's gross, net and count, and the day list still describes the orders |
| `Reports.AddToDay` | app/api/reports/summary/route.ts:47-56 | one step of the grouping `forEach`: a new date opens a zeroed day at the end, then the order is added into its date's day; `AddToDayKeepsInvariant` proves what the step keeps |
| `Reports.AddToDayKeepsInvariant` | app/api/reports/summary/route.ts:47-56 | one step of the grouping loop keeps distinct dates, the date set, the per-day figures and the sums |
| `Reports.SortedSeries` | app/api/reports/summary/route.ts:58 | sorting the grouped days gives an ascending series that still describes the orders |
| `Reports.DailySeries` | app/api/reports/summary/route.ts:46-58 | one day per distinct order date, in strictly ascending date order, each with its date's count, gross and net; counts sum to the number of orders, grosses and nets to the totals |
| `Reports.SummaryReport` | app/api/reports/summary/route.ts:33-60 | the count and the gross, fee, cost and profit totals are those of the orders; the average margin is 0 unless revenue > 0, then the engine's margin; the series is ascending with distinct dates, one per order date, each day holding its date's count, gross and net, and its counts, grosses and nets sum to the summary's count, revenue and profit |
| `Cart.Find` | app/orders/new/page.tsx:65 | the lookup finds no line iff the cart has no line of the product; a found line is the first line with that id |
| `Cart.AddToCart` | app/orders/new/page.tsx:63-71 | with the product present, only its line's quantity goes up by 1 and nothing else changes; otherwise a line of quantity 1 is appended at the end |
| `Cart.WithoutProduct` | app/orders/new/page.tsx:79 | the filtered cart holds exactly the lines of other products |
| `Cart.RemoveFromCart` | app/orders/new/page.tsx:73-81 | with the product's line above 1 unit, only that line goes down by 1; otherwise the product's lines are dropped |
| `Cart.ClearCart` | app/orders/new/page.tsx:83-85 | clearing gives the empty cart, which keeps the invariant |
| `Cart.AddKeepsInv` | app/orders/new/page.tsx:63-71 | adding keeps ids unique and quantities >= 1 |
| `Cart.RemoveKeepsInv` | app/orders/new/page.tsx:73-81 | removing keeps ids unique and quantities >= 1 |
| `Cart.WithoutProductSubsequence` | app/orders/new/page.tsx:79 | dropping a product's lines keeps ids unique and quantities >= 1 |
| `Cart.RemoveAbsent` | app/orders/new/page.tsx:73-81 | removing a product that is not in the cart leaves it unchanged |
| `Cart.WithoutProductAbsent` | app/orders/new/page.tsx:79 | filtering out an absent product leaves the cart unchanged |
| `Cart.WithoutProductAppend` | app/orders/new/page.tsx:79 | filtering a concatenation is the concatenation of the filtered parts, so the survivors keep their order |
| `Cart.WithoutProductSingle` | app/orders/new/page.tsx:79 | a single line survives the filter iff it is of another product |
| `Cart.RemoveDropsLine` | app/orders/new/page.tsx:73-81 | on a valid cart, removing the last unit of a product drops exactly its line and keeps all other lines in order |
| `Cart.AddThenRemove` | app/orders/new/page.tsx:63-81 | on a valid cart, adding one unit and then removing one unit of the same product gives back the original cart |
| `Cart.RunKeepsInv` | app/orders/new/page.tsx:63-85 | any sequence of add, remove and clear keeps the invariant |
| `Cart.ReachableCartsValid` | app/orders/new/page.tsx:63-85 | every cart reachable from the empty cart has unique ids and quantities >= 1 |
| `Cart.SelectedFee` | app/orders/new/page.tsx:87-88 | the fee is 0 when no platform has the id, else the fee of the first platform that has it |
| `Cart.Totals` | app/orders/new/page.tsx:87-93 | gross and cost are the sums of price × quantity and cost × quantity; the platform fee is the engine's fee of the gross at the selected rate; profit is the engine's net profit, equal to gross × (1 - fee) - cost; margin is 0 unless gross > 0, when it is the engine's margin |
| `Cart.SubmitItems` | app/orders/new/page.tsx:108 | the submitted request has one item per cart line, item k carrying line k's product id and quantity |
| `Cart.PreviewMatchesOrder` | app/orders/new/page.tsx:89-90 | when the store holds the shown prices, the order built from the submitted cart has the preview's gross and cost |
| `Cart.SubmittedItemsValid` | app/orders/new/page.tsx:96-108 | a non-empty valid cart submits at least one item, each with quantity >= 1 |
| `Insights.DefaultFeePercent` | app/api/assistant/insights/route.ts:20-22 | the first active platform's fee, or 0.23 when there is none |
| `Insights.Recommendations` | app/api/assistant/insights/route.ts:58-81 | the recommendation views of the products that have one, in product order; `RecommendationsFollowFlagged` gives them one by one |
| `Insights.FlaggedMembership` | app/api/assistant/insights/route.ts:58-81 | a product is flagged iff it is in the list and its health against the 30% target is not `profit` |
| `Insights.RecommendationsFollowFlagged` | app/api/assistant/insights/route.ts:58-81 | there is one recommendation per flagged product, and the k-th recommendation is the view (id, name, price, suggested price, margin, potential profit, type) of the k-th flagged product, so product order is kept |
| `Insights.HealthScore` | app/api/assistant/insights/route.ts:84-88 | with issues <= total the score lies in [0, 100]; no issues give 100 (also for an empty catalogue); all products with issues give 0 |
| `Insights.AssistantInsights` | app/api/assistant/insights/route.ts:20-117 | an empty catalogue gives score 100 with all counts and the loss at 0; otherwise the lists come from the analyser at the chosen fee and a 30 target, issues = losing + low-margin counts, and the score is computed from them |
| `Insights.RecommendationsCount` | app/api/assistant/insights/route.ts:58-81 | the number of recommendations plus the number of healthy products is the number of products; each recommendation is for a product of the list that is not healthy, and is never of type `warning` |
| `Insights.InsightsConsistent` | app/api/assistant/insights/route.ts:84-88 | issues never exceed the product count, the score lies in [0, 100], there is one recommendation per product with an issue, and the total loss is >= 0 |

## Left out

- The store (Prisma queries and writes), tenant resolution (`lib/auth-context.ts`), the setup and health routes and the database scripts are not part of this model. The products and platforms they return are parameters.
- The Telegram notification after an order is created (`app/api/orders/route.ts:98-115`) and the list of item lines built for it: a best-effort network side effect.
- Recommendation messages and all number and currency formatting (`toFixed`, `Intl.NumberFormat`): string presentation. `Calculations.GetProductRecommendation` therefore takes no product name.
- The JSON projection of the insights lists to `{id, name, currentPrice}` (`app/api/assistant/insights/route.ts:99-116`): `Insights.AssistantInsights` returns the analyser's entries whole.
- Date parsing, time zones and date filters in the queries (`app/api/reports/summary/route.ts:15-21`). Each order's date key is an opaque string. It is ordered character by character, which matches `localeCompare` on the fixed `YYYY-MM-DD` keys.
- The `catch` blocks that answer database failures with status 500 or with a zeroed report: they concern the store, which is not modelled.
- Parsing of the request body and of numeric strings (`Number(...)`): values arrive already typed. Only the schema's value constraints are modelled: payment method, at least one item, and quantity >= 1. A request quantity is a real, because the schema accepts any number >= 1.
- The default `targetMarginPercent = 30` of `analyzeProductHealth`, `getProductRecommendation` and `analyzeProducts` (`lib/calculations.ts:80`, `126`, `171`): every caller passes the target explicitly (`app/api/assistant/insights/route.ts:53`, `65`; `lib/calculations.ts:128`, `182-195`), so the model takes it as a parameter.
- Floating-point drift: all arithmetic is exact over reals.
- React state, effects, fetching, routing and rendering. From the new-order page only the cart updaters, the derived totals and the item list it submits are modelled.
- The health and margin logic repeated inline in the product pages: it duplicates the engine.
- The other order routes (listing, editing, replicating) are not part of this model.
