/**
 * The assistant's insights (`GET /api/assistant/insights`): the portfolio
 * analysis of the tenant's active products at the fee of its first active
 * platform, the per-product recommendations and the health score.
 */
module Insights {
  import Money
  import Calculations
  import Orders

  /** The fee used when the tenant has no active platform (iFood's usual 23%). */
  const FallbackFeePercent: real := 0.23

  /** The target margin the assistant measures against, in percentage points. */
  const AssistantTargetMargin: real := 30.0

  datatype InsightsSummary = InsightsSummary(
    totalProducts: nat,
    productsWithIssues: nat,
    losingMoneyCount: nat,
    lowMarginCount: nat,
    totalPotentialLoss: real,
    healthScore: int)

  datatype RecommendationView = RecommendationView(
    productId: string,
    productName: string,
    currentPrice: real,
    suggestedPrice: real,
    currentMargin: real,
    potentialProfit: real,
    recType: Calculations.RecommendationType)

  datatype InsightsResponse = InsightsResponse(
    summary: InsightsSummary,
    losingMoney: seq<Calculations.LosingEntry>,
    lowMargin: seq<Calculations.LowMarginEntry>,
    recommendations: seq<RecommendationView>)

  /** The first active platform's fee, or the fallback when there is none. */
  function DefaultFeePercent(activePlatforms: seq<Orders.PlatformRecord>): (fee: real)
    ensures activePlatforms == [] ==> fee == FallbackFeePercent
    ensures activePlatforms != [] ==> fee == activePlatforms[0].defaultFeePercent
  {
    if |activePlatforms| > 0 then activePlatforms[0].defaultFeePercent else FallbackFeePercent
  }

  /** The view of one product's recommendation that the response lists. */
  function View(p: Calculations.Product, rec: Calculations.ProductRecommendation): RecommendationView
  {
    RecommendationView(p.id, p.name, p.salePrice, rec.suggestedPrice,
                       rec.currentMargin, rec.potentialProfit, rec.recType)
  }

  /** A recommendation for each product that has one, in product order. */
  function Recommendations(ps: seq<Calculations.Product>, feePercent: real): seq<RecommendationView>
  {
    if ps == [] then []
    else
      var rest := Recommendations(ps[..|ps| - 1], feePercent);
      var p := ps[|ps| - 1];
      var rec := Calculations.RecommendationOf(p, feePercent, AssistantTargetMargin);
      if rec.None? then rest else rest + [View(p, rec.value)]
  }

  /** The products that are not healthy against the assistant's target, in product order. */
  function FlaggedProducts(ps: seq<Calculations.Product>, feePercent: real): seq<Calculations.Product>
  {
    if ps == [] then []
    else
      var rest := FlaggedProducts(ps[..|ps| - 1], feePercent);
      var p := ps[|ps| - 1];
      if Calculations.HealthOf(p, feePercent, AssistantTargetMargin) != Calculations.Profit then rest + [p] else rest
  }

  /** A product is flagged exactly when it is in the list and is not healthy. */
  lemma {:induction false} FlaggedMembership(ps: seq<Calculations.Product>, feePercent: real, p: Calculations.Product)
    ensures p in FlaggedProducts(ps, feePercent)
            <==> p in ps && Calculations.HealthOf(p, feePercent, AssistantTargetMargin) != Calculations.Profit
    decreases |ps|
  {
    if ps != [] {
      var init := ps[..|ps| - 1];
      FlaggedMembership(init, feePercent, p);
      assert ps == init + [ps[|ps| - 1]];
    }
  }

  /**
   * The k-th recommendation is the view of the k-th flagged product: every
   * product with an issue gets exactly one, in product order.
   */
  lemma {:induction false} RecommendationsFollowFlagged(ps: seq<Calculations.Product>, feePercent: real)
    ensures |Recommendations(ps, feePercent)| == |FlaggedProducts(ps, feePercent)|
    ensures forall k :: 0 <= k < |FlaggedProducts(ps, feePercent)| ==>
              && Calculations.RecommendationOf(FlaggedProducts(ps, feePercent)[k], feePercent, AssistantTargetMargin).Some?
              && Recommendations(ps, feePercent)[k]
                 == View(FlaggedProducts(ps, feePercent)[k],
                         Calculations.RecommendationOf(FlaggedProducts(ps, feePercent)[k], feePercent,
                                                       AssistantTargetMargin).value)
    decreases |ps|
  {
    if ps != [] {
      var init := ps[..|ps| - 1];
      var p := ps[|ps| - 1];
      RecommendationsFollowFlagged(init, feePercent);
      var rec := Calculations.RecommendationOf(p, feePercent, AssistantTargetMargin);
      assert rec.None? <==> Calculations.HealthOf(p, feePercent, AssistantTargetMargin) == Calculations.Profit;
      var rs := Recommendations(init, feePercent);
      var fs := FlaggedProducts(init, feePercent);
      if rec.Some? {
        assert Recommendations(ps, feePercent) == rs + [View(p, rec.value)];
        assert FlaggedProducts(ps, feePercent) == fs + [p];
      } else {
        assert Recommendations(ps, feePercent) == rs;
        assert FlaggedProducts(ps, feePercent) == fs;
      }
    }
  }

  /** `round((total - issues) / total * 100)`, or 100 for an empty catalogue. */
  function HealthScore(total: nat, issues: nat): (score: int)
    ensures issues <= total ==> 0 <= score <= 100
    ensures issues == 0 ==> score == 100
    ensures total > 0 && issues == total ==> score == 0
  {
    if total > 0 then
      var healthy := (total - issues) as real / total as real * 100.0;
      assert issues == 0 ==> healthy == 100.0;
      assert issues <= total ==> 0.0 <= healthy <= 100.0;
      Money.RoundHalfUp(healthy)
    else
      100
  }

  /** The insights response for the tenant's active platforms and active products. */
  function AssistantInsights(activePlatforms: seq<Orders.PlatformRecord>,
                             products: seq<Calculations.Product>): (r: InsightsResponse)
    ensures products == [] ==>
              r == InsightsResponse(InsightsSummary(0, 0, 0, 0, 0.0, 100), [], [], [])
    ensures r.summary.totalProducts == |products|
    ensures r.summary.losingMoneyCount == |r.losingMoney|
    ensures r.summary.lowMarginCount == |r.lowMargin|
    ensures r.summary.productsWithIssues == |r.losingMoney| + |r.lowMargin|
    ensures r.summary.healthScore == HealthScore(|products|, r.summary.productsWithIssues)
    ensures products != [] ==>
              var fee := DefaultFeePercent(activePlatforms);
              && r.losingMoney == Calculations.LosingMoneyOf(products, fee, AssistantTargetMargin)
              && r.lowMargin == Calculations.LowMarginOf(products, fee, AssistantTargetMargin)
              && r.summary.totalPotentialLoss == Calculations.SumLoss(r.losingMoney)
              && r.recommendations == Recommendations(products, fee)
  {
    var fee := DefaultFeePercent(activePlatforms);
    if |products| == 0 then
      InsightsResponse(InsightsSummary(0, 0, 0, 0, 0.0, 100), [], [], [])
    else
      var losingMoney := Calculations.LosingMoneyOf(products, fee, AssistantTargetMargin);
      var lowMargin := Calculations.LowMarginOf(products, fee, AssistantTargetMargin);
      var totalPotentialLoss := Calculations.SumLoss(losingMoney);
      var recommendations := Recommendations(products, fee);
      var totalProducts := |products|;
      var productsWithIssues := |losingMoney| + |lowMargin|;
      var healthScore := HealthScore(totalProducts, productsWithIssues);
      InsightsResponse(
        InsightsSummary(totalProducts, productsWithIssues, |losingMoney|, |lowMargin|,
                        totalPotentialLoss, healthScore),
        losingMoney, lowMargin, recommendations)
  }

  /** Every product without a recommendation is healthy, and every other one has one. */
  lemma {:induction false} RecommendationsCount(ps: seq<Calculations.Product>, feePercent: real)
    ensures |Recommendations(ps, feePercent)|
            + |Calculations.ProductsWithHealth(ps, feePercent, AssistantTargetMargin, Calculations.Profit)|
            == |ps|
    ensures forall v | v in Recommendations(ps, feePercent) ::
              && v.recType != Calculations.WarningType
              && exists p | p in ps ::
                   && p.id == v.productId && p.name == v.productName && p.salePrice == v.currentPrice
                   && Calculations.HealthOf(p, feePercent, AssistantTargetMargin) != Calculations.Profit
    decreases |ps|
  {
    if ps != [] {
      var init := ps[..|ps| - 1];
      RecommendationsCount(init, feePercent);
      assert forall p | p in init :: p in ps;
    }
  }

  /**
   * The issue count is at most the number of products, the score is within
   * [0, 100], and there is one recommendation per product with an issue.
   */
  lemma InsightsConsistent(activePlatforms: seq<Orders.PlatformRecord>, products: seq<Calculations.Product>)
    ensures var r := AssistantInsights(activePlatforms, products);
            && r.summary.productsWithIssues <= r.summary.totalProducts
            && 0 <= r.summary.healthScore <= 100
            && |r.recommendations| == r.summary.productsWithIssues
            && r.summary.totalPotentialLoss >= 0.0
  {
    var fee := DefaultFeePercent(activePlatforms);
    Calculations.FlaggedCount(products, fee, AssistantTargetMargin);
    Calculations.TotalLossNonNegative(products, fee, AssistantTargetMargin);
    RecommendationsCount(products, fee);
  }
}
