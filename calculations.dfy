/**
 * The pricing engine, the product-health classifier, the recommendation
 * builder and the portfolio analyser of the delivery-restaurant back office.
 *
 * Fee rates are fractions (0.23 is 23%); target margins are percentage
 * points (30 is 30%); margins are returned in percentage points.
 */
module Calculations {
  import opened Wrappers
  import Money

  // ---------------------------------------------------------------------
  // Pricing engine
  // ---------------------------------------------------------------------

  /** The platform's cut of a gross amount. */
  function PlatformFee(grossTotal: real, feePercent: real): real
  {
    grossTotal * feePercent
  }

  /** What is left of the gross amount after costs and the platform fee. */
  function NetProfit(grossTotal: real, totalCost: real, platformFee: real): real
  {
    grossTotal - totalCost - platformFee
  }

  /** Net profit as a percentage of gross revenue, 0 when there is no revenue. */
  function Margin(netProfit: real, grossTotal: real): (m: real)
    ensures grossTotal == 0.0 ==> m == 0.0
    ensures grossTotal != 0.0 ==> m * grossTotal == netProfit * 100.0
  {
    if grossTotal == 0.0 then 0.0 else netProfit / grossTotal * 100.0
  }

  /** Profit after the platform fee is the fee-free share of revenue minus cost. */
  lemma NetProfitAfterFee(grossTotal: real, totalCost: real, feePercent: real)
    ensures NetProfit(grossTotal, totalCost, PlatformFee(grossTotal, feePercent))
            == grossTotal * (1.0 - feePercent) - totalCost
  {
  }

  /** A fee rate in [0, 1] takes between nothing and all of a non-negative gross. */
  lemma PlatformFeeBounds(grossTotal: real, feePercent: real)
    requires grossTotal >= 0.0 && 0.0 <= feePercent <= 1.0
    ensures 0.0 <= PlatformFee(grossTotal, feePercent) <= grossTotal
  {
    assert grossTotal * feePercent <= grossTotal * 1.0;
  }

  /** Gross 100 at a 23% fee with cost 40: fee 23, profit 37, margin 37%. */
  lemma EngineExample()
    ensures PlatformFee(100.0, 0.23) == 23.0
    ensures NetProfit(100.0, 40.0, 23.0) == 37.0
    ensures Margin(37.0, 100.0) == 37.0
  {
  }

  /** `1 - fee - target/100`: the share of the price left once fee and margin are taken. */
  function SuggestDenominator(feePercent: real, targetMarginPercent: real): real
  {
    1.0 - feePercent - targetMarginPercent / 100.0
  }

  /** The exact price whose profit after the fee is the target share of the price. */
  function TargetPrice(cost: real, feePercent: real, targetMarginPercent: real): (price: real)
    requires SuggestDenominator(feePercent, targetMarginPercent) > 0.0
    ensures price * SuggestDenominator(feePercent, targetMarginPercent) == cost
    ensures NetProfit(price, cost, PlatformFee(price, feePercent))
            == price * targetMarginPercent / 100.0
  {
    cost / SuggestDenominator(feePercent, targetMarginPercent)
  }

  /**
   * The suggested sale price: the target price rounded to cents, or 1.5 times
   * the cost (unrounded) when fee and target margin leave nothing of the price.
   */
  function SuggestPrice(cost: real, feePercent: real, targetMarginPercent: real): (price: real)
    ensures SuggestDenominator(feePercent, targetMarginPercent) <= 0.0 ==> price == cost * 1.5
    ensures SuggestDenominator(feePercent, targetMarginPercent) > 0.0 ==>
              && price == Money.Round2(TargetPrice(cost, feePercent, targetMarginPercent))
              && TargetPrice(cost, feePercent, targetMarginPercent) - 0.005 < price
              && price <= TargetPrice(cost, feePercent, targetMarginPercent) + 0.005
  {
    var feeDecimal := feePercent;
    var marginDecimal := targetMarginPercent / 100.0;
    var denominator := 1.0 - feeDecimal - marginDecimal;
    if denominator <= 0.0 then
      cost * 1.5
    else
      Money.Round2(cost / denominator)
  }

  /** Cost 12 at a 23% fee and a 30% target: 12 / 0.47 = 25.531..., suggested 25.53. */
  lemma SuggestPriceExample()
    ensures SuggestPrice(12.0, 0.23, 30.0) == 25.53
  {
    var exact := TargetPrice(12.0, 0.23, 30.0);
    assert exact == 12.0 / 0.47;
    Money.RoundHalfUpUnique(exact * 100.0, 2553);
  }

  /** Fee 60% plus target 50% exceed the whole price: the fallback 10 * 1.5. */
  lemma SuggestPriceFallbackExample()
    ensures SuggestPrice(10.0, 0.6, 50.0) == 15.0
  {
  }

  // ---------------------------------------------------------------------
  // Product-health classifier
  // ---------------------------------------------------------------------

  /** Whether a product sold at `salePrice` loses money after cost and fee. */
  predicate IsProductLosingMoney(salePrice: real, cost: real, feePercent: real)
  {
    var fee := salePrice * feePercent;
    var profit := salePrice - cost - fee;
    profit < 0.0
  }

  /** Losing money means the fee-free share of the price does not cover the cost. */
  lemma LosingMoneyMeansPriceBelowCost(salePrice: real, cost: real, feePercent: real)
    ensures IsProductLosingMoney(salePrice, cost, feePercent)
            <==> salePrice * (1.0 - feePercent) < cost
    ensures IsProductLosingMoney(salePrice, cost, feePercent)
            <==> NetProfit(salePrice, cost, PlatformFee(salePrice, feePercent)) < 0.0
  {
  }

  datatype Health = Profit | LowMargin | Loss

  /** The margin the classifier compares with the target: 0 for any price <= 0. */
  function ClassifierMargin(salePrice: real, cost: real, feePercent: real): real
  {
    var profit := NetProfit(salePrice, cost, PlatformFee(salePrice, feePercent));
    if salePrice > 0.0 then profit / salePrice * 100.0 else 0.0
  }

  /** For a non-negative price the classifier's margin is the engine's margin. */
  lemma ClassifierMarginIsMargin(salePrice: real, cost: real, feePercent: real)
    requires salePrice >= 0.0
    ensures ClassifierMargin(salePrice, cost, feePercent)
            == Margin(NetProfit(salePrice, cost, PlatformFee(salePrice, feePercent)), salePrice)
  {
  }

  /** For a negative price the two margins differ: the classifier takes 0. */
  lemma ClassifierMarginNegativePrice()
    ensures ClassifierMargin(-10.0, 0.0, 0.5) == 0.0
    ensures Margin(NetProfit(-10.0, 0.0, PlatformFee(-10.0, 0.5)), -10.0) == 50.0
  {
  }

  /**
   * Three-way health: a loss is decided first; a product that does not lose
   * money is low-margin when its margin is under the target, healthy otherwise.
   */
  function AnalyzeProductHealth(salePrice: real, cost: real, feePercent: real,
                                targetMarginPercent: real): (h: Health)
    ensures h == Loss <==> IsProductLosingMoney(salePrice, cost, feePercent)
    ensures h == LowMargin <==>
              && NetProfit(salePrice, cost, PlatformFee(salePrice, feePercent)) >= 0.0
              && ClassifierMargin(salePrice, cost, feePercent) < targetMarginPercent
    ensures h == Profit <==>
              && NetProfit(salePrice, cost, PlatformFee(salePrice, feePercent)) >= 0.0
              && ClassifierMargin(salePrice, cost, feePercent) >= targetMarginPercent
  {
    var fee := salePrice * feePercent;
    var profit := salePrice - cost - fee;
    var margin := if salePrice > 0.0 then profit / salePrice * 100.0 else 0.0;
    if profit < 0.0 then Loss
    else if margin < targetMarginPercent then LowMargin
    else Profit
  }

  /** Loss is checked before the margin: a zero-revenue loss is still a loss. */
  lemma LossBeforeMargin()
    ensures ClassifierMargin(0.0, 5.0, 0.23) == 0.0
    ensures AnalyzeProductHealth(0.0, 5.0, 0.23, -10.0) == Loss
  {
  }

  /** Price 20, cost 15, fee 23%: profit 0.4, margin 2% under 30%: low margin. */
  lemma HealthExamples()
    ensures AnalyzeProductHealth(20.0, 15.0, 0.23, 30.0) == LowMargin
    ensures AnalyzeProductHealth(10.0, 9.0, 0.23, 30.0) == Loss
  {
  }

  /**
   * Selling at the exact target price of a product that costs something meets
   * the target margin exactly, so the classifier calls it healthy.
   */
  lemma TargetPriceIsHealthy(cost: real, feePercent: real, targetMarginPercent: real)
    requires SuggestDenominator(feePercent, targetMarginPercent) > 0.0
    requires cost > 0.0 && targetMarginPercent >= 0.0
    ensures AnalyzeProductHealth(TargetPrice(cost, feePercent, targetMarginPercent),
                                 cost, feePercent, targetMarginPercent) == Profit
  {
    var d := SuggestDenominator(feePercent, targetMarginPercent);
    var p := TargetPrice(cost, feePercent, targetMarginPercent);
    assert p * d == cost;
    assert p > 0.0;
    var profit := NetProfit(p, cost, PlatformFee(p, feePercent));
    assert profit == p * targetMarginPercent / 100.0;
    assert profit >= 0.0;
    assert profit / p * 100.0 == targetMarginPercent;
  }

  /** The loss per unit: the magnitude of a negative profit, otherwise 0. */
  function CalculateLoss(salePrice: real, cost: real, feePercent: real): (loss: real)
    ensures loss >= 0.0
    ensures loss > 0.0 <==> IsProductLosingMoney(salePrice, cost, feePercent)
    ensures IsProductLosingMoney(salePrice, cost, feePercent) ==>
              loss == -NetProfit(salePrice, cost, PlatformFee(salePrice, feePercent))
  {
    var fee := salePrice * feePercent;
    var profit := salePrice - cost - fee;
    if profit < 0.0 then Money.Abs(profit) else 0.0
  }

  // ---------------------------------------------------------------------
  // Recommendations
  // ---------------------------------------------------------------------

  /** The declared kinds; the builder never produces `Warning`. */
  datatype RecommendationType = LossType | LowMarginType | WarningType

  /** A recommendation without its display message. */
  datatype ProductRecommendation = ProductRecommendation(
    recType: RecommendationType,
    suggestedPrice: real,
    currentMargin: real,
    potentialProfit: real)

  /**
   * The recommendation for a product: none for a healthy one; otherwise the
   * suggested price, the current margin and the profit at the suggested price.
   */
  function GetProductRecommendation(salePrice: real, cost: real, feePercent: real,
                                    targetMarginPercent: real): (r: Option<ProductRecommendation>)
    ensures r.None? <==> AnalyzeProductHealth(salePrice, cost, feePercent, targetMarginPercent) == Profit
    ensures r.Some? ==>
              && r.value.recType != WarningType
              && (r.value.recType == LossType
                  <==> AnalyzeProductHealth(salePrice, cost, feePercent, targetMarginPercent) == Loss)
              && (r.value.recType == LowMarginType
                  <==> AnalyzeProductHealth(salePrice, cost, feePercent, targetMarginPercent) == LowMargin)
    ensures r.Some? ==>
              && r.value.suggestedPrice == SuggestPrice(cost, feePercent, targetMarginPercent)
              && r.value.potentialProfit
                 == NetProfit(r.value.suggestedPrice, cost, PlatformFee(r.value.suggestedPrice, feePercent))
              && r.value.currentMargin
                 == Margin(NetProfit(salePrice, cost, PlatformFee(salePrice, feePercent)), salePrice)
  {
    var health := AnalyzeProductHealth(salePrice, cost, feePercent, targetMarginPercent);
    var currentMargin := Margin(salePrice - cost - salePrice * feePercent, salePrice);
    var suggestedPrice := SuggestPrice(cost, feePercent, targetMarginPercent);
    var potentialProfit := suggestedPrice - cost - suggestedPrice * feePercent;
    if health == Loss then
      Some(ProductRecommendation(LossType, suggestedPrice, currentMargin, potentialProfit))
    else if health == LowMargin then
      Some(ProductRecommendation(LowMarginType, suggestedPrice, currentMargin, potentialProfit))
    else
      None
  }

  // ---------------------------------------------------------------------
  // Portfolio analyser
  // ---------------------------------------------------------------------

  datatype Product = Product(id: string, name: string, salePrice: real, estimatedCost: real)

  datatype LosingEntry = LosingEntry(product: Product, loss: real, recommendation: ProductRecommendation)

  datatype LowMarginEntry = LowMarginEntry(product: Product, margin: real, recommendation: ProductRecommendation)

  datatype Analysis = Analysis(
    losingMoney: seq<LosingEntry>,
    lowMargin: seq<LowMarginEntry>,
    totalPotentialLoss: real)

  function HealthOf(p: Product, feePercent: real, targetMarginPercent: real): Health
  {
    AnalyzeProductHealth(p.salePrice, p.estimatedCost, feePercent, targetMarginPercent)
  }

  function RecommendationOf(p: Product, feePercent: real, targetMarginPercent: real): Option<ProductRecommendation>
  {
    GetProductRecommendation(p.salePrice, p.estimatedCost, feePercent, targetMarginPercent)
  }

  /** The margin the analyser records for a low-margin product: the engine's margin at its price. */
  function EntryMargin(p: Product, feePercent: real): real
  {
    Margin(NetProfit(p.salePrice, p.estimatedCost, PlatformFee(p.salePrice, feePercent)), p.salePrice)
  }

  /**
   * The entry the analyser appends to `losingMoney` for a product, given the
   * health and the recommendation it computed for that product.
   */
  function LosingAppend(p: Product, health: Health, rec: Option<ProductRecommendation>,
                        feePercent: real): seq<LosingEntry>
  {
    if health == Loss && rec.Some? then
      [LosingEntry(p, CalculateLoss(p.salePrice, p.estimatedCost, feePercent), rec.value)]
    else
      []
  }

  /** Likewise for `lowMargin`: only a low-margin product with a recommendation is listed. */
  function LowMarginAppend(p: Product, health: Health, rec: Option<ProductRecommendation>,
                           feePercent: real): seq<LowMarginEntry>
  {
    if health == Loss && rec.Some? then
      []
    else if health == LowMargin && rec.Some? then
      [LowMarginEntry(p, EntryMargin(p, feePercent), rec.value)]
    else
      []
  }

  /** The entry the analyser appends to `losingMoney` for one product, if any. */
  function LosingStep(p: Product, feePercent: real, targetMarginPercent: real): seq<LosingEntry>
  {
    LosingAppend(p, HealthOf(p, feePercent, targetMarginPercent),
                 RecommendationOf(p, feePercent, targetMarginPercent), feePercent)
  }

  /** The entry the analyser appends to `lowMargin` for one product, if any. */
  function LowMarginStep(p: Product, feePercent: real, targetMarginPercent: real): seq<LowMarginEntry>
  {
    LowMarginAppend(p, HealthOf(p, feePercent, targetMarginPercent),
                    RecommendationOf(p, feePercent, targetMarginPercent), feePercent)
  }

  /** The `losingMoney` list after the analyser has seen `ps`, in visiting order. */
  function LosingMoneyOf(ps: seq<Product>, feePercent: real, targetMarginPercent: real): seq<LosingEntry>
  {
    if ps == [] then []
    else LosingMoneyOf(ps[..|ps| - 1], feePercent, targetMarginPercent) + LosingStep(ps[|ps| - 1], feePercent, targetMarginPercent)
  }

  /** The `lowMargin` list after the analyser has seen `ps`, in visiting order. */
  function LowMarginOf(ps: seq<Product>, feePercent: real, targetMarginPercent: real): seq<LowMarginEntry>
  {
    if ps == [] then []
    else LowMarginOf(ps[..|ps| - 1], feePercent, targetMarginPercent) + LowMarginStep(ps[|ps| - 1], feePercent, targetMarginPercent)
  }

  function SumLoss(entries: seq<LosingEntry>): real
  {
    if entries == [] then 0.0
    else SumLoss(entries[..|entries| - 1]) + entries[|entries| - 1].loss
  }

  /** The products of `ps` whose health is `h`, in their order in `ps`. */
  function ProductsWithHealth(ps: seq<Product>, feePercent: real, targetMarginPercent: real,
                              h: Health): seq<Product>
  {
    if ps == [] then []
    else
      var rest := ProductsWithHealth(ps[..|ps| - 1], feePercent, targetMarginPercent, h);
      if HealthOf(ps[|ps| - 1], feePercent, targetMarginPercent) == h then rest + [ps[|ps| - 1]] else rest
  }

  function LosingProducts(entries: seq<LosingEntry>): seq<Product>
  {
    seq(|entries|, k requires 0 <= k < |entries| => entries[k].product)
  }

  function LowMarginProducts(entries: seq<LowMarginEntry>): seq<Product>
  {
    seq(|entries|, k requires 0 <= k < |entries| => entries[k].product)
  }

  /**
   * `analyzeProducts`: visits the products in order, appending each losing one
   * (with its loss) to `losingMoney` and each low-margin one (with its margin)
   * to `lowMargin`, and adding up the losses.
   */
  method AnalyzeProducts(products: seq<Product>, feePercent: real, targetMarginPercent: real)
    returns (analysis: Analysis)
    ensures analysis.losingMoney == LosingMoneyOf(products, feePercent, targetMarginPercent)
    ensures analysis.lowMargin == LowMarginOf(products, feePercent, targetMarginPercent)
    ensures analysis.totalPotentialLoss == SumLoss(analysis.losingMoney)
  {
    var losingMoney: seq<LosingEntry> := [];
    var lowMargin: seq<LowMarginEntry> := [];
    var totalPotentialLoss := 0.0;
    var i := 0;
    while i < |products|
      invariant 0 <= i <= |products|
      invariant losingMoney == LosingMoneyOf(products[..i], feePercent, targetMarginPercent)
      invariant lowMargin == LowMarginOf(products[..i], feePercent, targetMarginPercent)
      invariant totalPotentialLoss == SumLoss(losingMoney)
    {
      ghost var before := losingMoney;
      losingMoney, lowMargin, totalPotentialLoss :=
        VisitProduct(products[i], feePercent, targetMarginPercent, losingMoney, lowMargin, totalPotentialLoss);
      assert products[..i + 1] == products[..i] + [products[i]];
      LosingMoneySnoc(products[..i], products[i], feePercent, targetMarginPercent);
      LowMarginSnoc(products[..i], products[i], feePercent, targetMarginPercent);
      SumLossAppendStep(before, LosingStep(products[i], feePercent, targetMarginPercent));
      i := i + 1;
    }
    assert products[..|products|] == products;
    analysis := Analysis(losingMoney, lowMargin, totalPotentialLoss);
  }

  /**
   * The `forEach` callback of the analyser: classifies one product, builds its
   * recommendation and appends it to the list its health calls for.
   */
  method VisitProduct(product: Product, feePercent: real, targetMarginPercent: real,
                      losingMoney: seq<LosingEntry>, lowMargin: seq<LowMarginEntry>, totalPotentialLoss: real)
    returns (losingMoney': seq<LosingEntry>, lowMargin': seq<LowMarginEntry>, totalPotentialLoss': real)
    ensures losingMoney' == losingMoney + LosingStep(product, feePercent, targetMarginPercent)
    ensures lowMargin' == lowMargin + LowMarginStep(product, feePercent, targetMarginPercent)
    ensures totalPotentialLoss' == totalPotentialLoss + SumLoss(LosingStep(product, feePercent, targetMarginPercent))
  {
    var health := AnalyzeProductHealth(product.salePrice, product.estimatedCost,
                                       feePercent, targetMarginPercent);
    var recommendation := GetProductRecommendation(product.salePrice, product.estimatedCost,
                                                   feePercent, targetMarginPercent);
    assert LosingStep(product, feePercent, targetMarginPercent)
           == LosingAppend(product, health, recommendation, feePercent);
    assert LowMarginStep(product, feePercent, targetMarginPercent)
           == LowMarginAppend(product, health, recommendation, feePercent);
    losingMoney', lowMargin', totalPotentialLoss' := losingMoney, lowMargin, totalPotentialLoss;
    if health == Loss && recommendation.Some? {
      var loss := CalculateLoss(product.salePrice, product.estimatedCost, feePercent);
      losingMoney' := losingMoney + [LosingEntry(product, loss, recommendation.value)];
      totalPotentialLoss' := totalPotentialLoss + loss;
      assert LowMarginAppend(product, health, recommendation, feePercent) == [];
    } else if health == LowMargin && recommendation.Some? {
      var margin := EntryMargin(product, feePercent);
      lowMargin' := lowMargin + [LowMarginEntry(product, margin, recommendation.value)];
      assert LowMarginAppend(product, health, recommendation, feePercent)
             == [LowMarginEntry(product, margin, recommendation.value)];
    } else {
      assert LowMarginAppend(product, health, recommendation, feePercent) == [];
    }
  }

  /** Adding the losses of at most one more entry. */
  lemma SumLossAppendStep(entries: seq<LosingEntry>, step: seq<LosingEntry>)
    requires |step| <= 1
    ensures SumLoss(entries + step) == SumLoss(entries) + SumLoss(step)
  {
    if step == [] {
      assert entries + step == entries;
    } else {
      var all := entries + step;
      assert all[..|all| - 1] == entries;
      assert step[..0] == [];
    }
  }

  /** Visiting one more product appends at most its own losing entry. */
  lemma LosingMoneySnoc(ps: seq<Product>, p: Product, feePercent: real, targetMarginPercent: real)
    ensures LosingMoneyOf(ps + [p], feePercent, targetMarginPercent)
            == LosingMoneyOf(ps, feePercent, targetMarginPercent) + LosingStep(p, feePercent, targetMarginPercent)
  {
    var s := ps + [p];
    assert s != [] && s[..|s| - 1] == ps && s[|s| - 1] == p;
  }

  /** Visiting one more product appends at most its own low-margin entry. */
  lemma LowMarginSnoc(ps: seq<Product>, p: Product, feePercent: real, targetMarginPercent: real)
    ensures LowMarginOf(ps + [p], feePercent, targetMarginPercent)
            == LowMarginOf(ps, feePercent, targetMarginPercent) + LowMarginStep(p, feePercent, targetMarginPercent)
  {
    var s := ps + [p];
    assert s != [] && s[..|s| - 1] == ps && s[|s| - 1] == p;
  }

  /** A product is kept by the health filter exactly when it occurs with that health. */
  lemma {:induction false} ProductsWithHealthMembership(ps: seq<Product>, feePercent: real,
                                                        targetMarginPercent: real, h: Health, p: Product)
    ensures p in ProductsWithHealth(ps, feePercent, targetMarginPercent, h)
            <==> p in ps && HealthOf(p, feePercent, targetMarginPercent) == h
    decreases |ps|
  {
    if ps != [] {
      var init := ps[..|ps| - 1];
      ProductsWithHealthMembership(init, feePercent, targetMarginPercent, h, p);
      assert ps == init + [ps[|ps| - 1]];
    }
  }

  /** What the analyser appends for one product, by its health. */
  lemma StepShapes(p: Product, feePercent: real, targetMarginPercent: real)
    ensures HealthOf(p, feePercent, targetMarginPercent) != Profit
            ==> RecommendationOf(p, feePercent, targetMarginPercent).Some?
    ensures |LosingStep(p, feePercent, targetMarginPercent)|
            == (if HealthOf(p, feePercent, targetMarginPercent) == Loss then 1 else 0)
    ensures |LowMarginStep(p, feePercent, targetMarginPercent)|
            == (if HealthOf(p, feePercent, targetMarginPercent) == LowMargin then 1 else 0)
    ensures HealthOf(p, feePercent, targetMarginPercent) == Loss ==>
              && LosingStep(p, feePercent, targetMarginPercent)
                 == [LosingEntry(p, CalculateLoss(p.salePrice, p.estimatedCost, feePercent),
                                 RecommendationOf(p, feePercent, targetMarginPercent).value)]
              && CalculateLoss(p.salePrice, p.estimatedCost, feePercent) > 0.0
    ensures HealthOf(p, feePercent, targetMarginPercent) == LowMargin ==>
              LowMarginStep(p, feePercent, targetMarginPercent)
              == [LowMarginEntry(p, EntryMargin(p, feePercent),
                                 RecommendationOf(p, feePercent, targetMarginPercent).value)]
  {
    var h := HealthOf(p, feePercent, targetMarginPercent);
    var rec := RecommendationOf(p, feePercent, targetMarginPercent);
    assert rec.None? <==> h == Profit;
    if h == Loss {
      assert IsProductLosingMoney(p.salePrice, p.estimatedCost, feePercent);
    }
  }

  lemma LosingProductsAppend(a: seq<LosingEntry>, b: seq<LosingEntry>)
    ensures LosingProducts(a + b) == LosingProducts(a) + LosingProducts(b)
  {
  }

  lemma LowMarginProductsAppend(a: seq<LowMarginEntry>, b: seq<LowMarginEntry>)
    ensures LowMarginProducts(a + b) == LowMarginProducts(a) + LowMarginProducts(b)
  {
  }

  /**
   * `losingMoney` holds exactly the losing products in input order, each with
   * its loss and its recommendation.
   */
  lemma {:induction false} LosingMoneyIsLossProducts(ps: seq<Product>, feePercent: real, targetMarginPercent: real)
    ensures LosingProducts(LosingMoneyOf(ps, feePercent, targetMarginPercent))
            == ProductsWithHealth(ps, feePercent, targetMarginPercent, Loss)
    ensures forall e | e in LosingMoneyOf(ps, feePercent, targetMarginPercent) ::
              && e.loss == CalculateLoss(e.product.salePrice, e.product.estimatedCost, feePercent)
              && e.loss > 0.0
              && Some(e.recommendation) == RecommendationOf(e.product, feePercent, targetMarginPercent)
    decreases |ps|
  {
    if ps != [] {
      var init := ps[..|ps| - 1];
      var p := ps[|ps| - 1];
      LosingMoneyIsLossProducts(init, feePercent, targetMarginPercent);
      StepShapes(p, feePercent, targetMarginPercent);
      var before := LosingMoneyOf(init, feePercent, targetMarginPercent);
      var step := LosingStep(p, feePercent, targetMarginPercent);
      LosingProductsAppend(before, step);
      assert LosingMoneyOf(ps, feePercent, targetMarginPercent) == before + step;
    }
  }

  /**
   * `lowMargin` holds exactly the low-margin products in input order, each
   * with the engine's margin of that product, which lies under the target.
   */
  lemma {:induction false} LowMarginIsLowMarginProducts(ps: seq<Product>, feePercent: real, targetMarginPercent: real)
    ensures LowMarginProducts(LowMarginOf(ps, feePercent, targetMarginPercent))
            == ProductsWithHealth(ps, feePercent, targetMarginPercent, LowMargin)
    ensures forall e | e in LowMarginOf(ps, feePercent, targetMarginPercent) ::
              && e.margin == Margin(NetProfit(e.product.salePrice, e.product.estimatedCost,
                                              PlatformFee(e.product.salePrice, feePercent)),
                                    e.product.salePrice)
              && e.margin < targetMarginPercent
              && Some(e.recommendation) == RecommendationOf(e.product, feePercent, targetMarginPercent)
    decreases |ps|
  {
    if ps != [] {
      var init := ps[..|ps| - 1];
      var p := ps[|ps| - 1];
      LowMarginIsLowMarginProducts(init, feePercent, targetMarginPercent);
      StepShapes(p, feePercent, targetMarginPercent);
      if HealthOf(p, feePercent, targetMarginPercent) == LowMargin {
        LowMarginBelowTarget(p.salePrice, p.estimatedCost, feePercent, targetMarginPercent);
      }
      var before := LowMarginOf(init, feePercent, targetMarginPercent);
      var step := LowMarginStep(p, feePercent, targetMarginPercent);
      LowMarginProductsAppend(before, step);
      assert LowMarginOf(ps, feePercent, targetMarginPercent) == before + step;
    }
  }

  /**
   * A low-margin product's engine margin is under the target for every price,
   * including the negative prices where the classifier's margin is 0.
   */
  lemma LowMarginBelowTarget(salePrice: real, cost: real, feePercent: real, targetMarginPercent: real)
    requires AnalyzeProductHealth(salePrice, cost, feePercent, targetMarginPercent) == LowMargin
    ensures Margin(NetProfit(salePrice, cost, PlatformFee(salePrice, feePercent)), salePrice)
            < targetMarginPercent
  {
    var profit := NetProfit(salePrice, cost, PlatformFee(salePrice, feePercent));
    if salePrice < 0.0 {
      assert profit >= 0.0 && 0.0 < targetMarginPercent;
      assert profit / salePrice * salePrice == profit;
      assert profit / salePrice <= 0.0;
    } else {
      ClassifierMarginIsMargin(salePrice, cost, feePercent);
    }
  }

  /** A product is in at most one of the two lists; healthy products are in neither. */
  lemma {:induction false} FlaggedCount(ps: seq<Product>, feePercent: real, targetMarginPercent: real)
    ensures |LosingMoneyOf(ps, feePercent, targetMarginPercent)|
            == |ProductsWithHealth(ps, feePercent, targetMarginPercent, Loss)|
    ensures |LowMarginOf(ps, feePercent, targetMarginPercent)|
            == |ProductsWithHealth(ps, feePercent, targetMarginPercent, LowMargin)|
    ensures |LosingMoneyOf(ps, feePercent, targetMarginPercent)|
            + |LowMarginOf(ps, feePercent, targetMarginPercent)|
            + |ProductsWithHealth(ps, feePercent, targetMarginPercent, Profit)| == |ps|
    decreases |ps|
  {
    if ps != [] {
      var init := ps[..|ps| - 1];
      FlaggedCount(init, feePercent, targetMarginPercent);
      StepShapes(ps[|ps| - 1], feePercent, targetMarginPercent);
    }
  }

  /** The total potential loss adds up non-negative losses. */
  lemma {:induction false} TotalLossNonNegative(ps: seq<Product>, feePercent: real, targetMarginPercent: real)
    ensures SumLoss(LosingMoneyOf(ps, feePercent, targetMarginPercent)) >= 0.0
    ensures SumLoss(LosingMoneyOf(ps, feePercent, targetMarginPercent)) > 0.0
            <==> ProductsWithHealth(ps, feePercent, targetMarginPercent, Loss) != []
    decreases |ps|
  {
    if ps != [] {
      var init := ps[..|ps| - 1];
      var p := ps[|ps| - 1];
      TotalLossNonNegative(init, feePercent, targetMarginPercent);
      StepShapes(p, feePercent, targetMarginPercent);
      var before := LosingMoneyOf(init, feePercent, targetMarginPercent);
      var step := LosingStep(p, feePercent, targetMarginPercent);
      assert LosingMoneyOf(ps, feePercent, targetMarginPercent) == before + step;
      if step == [] {
        assert before + step == before;
      } else {
        assert (before + step)[..|before + step| - 1] == before;
      }
    }
  }
}
