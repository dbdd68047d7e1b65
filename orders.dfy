/**
 * Order creation (`POST /api/orders`): validate the request, snapshot each
 * line's unit price and cost from the tenant's products, check the platform,
 * and compute the order's fee, profit and margin with the pricing engine.
 *
 * The store is abstracted as two maps: `products` holds the tenant's products
 * by id (the result of the tenant-scoped lookup), `platforms` every platform
 * by id (the unscoped lookup whose tenant the handler then checks).
 */
module Orders {
  import opened Wrappers
  import Calculations

  datatype ItemRequest = ItemRequest(productId: string, quantity: real)

  datatype OrderRequest = OrderRequest(
    platformId: string,
    paymentMethod: string,
    items: seq<ItemRequest>,
    channel: Option<string>,
    customerName: Option<string>,
    notes: Option<string>)

  datatype ProductRecord = ProductRecord(id: string, name: string, salePrice: real, estimatedCost: real)

  datatype PlatformRecord = PlatformRecord(id: string, tenantId: string, name: string, defaultFeePercent: real)

  /** One stored order line: the quantity and the unit price and cost at creation time. */
  datatype OrderItemData = OrderItemData(productId: string, quantity: real, unitPrice: real, unitCost: real)

  datatype Order = Order(
    tenantId: string,
    platformId: string,
    paymentMethod: string,
    channel: Option<string>,
    customerName: Option<string>,
    notes: Option<string>,
    grossTotal: real,
    totalCost: real,
    platformFeeValue: real,
    netProfit: real,
    marginPct: real,
    status: string,
    items: seq<OrderItemData>)

  datatype OrderError = InvalidRequest | ProductNotFound(productId: string) | InvalidPlatform

  /** The handler's reply: the order to create (HTTP 201), or an error status. */
  datatype Response = Created(order: Order) | Rejected(status: int, error: OrderError)

  const PaymentMethods: set<string> := {"PIX", "CREDIT", "DEBIT", "CASH", "OTHER"}

  /** The request schema: a known payment method, at least one item, every quantity at least 1. */
  predicate ValidRequest(req: OrderRequest)
  {
    && req.paymentMethod in PaymentMethods
    && |req.items| >= 1
    && forall k :: 0 <= k < |req.items| ==> req.items[k].quantity >= 1.0
  }

  /** The id of the first item whose product the tenant does not have. */
  function FirstMissing(items: seq<ItemRequest>, products: map<string, ProductRecord>): Option<string>
  {
    if items == [] then None
    else if items[0].productId !in products then Some(items[0].productId)
    else FirstMissing(items[1..], products)
  }

  predicate AllFound(items: seq<ItemRequest>, products: map<string, ProductRecord>)
  {
    forall k :: 0 <= k < |items| ==> items[k].productId in products
  }

  /** No missing product is reported exactly when every item's product exists. */
  lemma {:induction false} FirstMissingNoneIffAllFound(items: seq<ItemRequest>, products: map<string, ProductRecord>)
    ensures FirstMissing(items, products) == None <==> AllFound(items, products)
    ensures FirstMissing(items, products).Some? ==> FirstMissing(items, products).value !in products
    decreases |items|
  {
    if items != [] {
      FirstMissingNoneIffAllFound(items[1..], products);
      if items[0].productId in products {
        assert AllFound(items, products) <==> AllFound(items[1..], products) by {
          if AllFound(items[1..], products) {
            forall k | 0 <= k < |items| ensures items[k].productId in products {
              if k > 0 { assert items[k] == items[1..][k - 1]; }
            }
          }
        }
      }
    }
  }

  /** The line stored for one request item: its quantity and the product's current price and cost. */
  function Snapshot(item: ItemRequest, p: ProductRecord): OrderItemData
  {
    OrderItemData(item.productId, item.quantity, p.salePrice, p.estimatedCost)
  }

  function SnapshotAll(items: seq<ItemRequest>, products: map<string, ProductRecord>): (lines: seq<OrderItemData>)
    requires AllFound(items, products)
    ensures |lines| == |items|
  {
    seq(|items|, k requires 0 <= k < |items| => Snapshot(items[k], products[items[k].productId]))
  }

  /** The sum of price times quantity over the lines. */
  function LineGross(lines: seq<OrderItemData>): real
  {
    if lines == [] then 0.0
    else LineGross(lines[..|lines| - 1]) + lines[|lines| - 1].unitPrice * lines[|lines| - 1].quantity
  }

  /** The sum of cost times quantity over the lines. */
  function LineCost(lines: seq<OrderItemData>): real
  {
    if lines == [] then 0.0
    else LineCost(lines[..|lines| - 1]) + lines[|lines| - 1].unitCost * lines[|lines| - 1].quantity
  }

  /** The platform exists and belongs to the requesting tenant. */
  predicate PlatformOk(tenantId: string, platformId: string, platforms: map<string, PlatformRecord>)
  {
    platformId in platforms && platforms[platformId].tenantId == tenantId
  }

  /**
   * The handler. Validation failures are thrown and caught (status 500); a
   * missing product (the first one met) and a foreign or missing platform
   * give status 400; otherwise the order to create, with status "NEW".
   */
  method CreateOrder(tenantId: string, req: OrderRequest,
                     products: map<string, ProductRecord>, platforms: map<string, PlatformRecord>)
    returns (resp: Response)
    ensures !ValidRequest(req) ==> resp == Rejected(500, InvalidRequest)
    ensures ValidRequest(req) && FirstMissing(req.items, products).Some? ==>
              resp == Rejected(400, ProductNotFound(FirstMissing(req.items, products).value))
    ensures ValidRequest(req) && AllFound(req.items, products)
            && !PlatformOk(tenantId, req.platformId, platforms) ==>
              resp == Rejected(400, InvalidPlatform)
    ensures resp.Created? <==>
              ValidRequest(req) && AllFound(req.items, products) && PlatformOk(tenantId, req.platformId, platforms)
    ensures resp.Created? ==>
              && AllFound(req.items, products)
              && req.platformId in platforms
              && var o := resp.order;
              var feePercent := platforms[req.platformId].defaultFeePercent;
              && o.items == SnapshotAll(req.items, products)
              && o.grossTotal == LineGross(o.items)
              && o.totalCost == LineCost(o.items)
              && o.platformFeeValue == Calculations.PlatformFee(o.grossTotal, feePercent)
              && o.netProfit == Calculations.NetProfit(o.grossTotal, o.totalCost, o.platformFeeValue)
              && o.marginPct == Calculations.Margin(o.netProfit, o.grossTotal)
              && o.status == "NEW"
              && o.tenantId == tenantId && o.platformId == req.platformId
              && o.paymentMethod == req.paymentMethod && o.channel == req.channel
              && o.customerName == req.customerName && o.notes == req.notes
  {
    if !ValidRequest(req) {
      return Rejected(500, InvalidRequest);
    }
    var missing, orderItemsData, grossTotal, totalCost := PriceItems(req.items, products);
    if missing.Some? {
      return Rejected(400, ProductNotFound(missing.value));
    }
    if !(req.platformId in platforms && platforms[req.platformId].tenantId == tenantId) {
      return Rejected(400, InvalidPlatform);
    }
    var feePercent := platforms[req.platformId].defaultFeePercent;
    var platformFeeValue := Calculations.PlatformFee(grossTotal, feePercent);
    var netProfit := Calculations.NetProfit(grossTotal, totalCost, platformFeeValue);
    var marginPct := Calculations.Margin(netProfit, grossTotal);
    resp := Created(Order(tenantId, req.platformId, req.paymentMethod, req.channel, req.customerName,
                          req.notes, grossTotal, totalCost, platformFeeValue, netProfit, marginPct,
                          "NEW", orderItemsData));
  }

  /**
   * The handler's loop over the request items: stops at the first item whose
   * product is missing; otherwise snapshots every line and adds up price and
   * cost times quantity.
   */
  method PriceItems(items: seq<ItemRequest>, products: map<string, ProductRecord>)
    returns (missing: Option<string>, orderItemsData: seq<OrderItemData>, grossTotal: real, totalCost: real)
    ensures missing == FirstMissing(items, products)
    ensures missing.None? <==> AllFound(items, products)
    ensures missing.None? ==>
              && orderItemsData == SnapshotAll(items, products)
              && grossTotal == LineGross(orderItemsData)
              && totalCost == LineCost(orderItemsData)
  {
    grossTotal := 0.0;
    totalCost := 0.0;
    orderItemsData := [];
    var i := 0;
    while i < |items|
      invariant PricedPrefix(items, products, i, orderItemsData, grossTotal, totalCost)
    {
      var item := items[i];
      if item.productId !in products {
        assert FirstMissing(items[i..], products) == Some(item.productId);
        return Some(item.productId), orderItemsData, grossTotal, totalCost;
      }
      var product := products[item.productId];
      var unitPrice := product.salePrice;
      var unitCost := product.estimatedCost;
      var lineTotal := unitPrice * item.quantity;
      var lineCost := unitCost * item.quantity;
      PriceStep(items, products, i, orderItemsData, grossTotal, totalCost);
      grossTotal := grossTotal + lineTotal;
      totalCost := totalCost + lineCost;
      orderItemsData := orderItemsData + [OrderItemData(item.productId, item.quantity, unitPrice, unitCost)];
      i := i + 1;
    }
    assert items[..|items|] == items;
    assert items[|items|..] == [];
    missing := None;
  }

  /**
   * The loop invariant of `PriceItems`: the first `i` items all have their
   * product, their lines are snapshotted, the sums are those of the lines, and
   * the first missing product, if any, is among the remaining items.
   */
  predicate PricedPrefix(items: seq<ItemRequest>, products: map<string, ProductRecord>, i: nat,
                         lines: seq<OrderItemData>, grossTotal: real, totalCost: real)
  {
    && i <= |items|
    && AllFound(items[..i], products)
    && lines == SnapshotAll(items[..i], products)
    && grossTotal == LineGross(lines)
    && totalCost == LineCost(lines)
    && FirstMissing(items, products) == FirstMissing(items[i..], products)
  }

  /** The loop invariant of `PriceItems` carried over one found item. */
  lemma PriceStep(items: seq<ItemRequest>, products: map<string, ProductRecord>, i: nat,
                  lines: seq<OrderItemData>, grossTotal: real, totalCost: real)
    requires PricedPrefix(items, products, i, lines, grossTotal, totalCost)
    requires i < |items| && items[i].productId in products
    ensures var p := products[items[i].productId];
            PricedPrefix(items, products, i + 1,
                         lines + [OrderItemData(items[i].productId, items[i].quantity, p.salePrice, p.estimatedCost)],
                         grossTotal + p.salePrice * items[i].quantity,
                         totalCost + p.estimatedCost * items[i].quantity)
  {
    SnapshotStep(items, products, i);
    var p := products[items[i].productId];
    LineTotalsSnoc(lines, OrderItemData(items[i].productId, items[i].quantity, p.salePrice, p.estimatedCost));
  }

  /** One loop step of the handler: a found product extends the snapshot by its own line. */
  lemma SnapshotStep(items: seq<ItemRequest>, products: map<string, ProductRecord>, i: nat)
    requires i < |items| && AllFound(items[..i], products) && items[i].productId in products
    ensures AllFound(items[..i + 1], products)
    ensures SnapshotAll(items[..i + 1], products)
            == SnapshotAll(items[..i], products) + [Snapshot(items[i], products[items[i].productId])]
    ensures FirstMissing(items[i..], products) == FirstMissing(items[i + 1..], products)
  {
    assert items[..i + 1] == items[..i] + [items[i]];
    assert items[i..][1..] == items[i + 1..];
  }

  /** Appending a line adds its price and its cost times its quantity. */
  lemma LineTotalsSnoc(lines: seq<OrderItemData>, line: OrderItemData)
    ensures LineGross(lines + [line]) == LineGross(lines) + line.unitPrice * line.quantity
    ensures LineCost(lines + [line]) == LineCost(lines) + line.unitCost * line.quantity
  {
    var all := lines + [line];
    assert all[..|all| - 1] == lines;
  }

  /** One stored line per request item, in order, with that item's product snapshot. */
  lemma SnapshotLines(items: seq<ItemRequest>, products: map<string, ProductRecord>, k: nat)
    requires AllFound(items, products) && k < |items|
    ensures SnapshotAll(items, products)[k].productId == items[k].productId
    ensures SnapshotAll(items, products)[k].quantity == items[k].quantity
    ensures SnapshotAll(items, products)[k].unitPrice == products[items[k].productId].salePrice
    ensures SnapshotAll(items, products)[k].unitCost == products[items[k].productId].estimatedCost
  {
  }

  /** The gross of a concatenation is the sum of the two grosses. */
  lemma {:induction false} LineGrossAppend(a: seq<OrderItemData>, b: seq<OrderItemData>)
    ensures LineGross(a + b) == LineGross(a) + LineGross(b)
    decreases |b|
  {
    if b != [] {
      var b' := b[..|b| - 1];
      assert (a + b)[..|a + b| - 1] == a + b';
      LineGrossAppend(a, b');
    } else {
      assert a + b == a;
    }
  }

  /** The cost of a concatenation is the sum of the two costs. */
  lemma {:induction false} LineCostAppend(a: seq<OrderItemData>, b: seq<OrderItemData>)
    ensures LineCost(a + b) == LineCost(a) + LineCost(b)
    decreases |b|
  {
    if b != [] {
      var b' := b[..|b| - 1];
      assert (a + b)[..|a + b| - 1] == a + b';
      LineCostAppend(a, b');
    } else {
      assert a + b == a;
    }
  }

  /** Swapping two blocks of lines leaves the order totals unchanged. */
  lemma TotalsIgnoreBlockOrder(a: seq<OrderItemData>, b: seq<OrderItemData>)
    ensures LineGross(a + b) == LineGross(b + a)
    ensures LineCost(a + b) == LineCost(b + a)
  {
    LineGrossAppend(a, b);
    LineGrossAppend(b, a);
    LineCostAppend(a, b);
    LineCostAppend(b, a);
  }

  /** A repeated product id counts once per occurrence: lines of 1 and 2 units sum to 3 units. */
  lemma DuplicateLinesCountEach(p: ProductRecord)
    ensures var items := [ItemRequest(p.id, 1.0), ItemRequest(p.id, 2.0)];
            var products := map[p.id := p];
            && AllFound(items, products)
            && LineGross(SnapshotAll(items, products)) == 3.0 * p.salePrice
            && LineCost(SnapshotAll(items, products)) == 3.0 * p.estimatedCost
  {
    var items := [ItemRequest(p.id, 1.0), ItemRequest(p.id, 2.0)];
    var products := map[p.id := p];
    var first := OrderItemData(p.id, 1.0, p.salePrice, p.estimatedCost);
    var second := OrderItemData(p.id, 2.0, p.salePrice, p.estimatedCost);
    assert SnapshotAll(items, products) == [first, second];
    assert [first, second][..1] == [first];
    assert [first][..0] == [];
    assert LineGross([first]) == p.salePrice * 1.0;
    assert LineGross([first, second]) == LineGross([first]) + p.salePrice * 2.0;
    assert LineCost([first]) == p.estimatedCost * 1.0;
    assert LineCost([first, second]) == LineCost([first]) + p.estimatedCost * 2.0;
  }

  /**
   * The finances of a created order: profit is the fee-free share of gross
   * minus cost, and an order with zero gross has margin 0.
   */
  lemma CreatedOrderFinances(o: Order, feePercent: real)
    requires o.platformFeeValue == Calculations.PlatformFee(o.grossTotal, feePercent)
    requires o.netProfit == Calculations.NetProfit(o.grossTotal, o.totalCost, o.platformFeeValue)
    requires o.marginPct == Calculations.Margin(o.netProfit, o.grossTotal)
    ensures o.netProfit == o.grossTotal * (1.0 - feePercent) - o.totalCost
    ensures o.grossTotal == 0.0 ==> o.marginPct == 0.0
    ensures o.grossTotal != 0.0 ==> o.marginPct * o.grossTotal == o.netProfit * 100.0
  {
    Calculations.NetProfitAfterFee(o.grossTotal, o.totalCost, feePercent);
  }
}
