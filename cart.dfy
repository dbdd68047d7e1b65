/**
 * The cart of the new-order page: the updaters passed to `setCart` for adding,
 * removing and clearing, and the live totals shown beside the cart.
 */
module Cart {
  import opened Wrappers
  import Calculations
  import Orders

  datatype CatalogProduct = CatalogProduct(
    id: string,
    name: string,
    salePrice: real,
    estimatedCost: real,
    active: bool)

  datatype CartItem = CartItem(product: CatalogProduct, quantity: int)

  datatype PlatformOption = PlatformOption(id: string, name: string, defaultFeePercent: real)

  /** Product ids are unique and every quantity is at least 1. */
  predicate CartInv(cart: seq<CartItem>)
  {
    && (forall j, k :: 0 <= j < k < |cart| ==> cart[j].product.id != cart[k].product.id)
    && (forall k :: 0 <= k < |cart| ==> cart[k].quantity >= 1)
  }

  predicate HasProduct(cart: seq<CartItem>, id: string)
  {
    exists k :: 0 <= k < |cart| && cart[k].product.id == id
  }

  /** `Array.prototype.find`: the first line for `id`. */
  function Find(cart: seq<CartItem>, id: string): (r: Option<CartItem>)
    ensures r.None? <==> !HasProduct(cart, id)
    ensures r.Some? ==> r.value in cart && r.value.product.id == id
    ensures r.Some? ==>
              exists k :: 0 <= k < |cart| && cart[k] == r.value
                          && forall j :: 0 <= j < k ==> cart[j].product.id != id
  {
    if cart == [] then None
    else if cart[0].product.id == id then Some(cart[0])
    else
      var r := Find(cart[1..], id);
      assert HasProduct(cart, id) <==> HasProduct(cart[1..], id) by {
        if HasProduct(cart, id) {
          var k :| 0 <= k < |cart| && cart[k].product.id == id;
          assert cart[1..][k - 1] == cart[k];
        }
        if HasProduct(cart[1..], id) {
          var k :| 0 <= k < |cart[1..]| && cart[1..][k].product.id == id;
          assert cart[k + 1] == cart[1..][k];
        }
      }
      assert r.Some? ==>
               exists k :: 0 <= k < |cart| && cart[k] == r.value
                           && forall j :: 0 <= j < k ==> cart[j].product.id != id
      by {
        if r.Some? {
          var k :| 0 <= k < |cart[1..]| && cart[1..][k] == r.value
                   && forall j :: 0 <= j < k ==> cart[1..][j].product.id != id;
          assert cart[k + 1] == r.value;
          forall j | 0 <= j < k + 1 ensures cart[j].product.id != id {
            if j > 0 { assert cart[j] == cart[1..][j - 1]; }
          }
        }
      }
      r
  }

  /** Adds one unit: increments the product's line, or appends a line of quantity 1. */
  function AddToCart(cart: seq<CartItem>, product: CatalogProduct): (r: seq<CartItem>)
    ensures HasProduct(cart, product.id) ==>
              && |r| == |cart|
              && forall k :: 0 <= k < |cart| ==>
                   r[k] == if cart[k].product.id == product.id
                           then cart[k].(quantity := cart[k].quantity + 1) else cart[k]
    ensures !HasProduct(cart, product.id) ==> r == cart + [CartItem(product, 1)]
  {
    var existing := Find(cart, product.id);
    if existing.Some? then
      seq(|cart|, k requires 0 <= k < |cart| =>
        if cart[k].product.id == product.id then cart[k].(quantity := cart[k].quantity + 1) else cart[k])
    else
      cart + [CartItem(product, 1)]
  }

  /** The lines whose product is not `id`, in order. */
  function WithoutProduct(cart: seq<CartItem>, id: string): (r: seq<CartItem>)
    ensures forall x :: x in r <==> x in cart && x.product.id != id
    ensures |r| <= |cart|
  {
    if cart == [] then []
    else
      var init := WithoutProduct(cart[..|cart| - 1], id);
      var last := cart[|cart| - 1];
      assert cart == cart[..|cart| - 1] + [last];
      if last.product.id != id then init + [last] else init
  }

  /**
   * Removes one unit: decrements the product's line when its first line has
   * more than one unit, otherwise drops every line of that product.
   */
  function RemoveFromCart(cart: seq<CartItem>, id: string): (r: seq<CartItem>)
    ensures (Find(cart, id).Some? && Find(cart, id).value.quantity > 1) ==>
              && |r| == |cart|
              && forall k :: 0 <= k < |cart| ==>
                   r[k] == if cart[k].product.id == id
                           then cart[k].(quantity := cart[k].quantity - 1) else cart[k]
    ensures !(Find(cart, id).Some? && Find(cart, id).value.quantity > 1) ==>
              r == WithoutProduct(cart, id)
  {
    var existing := Find(cart, id);
    if existing.Some? && existing.value.quantity > 1 then
      seq(|cart|, k requires 0 <= k < |cart| =>
        if cart[k].product.id == id then cart[k].(quantity := cart[k].quantity - 1) else cart[k])
    else
      WithoutProduct(cart, id)
  }

  /** Empties the cart. */
  function ClearCart(): (r: seq<CartItem>)
    ensures |r| == 0 && CartInv(r)
  {
    []
  }

  lemma AddKeepsInv(cart: seq<CartItem>, product: CatalogProduct)
    requires CartInv(cart)
    ensures CartInv(AddToCart(cart, product))
  {
  }

  lemma RemoveKeepsInv(cart: seq<CartItem>, id: string)
    requires CartInv(cart)
    ensures CartInv(RemoveFromCart(cart, id))
  {
    var r := RemoveFromCart(cart, id);
    if !(Find(cart, id).Some? && Find(cart, id).value.quantity > 1) {
      WithoutProductSubsequence(cart, id);
    }
  }

  /** Dropping a product's lines keeps ids unique and quantities at least 1. */
  lemma {:induction false} WithoutProductSubsequence(cart: seq<CartItem>, id: string)
    requires CartInv(cart)
    ensures CartInv(WithoutProduct(cart, id))
    decreases |cart|
  {
    if cart != [] {
      var init := cart[..|cart| - 1];
      var last := cart[|cart| - 1];
      assert CartInv(init);
      WithoutProductSubsequence(init, id);
      var w := WithoutProduct(init, id);
      forall x | x in w ensures x.product.id != last.product.id {
        var j :| 0 <= j < |init| && init[j] == x;
        assert cart[j] == x;
      }
    }
  }

  /** Filtering a concatenation filters each part and keeps them in order. */
  lemma {:induction false} WithoutProductAppend(a: seq<CartItem>, b: seq<CartItem>, id: string)
    ensures WithoutProduct(a + b, id) == WithoutProduct(a, id) + WithoutProduct(b, id)
    decreases |b|
  {
    if b == [] {
      assert a + b == a;
    } else {
      var b' := b[..|b| - 1];
      var last := b[|b| - 1];
      var ab := a + b;
      assert ab[..|ab| - 1] == a + b';
      assert ab[|ab| - 1] == last;
      WithoutProductAppend(a, b', id);
      if last.product.id != id {
        assert WithoutProduct(ab, id) == (WithoutProduct(a, id) + WithoutProduct(b', id)) + [last];
        assert WithoutProduct(b, id) == WithoutProduct(b', id) + [last];
      } else {
        assert WithoutProduct(b, id) == WithoutProduct(b', id);
      }
    }
  }

  /** A single line survives the filter exactly when it is of another product. */
  lemma WithoutProductSingle(x: CartItem, id: string)
    ensures WithoutProduct([x], id) == if x.product.id != id then [x] else []
  {
    assert [x][..0] == [];
  }

  /**
   * On a valid cart, removing the last unit of a product drops exactly its line
   * and leaves every other line, in order.
   */
  lemma RemoveDropsLine(cart: seq<CartItem>, id: string, j: nat)
    requires CartInv(cart)
    requires j < |cart| && cart[j].product.id == id && cart[j].quantity == 1
    ensures RemoveFromCart(cart, id) == cart[..j] + cart[j + 1..]
  {
    var f := Find(cart, id);
    assert HasProduct(cart, id);
    var k :| 0 <= k < |cart| && cart[k] == f.value
             && forall i :: 0 <= i < k ==> cart[i].product.id != id;
    assert k == j;
    var before := cart[..j];
    var after := cart[j + 1..];
    assert cart == before + [cart[j]] + after;
    assert !HasProduct(before, id) by {
      forall i | 0 <= i < |before| ensures before[i].product.id != id {
        assert before[i] == cart[i];
      }
    }
    assert !HasProduct(after, id) by {
      forall i | 0 <= i < |after| ensures after[i].product.id != id {
        assert after[i] == cart[j + 1 + i];
      }
    }
    WithoutProductAppend(before + [cart[j]], after, id);
    WithoutProductAppend(before, [cart[j]], id);
    WithoutProductSingle(cart[j], id);
    WithoutProductAbsent(before, id);
    WithoutProductAbsent(after, id);
  }

  /** Removing a product that is not in the cart changes nothing. */
  lemma {:induction false} RemoveAbsent(cart: seq<CartItem>, id: string)
    requires !HasProduct(cart, id)
    ensures RemoveFromCart(cart, id) == cart
    decreases |cart|
  {
    WithoutProductAbsent(cart, id);
  }

  lemma {:induction false} WithoutProductAbsent(cart: seq<CartItem>, id: string)
    requires !HasProduct(cart, id)
    ensures WithoutProduct(cart, id) == cart
    decreases |cart|
  {
    if cart != [] {
      var init := cart[..|cart| - 1];
      assert forall k :: 0 <= k < |init| ==> init[k] == cart[k];
      WithoutProductAbsent(init, id);
      assert cart == init + [cart[|cart| - 1]];
    }
  }

  /** Adding one unit and then removing one unit of the same product restores the cart. */
  lemma AddThenRemove(cart: seq<CartItem>, product: CatalogProduct)
    requires CartInv(cart)
    ensures RemoveFromCart(AddToCart(cart, product), product.id) == cart
  {
    var added := AddToCart(cart, product);
    if HasProduct(cart, product.id) {
      var f := Find(added, product.id);
      assert f.Some?;
      var j :| 0 <= j < |added| && added[j] == f.value;
      assert cart[j].product.id == product.id;
      assert f.value.quantity > 1;
      var r := RemoveFromCart(added, product.id);
      assert |r| == |cart|;
      forall k | 0 <= k < |cart| ensures r[k] == cart[k] {
      }
    } else {
      assert Find(added, product.id) == Some(CartItem(product, 1)) by {
        assert added[|cart|].product.id == product.id;
        var f := Find(added, product.id);
        assert f.Some?;
      }
      var init := WithoutProduct(cart, product.id);
      assert added[..|added| - 1] == cart;
      WithoutProductAbsent(cart, product.id);
    }
  }

  datatype CartOp = Add(product: CatalogProduct) | Remove(productId: string) | Clear

  function Apply(cart: seq<CartItem>, op: CartOp): seq<CartItem>
  {
    match op
    case Add(p) => AddToCart(cart, p)
    case Remove(id) => RemoveFromCart(cart, id)
    case Clear => ClearCart()
  }

  /** The cart after a sequence of user actions, starting from `cart`. */
  function Run(cart: seq<CartItem>, ops: seq<CartOp>): seq<CartItem>
    decreases |ops|
  {
    if ops == [] then cart else Run(Apply(cart, ops[0]), ops[1..])
  }

  /** Every cart reachable from the empty cart has unique ids and positive quantities. */
  lemma {:induction false} RunKeepsInv(cart: seq<CartItem>, ops: seq<CartOp>)
    requires CartInv(cart)
    ensures CartInv(Run(cart, ops))
    decreases |ops|
  {
    if ops != [] {
      match ops[0] {
        case Add(p) => AddKeepsInv(cart, p);
        case Remove(id) => RemoveKeepsInv(cart, id);
        case Clear =>
      }
      RunKeepsInv(Apply(cart, ops[0]), ops[1..]);
    }
  }

  lemma ReachableCartsValid(ops: seq<CartOp>)
    ensures CartInv(Run([], ops))
  {
    RunKeepsInv([], ops);
  }

  // ---------------------------------------------------------------------
  // Live totals
  // ---------------------------------------------------------------------

  datatype CartTotals = CartTotals(
    feePercent: real,
    grossTotal: real,
    totalCost: real,
    platformFee: real,
    netProfit: real,
    margin: real)

  /** The fee of the first platform with `platformId`, or 0 when none matches. */
  function SelectedFee(platforms: seq<PlatformOption>, platformId: string): (fee: real)
    ensures (forall k :: 0 <= k < |platforms| ==> platforms[k].id != platformId) ==> fee == 0.0
    ensures (exists k :: 0 <= k < |platforms| && platforms[k].id == platformId) ==>
              exists k :: 0 <= k < |platforms| && platforms[k].id == platformId
                          && fee == platforms[k].defaultFeePercent
                          && forall j :: 0 <= j < k ==> platforms[j].id != platformId
  {
    if platforms == [] then 0.0
    else if platforms[0].id == platformId then platforms[0].defaultFeePercent
    else
      var fee := SelectedFee(platforms[1..], platformId);
      assert forall k :: 1 <= k < |platforms| ==> platforms[k] == platforms[1..][k - 1];
      fee
  }

  function CartGross(cart: seq<CartItem>): real
  {
    if cart == [] then 0.0
    else CartGross(cart[..|cart| - 1]) + cart[|cart| - 1].product.salePrice * cart[|cart| - 1].quantity as real
  }

  function CartCost(cart: seq<CartItem>): real
  {
    if cart == [] then 0.0
    else CartCost(cart[..|cart| - 1]) + cart[|cart| - 1].product.estimatedCost * cart[|cart| - 1].quantity as real
  }

  /** The totals shown while the order is composed; the margin is 0 unless gross is positive. */
  function Totals(cart: seq<CartItem>, platforms: seq<PlatformOption>, platformId: string): (t: CartTotals)
    ensures t.grossTotal == CartGross(cart) && t.totalCost == CartCost(cart)
    ensures t.feePercent == SelectedFee(platforms, platformId)
    ensures t.platformFee == Calculations.PlatformFee(t.grossTotal, t.feePercent)
    ensures t.netProfit == Calculations.NetProfit(t.grossTotal, t.totalCost, t.platformFee)
    ensures t.netProfit == t.grossTotal * (1.0 - t.feePercent) - t.totalCost
    ensures t.grossTotal > 0.0 ==> t.margin == Calculations.Margin(t.netProfit, t.grossTotal)
    ensures t.grossTotal <= 0.0 ==> t.margin == 0.0
  {
    var feePercent := SelectedFee(platforms, platformId);
    var grossTotal := CartGross(cart);
    var totalCost := CartCost(cart);
    var platformFee := grossTotal * feePercent;
    var netProfit := grossTotal - totalCost - platformFee;
    var margin := if grossTotal > 0.0 then netProfit / grossTotal * 100.0 else 0.0;
    CartTotals(feePercent, grossTotal, totalCost, platformFee, netProfit, margin)
  }

  /** The items the page submits: one per cart line, with its product id and quantity. */
  function SubmitItems(cart: seq<CartItem>): (items: seq<Orders.ItemRequest>)
    ensures |items| == |cart|
    ensures forall k :: 0 <= k < |cart| ==>
              items[k] == Orders.ItemRequest(cart[k].product.id, cart[k].quantity as real)
  {
    seq(|cart|, k requires 0 <= k < |cart| =>
      Orders.ItemRequest(cart[k].product.id, cart[k].quantity as real))
  }

  /** The store holds every cart product at the price and cost the page shows. */
  predicate PricesAgree(cart: seq<CartItem>, products: map<string, Orders.ProductRecord>)
  {
    forall k :: 0 <= k < |cart| ==>
      && cart[k].product.id in products
      && products[cart[k].product.id].salePrice == cart[k].product.salePrice
      && products[cart[k].product.id].estimatedCost == cart[k].product.estimatedCost
  }

  /**
   * When the store's prices are the ones the page shows, the order the server
   * builds from the submitted cart has the gross and cost of the preview.
   */
  lemma {:induction false} PreviewMatchesOrder(cart: seq<CartItem>, products: map<string, Orders.ProductRecord>)
    requires PricesAgree(cart, products)
    ensures Orders.AllFound(SubmitItems(cart), products)
    ensures Orders.LineGross(Orders.SnapshotAll(SubmitItems(cart), products)) == CartGross(cart)
    ensures Orders.LineCost(Orders.SnapshotAll(SubmitItems(cart), products)) == CartCost(cart)
    decreases |cart|
  {
    if cart != [] {
      var init := cart[..|cart| - 1];
      assert PricesAgree(init, products);
      PreviewMatchesOrder(init, products);
      var lines := Orders.SnapshotAll(SubmitItems(cart), products);
      assert lines[..|lines| - 1] == Orders.SnapshotAll(SubmitItems(init), products);
    }
  }

  /** A non-empty reachable cart passes the order schema's item checks. */
  lemma SubmittedItemsValid(cart: seq<CartItem>)
    requires CartInv(cart) && |cart| >= 1
    ensures |SubmitItems(cart)| >= 1
    ensures forall k :: 0 <= k < |SubmitItems(cart)| ==> SubmitItems(cart)[k].quantity >= 1.0
  {
  }
}
