/**
 * The two handlers together: a checkout followed by the payment
 * provider's cancellation, and two worked purchases.
 */
module Scenarios {
  import opened Shop
  import opened Checkout
  import W = Webhook

  function NoCheckoutFaults(): Checkout.Faults {
    Checkout.Faults({}, {}, false, false, false, false)
  }

  function NoWebhookFaults(): W.Faults {
    W.Faults(false, {}, None, false)
  }

  /** The snapshot lines of a reservation ask of each product what the holds recorded for it. */
  lemma {:induction false} SnapshotQuantities(p0: map<string, Product>, lines: seq<CartLine>, items: seq<LineItem>, id: string)
    requires |items| == |lines|
    requires forall k :: 0 <= k < |lines| ==> lines[k].product in p0 && items[k] == Snapshot(p0, lines[k])
    ensures QuantityOf(items, id) == Held(HoldsFor(lines), id)
  {
    if |lines| > 0 {
      var n := |lines| - 1;
      SnapshotQuantities(p0, lines[..n], items[..n], id);
      assert HoldsFor(lines)[..n] == HoldsFor(lines[..n]);
    }
  }

  /** An order appended behind orders that do not name `pixId`, within the scan, is the one the lookup finds. */
  lemma FoundAtEnd(orders: seq<Order>, o: Order, pixId: string)
    requires |orders| < W.ScanLimit
    requires forall p <- orders :: !W.Matches(p, pixId)
    requires W.Matches(o, pixId)
    ensures W.FindOrder(W.Scanned(orders + [o]), pixId) == Some(|orders|)
  {
    var all := orders + [o];
    assert W.Scanned(all) == all;
    assert all[|orders|] == o;
    assert forall j :: 0 <= j < |orders| ==> all[j] == orders[j];
  }

  /**
   * What a checkout through the mock gateway leaves for the webhook: the
   * order appended last, naming the generated `pixId`, and every product's
   * stock down by exactly the quantities the order records.
   */
  lemma MockCheckout(t: Tables, req: Request, env: Env) returns (order: Order)
    requires CartFits(t, req, NoCheckoutFaults())
    requires !CheckCoupon(t.coupons, req.coupon, env.now, false).Refused?
    requires env.gateway.Unconfigured? && env.uuid != ""
    requires forall o <- t.orders :: o.id != env.orderId
    ensures var o := PlaceOrder(t, req, env, NoCheckoutFaults());
      && o.response.status == 200
      && o.tables.orders == t.orders + [order]
      && W.Matches(order, env.uuid)
      && o.tables.products.Keys == t.products.Keys
      && forall id :: id in t.products ==> Level(o.tables.products[id]) + QuantityOf(order.items, id) == Level(t.products[id])
  {
    var f := NoCheckoutFaults();
    var lines := Selected(req.items.value);
    ReachesSettle(t, req, env, f);
    order := InsertedOrder(t, req, env, f);
    PixAttached(t, req, env, f);
    PlacedOrderKeepsReservation(t, req, env, f);
    var r := Reserved(t, req, f);
    assert order.items == r.enriched;
    forall id | id in t.products
      ensures QuantityOf(order.items, id) == Held(HoldsFor(lines), id)
    {
      SnapshotQuantities(t.products, lines, order.items, id);
    }
  }

  /**
   * A checkout that goes through with the mock gateway, followed by a
   * `canceled` notification for its `pixId`, gives every product back its
   * stock level from before the checkout and leaves the new order
   * `cancelado`. It needs the new order within the first 1000 rows the
   * scan reads, and no earlier order naming the same `pixId`.
   */
  lemma CancelCompensatesCheckout(t: Tables, req: Request, env: Env)
    requires CartFits(t, req, NoCheckoutFaults())
    requires !CheckCoupon(t.coupons, req.coupon, env.now, false).Refused?
    requires env.gateway.Unconfigured? && env.uuid != ""
    requires |t.orders| < W.ScanLimit
    requires forall o <- t.orders :: o.id != env.orderId && !W.Matches(o, env.uuid)
    ensures var placed := PlaceOrder(t, req, env, NoCheckoutFaults()).tables;
      var cancelled := W.Reconcile(placed, true, W.Notice(Some(env.uuid), Some("canceled")), NoWebhookFaults());
      && cancelled.response == Response(200, Ack)
      && cancelled.tables.products.Keys == t.products.Keys
      && (forall id :: id in t.products ==> Level(cancelled.tables.products[id]) == Level(t.products[id]))
      && |cancelled.tables.orders| == |t.orders| + 1
      && PaymentOf(cancelled.tables.orders[|t.orders|]).status == Some("cancelado")
  {
    var placed := PlaceOrder(t, req, env, NoCheckoutFaults()).tables;
    var order := MockCheckout(t, req, env);
    FoundAtEnd(t.orders, order, env.uuid);
    W.CancelRestoresStock(placed, W.Notice(Some(env.uuid), Some("canceled")), NoWebhookFaults());
  }

  /**
   * The lookup reads only the first 1000 orders, so once the table holds
   * that many orders none of which names the new `pixId`, every
   * notification for an order placed afterwards is answered 404 and changes nothing.
   */
  lemma LateOrderNotFound(t: Tables, req: Request, env: Env, status: Option<string>)
    requires CartFits(t, req, NoCheckoutFaults())
    requires !CheckCoupon(t.coupons, req.coupon, env.now, false).Refused?
    requires env.gateway.Unconfigured? && env.uuid != ""
    requires |t.orders| >= W.ScanLimit
    requires forall o <- t.orders :: o.id != env.orderId && !W.Matches(o, env.uuid)
    ensures var placed := PlaceOrder(t, req, env, NoCheckoutFaults()).tables;
      W.Reconcile(placed, true, W.Notice(Some(env.uuid), status), NoWebhookFaults())
        == Outcome(placed, Response(404, Error("Order not found")))
  {
    var placed := PlaceOrder(t, req, env, NoCheckoutFaults()).tables;
    var order := MockCheckout(t, req, env);
    assert W.Scanned(placed.orders) == t.orders[..W.ScanLimit];
    W.UnknownPixIdNotFound(placed, W.Notice(Some(env.uuid), status), NoWebhookFaults());
  }

  /**
   * Two units of a 1000-cent product with 5 in stock, no coupon, flat
   * shipping 1500 below a 10000 threshold: the order totals 3500 and the
   * stock drops to 3.
   */
  lemma PurchaseWithFlatShipping()
    ensures var t := Tables(map["A" := Product("A", 1000, Some(5))], map[], []);
      var req := Request(Some([CartLine("A", 2, None)]), "addr", None);
      var env := Env("user", 0, 1500, 10000, "order", "pix", Unconfigured);
      var o := PlaceOrder(t, req, env, NoCheckoutFaults());
      && o.response.status == 200
      && |o.tables.orders| == 1
      && o.tables.orders[0].totalCents == 3500
      && o.tables.orders[0].shippingCents == 1500
      && "A" in o.tables.products && o.tables.products["A"].stock == Some(3)
  {
    var t := Tables(map["A" := Product("A", 1000, Some(5))], map[], []);
    var req := Request(Some([CartLine("A", 2, None)]), "addr", None);
    var env := Env("user", 0, 1500, 10000, "order", "pix", Unconfigured);
    var lines := Selected(req.items.value);
    assert lines == [CartLine("A", 2, None)];
    assert LineFits(t.products, lines, NoCheckoutFaults(), 0) by {
      assert HoldsFor(lines[..0]) == [];
    }
    OrderRecorded(t, req, env, NoCheckoutFaults());
    PlacedOrderKeepsReservation(t, req, env, NoCheckoutFaults());
    PixAttached(t, req, env, NoCheckoutFaults());
    var placed := PlaceOrder(t, req, env, NoCheckoutFaults()).tables.orders[0];
    assert placed.items == [LineItem("A", "A", 1000, 2)];
    assert Subtotal(placed.items) == 2000 by {
      assert placed.items[..0] == [];
    }
    assert HoldsFor(lines) == [Hold("A", 2)];
    assert Held(HoldsFor(lines), "A") == 2 by {
      assert HoldsFor(lines)[..0] == [];
    }
  }

  /** The same cart with only 1 in stock: 400 naming the product, and the stock stays at 1. */
  lemma PurchaseOutOfStock()
    ensures var t := Tables(map["A" := Product("A", 1000, Some(1))], map[], []);
      var req := Request(Some([CartLine("A", 2, None)]), "addr", None);
      var env := Env("user", 0, 1500, 10000, "order", "pix", Unconfigured);
      var o := PlaceOrder(t, req, env, NoCheckoutFaults());
      && o.response == Response(400, Error("Estoque insuficiente para A"))
      && o.tables == t
  {
    var t := Tables(map["A" := Product("A", 1000, Some(1))], map[], []);
    var req := Request(Some([CartLine("A", 2, None)]), "addr", None);
    var lines := Selected(req.items.value);
    assert lines == [CartLine("A", 2, None)];
    assert ReserveUpTo(t.products, lines, NoCheckoutFaults(), 0) == Reserving(Reservation(t.products, [], 0, []));
    assert Level(t.products["A"]) == 1 && t.products["A"].title == "A";
    assert "Estoque insuficiente para " + "A" == "Estoque insuficiente para A";
    assert ReserveUpTo(t.products, lines, NoCheckoutFaults(), 1) == Halted(t.products, Response(400, Error("Estoque insuficiente para A")));
  }
}
