/**
 * The `POST /efi/pix` payment notification handler: the signature gate,
 * the lookup of the order that carries the notified `pixId`, and the
 * confirm / cancel / ignore transitions, the cancel one giving the order's
 * items back to stock.
 */
module Webhook {
  import opened Shop

  /** The notification body: `{ pixId, status }`; either may be absent. */
  datatype Notice = Notice(pixId: Option<string>, status: Option<string>)

  /**
   * Which storage calls fail. `productReadFails` holds indices of order
   * items whose product read returns an error; `throwsAt` is the item
   * whose restoration throws, if any (an index past the last item means none).
   */
  datatype Faults = Faults(
    ordersReadFails: bool,
    productReadFails: set<nat>,
    throwsAt: Option<nat>,
    paymentWriteFails: bool)

  /** The scan reads at most this many orders. */
  const ScanLimit: nat := 1000

  /** The orders the scan sees, in table order. */
  function Scanned(orders: seq<Order>): seq<Order> {
    if |orders| <= ScanLimit then orders else orders[..ScanLimit]
  }

  /** The predicate given to `orders.find`: the payment names `pixId` directly or in its payload. */
  predicate Matches(o: Order, pixId: string) {
    && o.payment.Some?
    && (|| o.payment.value.pixId == Some(pixId)
        || (&& o.payment.value.payload.Some?
            && (|| o.payment.value.payload.value.id == Some(pixId)
                || o.payment.value.payload.value.pixId == Some(pixId))))
  }

  /** `orders.find(...)`, as a position: the first order that matches, if any. */
  function FindOrder(orders: seq<Order>, pixId: string): (k: Option<nat>)
    ensures k.Some? ==> k.value < |orders| && Matches(orders[k.value], pixId)
    ensures k.Some? ==> forall j :: 0 <= j < k.value ==> !Matches(orders[j], pixId)
    ensures k.None? <==> forall j :: 0 <= j < |orders| ==> !Matches(orders[j], pixId)
  {
    if orders == [] then None
    else if Matches(orders[0], pixId) then Some(0)
    else
      match FindOrder(orders[1..], pixId)
      case None => None
      case Some(j) => Some(j + 1)
  }

  datatype Transition = Confirm | Cancel | Ignore

  /** The provider's status strings the handler acts on. */
  function Classify(status: Option<string>): Transition {
    if status == Some("confirmed") || status == Some("confirmed_payment") || status == Some("paid") then Confirm
    else if status == Some("canceled") then Cancel
    else Ignore
  }

  /**
   * Gives one item back: the stock read (0 when the row is missing, the
   * stock is null or 0, or the read fails) plus the item's quantity is
   * written to the product; a product that is gone is left alone.
   */
  function RestockItem(ps: map<string, Product>, it: LineItem, readFails: bool): map<string, Product> {
    if it.product !in ps then ps
    else
      var base := if readFails then 0 else Level(ps[it.product]);
      ps[it.product := ps[it.product].(stock := Some(base + it.quantity))]
  }

  /** The products after the first `n` items have been given back. */
  function CancelUpTo(ps: map<string, Product>, items: seq<LineItem>, readFails: set<nat>, n: nat): map<string, Product>
    requires n <= |items|
  {
    if n == 0 then ps else RestockItem(CancelUpTo(ps, items, readFails, n - 1), items[n - 1], n - 1 in readFails)
  }

  /** How many items are given back before an exception ends the loop. */
  function Stop(items: seq<LineItem>, throwsAt: Option<nat>): nat {
    if throwsAt.Some? && throwsAt.value < |items| then throwsAt.value else |items|
  }

  /** `update({ payment: { ...(order.payment || {}), status } }).eq('id', order.id)`, unless it fails. */
  function SetPaymentStatus(t: Tables, order: Order, status: string, writeFails: bool): Tables {
    if writeFails then t
    else t.(orders := WithPayment(t.orders, order.id, PaymentOf(order).(status := Some(status))))
  }

  /** The state change a notification makes to the order it found. */
  function Apply(t: Tables, order: Order, tr: Transition, f: Faults): Tables {
    match tr
    case Confirm => SetPaymentStatus(t, order, "confirmado", f.paymentWriteFails)
    case Cancel =>
      var stop := Stop(order.items, f.throwsAt);
      var restocked := t.(products := CancelUpTo(t.products, order.items, f.productReadFails, stop));
      if stop < |order.items| then restocked else SetPaymentStatus(restocked, order, "cancelado", f.paymentWriteFails)
    case Ignore => t
  }

  /** The tables after a notification and the reply it gets. */
  function Reconcile(t: Tables, signatureOk: bool, n: Notice, f: Faults): Outcome {
    if !signatureOk then Outcome(t, Response(401, Error("Invalid signature")))
    else if n.pixId.None? || n.pixId.value == "" then Outcome(t, Response(400, Error("pixId required")))
    else if f.ordersReadFails then Outcome(t, Response(500, StorageError))
    else
      var scanned := Scanned(t.orders);
      var found := FindOrder(scanned, n.pixId.value);
      if found.None? then Outcome(t, Response(404, Error("Order not found")))
      else Outcome(Apply(t, scanned[found.value], Classify(n.status), f), Response(200, Ack))
  }

  // ---------------------------------------------------------------------
  // The handler

  /** The cancel branch's loop: gives each item back until one throws. */
  method RestoreItems(db: Store, items: seq<LineItem>, f: Faults) returns (completed: bool)
    modifies db
    ensures db.products == CancelUpTo(old(db.products), items, f.productReadFails, Stop(items, f.throwsAt))
    ensures completed <==> Stop(items, f.throwsAt) == |items|
    ensures db.coupons == old(db.coupons) && db.orders == old(db.orders)
  {
    ghost var p0 := db.products;
    var k := 0;
    while k < |items|
      invariant 0 <= k <= |items|
      invariant k <= Stop(items, f.throwsAt)
      invariant db.products == CancelUpTo(p0, items, f.productReadFails, k)
      invariant db.coupons == old(db.coupons) && db.orders == old(db.orders)
    {
      if f.throwsAt == Some(k) {
        return false;
      }
      var it := items[k];
      var base := if k in f.productReadFails || it.product !in db.products then 0 else Level(db.products[it.product]);
      if it.product in db.products {
        db.products := db.products[it.product := db.products[it.product].(stock := Some(base + it.quantity))];
      }
      k := k + 1;
    }
    return true;
  }

  /** The `POST /efi/pix` handler. */
  method HandlePixNotice(db: Store, signatureOk: bool, n: Notice, f: Faults) returns (resp: Response)
    modifies db
    ensures db.Contents() == Reconcile(old(db.Contents()), signatureOk, n, f).tables
    ensures resp == Reconcile(old(db.Contents()), signatureOk, n, f).response
  {
    if !signatureOk {
      return Response(401, Error("Invalid signature"));
    }
    if n.pixId.None? || n.pixId.value == "" {
      return Response(400, Error("pixId required"));
    }
    var pixId := n.pixId.value;
    if f.ordersReadFails {
      return Response(500, StorageError);
    }
    var orders := Scanned(db.orders);
    var found := FindOrder(orders, pixId);
    if found.None? {
      return Response(404, Error("Order not found"));
    }
    var order := orders[found.value];
    match Classify(n.status) {
      case Confirm =>
        if !f.paymentWriteFails {
          db.orders := WithPayment(db.orders, order.id, PaymentOf(order).(status := Some("confirmado")));
        }
      case Cancel =>
        var completed := RestoreItems(db, order.items, f);
        if completed && !f.paymentWriteFails {
          db.orders := WithPayment(db.orders, order.id, PaymentOf(order).(status := Some("cancelado")));
        }
      case Ignore =>
    }
    resp := Response(200, Ack);
  }

  // ---------------------------------------------------------------------
  // Lemmas

  /** A bad signature gets 401, a missing `pixId` 400; neither reads nor changes anything. */
  lemma RejectedBeforeLookup(t: Tables, signatureOk: bool, n: Notice, f: Faults)
    requires !signatureOk || n.pixId.None? || n.pixId.value == ""
    ensures Reconcile(t, signatureOk, n, f).tables == t
    ensures Reconcile(t, signatureOk, n, f).response.status == if !signatureOk then 401 else 400
  {
  }

  /** When no scanned order names the `pixId`, the reply is 404 and nothing changes. */
  lemma UnknownPixIdNotFound(t: Tables, n: Notice, f: Faults)
    requires n.pixId.Some? && n.pixId.value != "" && !f.ordersReadFails
    requires forall j :: 0 <= j < |Scanned(t.orders)| ==> !Matches(Scanned(t.orders)[j], n.pixId.value)
    ensures Reconcile(t, true, n, f) == Outcome(t, Response(404, Error("Order not found")))
  {
  }

  /** Any status other than the confirm and cancel words is acknowledged and changes nothing. */
  lemma OtherStatusIgnored(t: Tables, n: Notice, f: Faults)
    requires n.pixId.Some? && n.pixId.value != "" && !f.ordersReadFails
    requires FindOrder(Scanned(t.orders), n.pixId.value).Some?
    requires n.status != Some("confirmed") && n.status != Some("confirmed_payment") && n.status != Some("paid")
    requires n.status != Some("canceled")
    ensures Reconcile(t, true, n, f) == Outcome(t, Response(200, Ack))
  {
  }

  /**
   * A confirmation marks the found order's payment `confirmado`, keeps
   * every other payment field, whatever the status was before, and moves
   * no stock.
   */
  lemma ConfirmMarksPaid(t: Tables, n: Notice, f: Faults)
    requires n.pixId.Some? && n.pixId.value != "" && !f.ordersReadFails && !f.paymentWriteFails
    requires FindOrder(Scanned(t.orders), n.pixId.value).Some?
    requires Classify(n.status) == Confirm
    ensures var k := FindOrder(Scanned(t.orders), n.pixId.value).value; var o := Reconcile(t, true, n, f);
      && o.response == Response(200, Ack)
      && o.tables.products == t.products
      && o.tables.coupons == t.coupons
      && |o.tables.orders| == |t.orders|
      && o.tables.orders[k] == t.orders[k].(payment := o.tables.orders[k].payment)
      && PaymentOf(o.tables.orders[k]) == PaymentOf(t.orders[k]).(status := Some("confirmado"))
      && forall j :: 0 <= j < |t.orders| && t.orders[j].id != t.orders[k].id ==> o.tables.orders[j] == t.orders[j]
  {
    var k := FindOrder(Scanned(t.orders), n.pixId.value).value;
    assert Scanned(t.orders)[k] == t.orders[k];
  }

  /** The scan sees the same prefix of a table whose payment records were rewritten. */
  lemma ScannedWithPayment(orders: seq<Order>, id: string, p: Payment)
    ensures Scanned(WithPayment(orders, id, p)) == WithPayment(Scanned(orders), id, p)
  {
  }

  /**
   * Rewriting the found order's payment with its own `pixId` and payload
   * keeps the lookup on an order with the same id, and that order now
   * carries the new payment.
   */
  lemma LookupSurvivesPaymentWrite(orders: seq<Order>, pixId: string, s: string)
    requires FindOrder(orders, pixId).Some?
    ensures var k := FindOrder(orders, pixId).value;
      var p := PaymentOf(orders[k]).(status := Some(s));
      var after := WithPayment(orders, orders[k].id, p);
      && FindOrder(after, pixId).Some?
      && after[FindOrder(after, pixId).value].id == orders[k].id
      && PaymentOf(after[FindOrder(after, pixId).value]) == p
  {
    var k := FindOrder(orders, pixId).value;
    var id := orders[k].id;
    var p := PaymentOf(orders[k]).(status := Some(s));
    var after := WithPayment(orders, id, p);
    assert after[k] == orders[k].(payment := Some(p));
    assert Matches(after[k], pixId);
    var found := FindOrder(after, pixId);
    assert found.Some?;
    var k' := found.value;
    assert Matches(after[k'], pixId);
    assert k' <= k;
    assert k' < k ==> !Matches(orders[k'], pixId);
    assert after[k'].id == orders[k'].id;
  }

  /** Delivering the same confirmation twice leaves the tables as one delivery does. */
  lemma ConfirmIdempotent(t: Tables, n: Notice, f: Faults)
    requires Classify(n.status) == Confirm
    ensures var once := Reconcile(t, true, n, f).tables;
      Reconcile(once, true, n, f).tables == once
  {
    var once := Reconcile(t, true, n, f).tables;
    if n.pixId.Some? && n.pixId.value != "" && !f.ordersReadFails && !f.paymentWriteFails {
      var pixId := n.pixId.value;
      var scanned := Scanned(t.orders);
      if FindOrder(scanned, pixId).Some? {
        var k := FindOrder(scanned, pixId).value;
        var p := PaymentOf(scanned[k]).(status := Some("confirmado"));
        assert once.orders == WithPayment(t.orders, scanned[k].id, p);
        ScannedWithPayment(t.orders, scanned[k].id, p);
        LookupSurvivesPaymentWrite(scanned, pixId, "confirmado");
        var k' := FindOrder(Scanned(once.orders), pixId).value;
        assert Scanned(once.orders)[k'].id == scanned[k].id;
        assert PaymentOf(Scanned(once.orders)[k']).(status := Some("confirmado")) == p;
        assert WithPayment(once.orders, scanned[k].id, p) == once.orders;
      }
    }
  }

  /** With every read succeeding, giving back the first `n` items raises each product's stock by what those items ask of it. */
  lemma {:induction false} CancelLedger(ps: map<string, Product>, items: seq<LineItem>, readFails: set<nat>, n: nat)
    requires n <= |items|
    requires forall k :: 0 <= k < n ==> k !in readFails
    ensures CancelUpTo(ps, items, readFails, n).Keys == ps.Keys
    ensures forall id :: id in ps ==>
      && CancelUpTo(ps, items, readFails, n)[id].title == ps[id].title
      && CancelUpTo(ps, items, readFails, n)[id].priceCents == ps[id].priceCents
      && Level(CancelUpTo(ps, items, readFails, n)[id]) == Level(ps[id]) + QuantityOf(items[..n], id)
  {
    if n > 0 {
      CancelLedger(ps, items, readFails, n - 1);
      assert items[..n][..n - 1] == items[..n - 1];
    }
  }

  /**
   * A cancellation with no storage error gives every item of the found
   * order back to stock and marks its payment `cancelado`, whatever the
   * status was before.
   */
  lemma CancelRestoresStock(t: Tables, n: Notice, f: Faults)
    requires n.pixId.Some? && n.pixId.value != "" && !f.ordersReadFails && !f.paymentWriteFails
    requires f.productReadFails == {} && f.throwsAt.None?
    requires FindOrder(Scanned(t.orders), n.pixId.value).Some?
    requires Classify(n.status) == Cancel
    ensures var k := FindOrder(Scanned(t.orders), n.pixId.value).value; var o := Reconcile(t, true, n, f);
      && o.response == Response(200, Ack)
      && o.tables.coupons == t.coupons
      && o.tables.products.Keys == t.products.Keys
      && (forall id :: id in t.products ==>
            Level(o.tables.products[id]) == Level(t.products[id]) + QuantityOf(t.orders[k].items, id))
      && (forall id :: id in t.products ==>
            o.tables.products[id].title == t.products[id].title && o.tables.products[id].priceCents == t.products[id].priceCents)
      && |o.tables.orders| == |t.orders|
      && o.tables.orders[k] == t.orders[k].(payment := o.tables.orders[k].payment)
      && PaymentOf(o.tables.orders[k]) == PaymentOf(t.orders[k]).(status := Some("cancelado"))
      && forall j :: 0 <= j < |t.orders| && t.orders[j].id != t.orders[k].id ==> o.tables.orders[j] == t.orders[j]
  {
    var k := FindOrder(Scanned(t.orders), n.pixId.value).value;
    var items := t.orders[k].items;
    assert Scanned(t.orders)[k] == t.orders[k];
    CancelLedger(t.products, items, f.productReadFails, |items|);
    assert items[..|items|] == items;
  }

  /**
   * An exception while giving back item `stop` ends the branch: the items
   * before it are back in stock, the rest are not, the payment status is
   * not touched, and the reply is still `{ ok: true }`.
   */
  lemma CancelInterrupted(t: Tables, n: Notice, f: Faults)
    requires n.pixId.Some? && n.pixId.value != "" && !f.ordersReadFails
    requires f.productReadFails == {}
    requires FindOrder(Scanned(t.orders), n.pixId.value).Some?
    requires Classify(n.status) == Cancel
    requires var k := FindOrder(Scanned(t.orders), n.pixId.value).value;
      f.throwsAt.Some? && f.throwsAt.value < |t.orders[k].items|
    ensures var k := FindOrder(Scanned(t.orders), n.pixId.value).value; var o := Reconcile(t, true, n, f);
      && o.response == Response(200, Ack)
      && o.tables.orders == t.orders
      && o.tables.coupons == t.coupons
      && o.tables.products.Keys == t.products.Keys
      && forall id :: id in t.products ==>
           Level(o.tables.products[id]) == Level(t.products[id]) + QuantityOf(t.orders[k].items[..f.throwsAt.value], id)
  {
    var k := FindOrder(Scanned(t.orders), n.pixId.value).value;
    assert Scanned(t.orders)[k] == t.orders[k];
    CancelLedger(t.products, t.orders[k].items, f.productReadFails, f.throwsAt.value);
  }

  /**
   * A product read that fails in the cancel loop leaves no stock to add
   * to: the product's stock is overwritten with the item's quantity.
   */
  lemma ReadFailureOverwritesStock()
    ensures var item := LineItem("A", "A", 1000, 2);
      var t := Tables(map["A" := Product("A", 1000, Some(10))], map[],
        [Order("o", "u", [item], "addr", 3500, Some(Payment(Some("pix"), Some("pendente"), Some("x"), None)), None, 1500, "pedido feito")]);
      var o := Reconcile(t, true, Notice(Some("x"), Some("canceled")), Faults(false, {0}, None, false));
      && o.response == Response(200, Ack)
      && "A" in o.tables.products && o.tables.products["A"].stock == Some(2)
  {
  }

  /**
   * Cancellation is not idempotent: a second delivery of the same cancel
   * finds the same order and gives its items back a second time.
   */
  lemma CancelTwiceRestoresTwice(t: Tables, n: Notice, f: Faults)
    requires UniqueIds(t.orders)
    requires n.pixId.Some? && n.pixId.value != "" && !f.ordersReadFails && !f.paymentWriteFails
    requires f.productReadFails == {} && f.throwsAt.None?
    requires FindOrder(Scanned(t.orders), n.pixId.value).Some?
    requires Classify(n.status) == Cancel
    ensures var k := FindOrder(Scanned(t.orders), n.pixId.value).value;
      var twice := Reconcile(Reconcile(t, true, n, f).tables, true, n, f).tables;
      && twice.products.Keys == t.products.Keys
      && forall id :: id in t.products ==>
           Level(twice.products[id]) == Level(t.products[id]) + 2 * QuantityOf(t.orders[k].items, id)
  {
    var pixId := n.pixId.value;
    var scanned := Scanned(t.orders);
    var k := FindOrder(scanned, pixId).value;
    var once := Reconcile(t, true, n, f).tables;
    CancelRestoresStock(t, n, f);
    var p := PaymentOf(scanned[k]).(status := Some("cancelado"));
    assert scanned[k] == t.orders[k];
    assert once.orders == WithPayment(t.orders, scanned[k].id, p);
    ScannedWithPayment(t.orders, scanned[k].id, p);
    LookupSurvivesPaymentWrite(scanned, pixId, "cancelado");
    var k' := FindOrder(Scanned(once.orders), pixId).value;
    assert Scanned(once.orders)[k'] == once.orders[k'];
    assert once.orders[k'].id == t.orders[k].id;
    assert k' == k;
    assert once.orders[k].items == t.orders[k].items;
    CancelRestoresStock(once, n, f);
  }

  /** Nothing guards the current payment status: a confirmation after a cancellation marks the order `confirmado`. */
  lemma ConfirmAfterCancel(t: Tables, pixId: string, cancel: Notice, confirm: Notice, f: Faults)
    requires pixId != "" && !f.ordersReadFails && !f.paymentWriteFails
    requires f.productReadFails == {} && f.throwsAt.None?
    requires cancel == Notice(Some(pixId), Some("canceled"))
    requires confirm == Notice(Some(pixId), Some("paid"))
    requires FindOrder(Scanned(t.orders), pixId).Some?
    ensures var afterCancel := Reconcile(t, true, cancel, f).tables;
      var afterConfirm := Reconcile(afterCancel, true, confirm, f).tables;
      var k := FindOrder(Scanned(t.orders), pixId).value;
      && PaymentOf(afterCancel.orders[k]).status == Some("cancelado")
      && PaymentOf(afterConfirm.orders[k]).status == Some("confirmado")
  {
    var scanned := Scanned(t.orders);
    var k := FindOrder(scanned, pixId).value;
    CancelRestoresStock(t, cancel, f);
    var afterCancel := Reconcile(t, true, cancel, f).tables;
    var p := PaymentOf(scanned[k]).(status := Some("cancelado"));
    assert scanned[k] == t.orders[k];
    assert afterCancel.orders == WithPayment(t.orders, scanned[k].id, p);
    ScannedWithPayment(t.orders, scanned[k].id, p);
    LookupSurvivesPaymentWrite(scanned, pixId, "cancelado");
    var k' := FindOrder(Scanned(afterCancel.orders), pixId).value;
    assert Scanned(afterCancel.orders)[k'] == afterCancel.orders[k'];
    ConfirmMarksPaid(afterCancel, confirm, f);
  }
}
