/**
 * The `POST /create` purchase saga: keep the checked cart lines, reserve
 * stock line by line, validate and consume the coupon, price shipping,
 * insert the order and attach a PIX payment, with the compensations the
 * handler performs (and the ones it does not).
 */
module Checkout {
  import opened Shop

  /** One posted cart line: `{ product, quantity, checked }`; `checked` may be absent. */
  datatype CartLine = CartLine(product: string, quantity: int, checked: Option<bool>)

  /** The request body. `items` may be missing; an absent or empty `coupon` means no coupon. */
  datatype Request = Request(items: Option<seq<CartLine>>, address: string, coupon: Option<string>)

  /** What creating the PIX payment yields. */
  datatype Gateway =
    | Unconfigured                 // no gateway key: a mock payload is built locally
    | Responded(reply: PixPayload) // the gateway answered with this payload
    | Unavailable                  // the gateway call threw

  /**
   * Everything the handler takes from outside the request: the
   * authenticated user, the clock (milliseconds), the two shipping
   * settings, the id the orders table assigns, a fresh uuid and the gateway.
   */
  datatype Env = Env(
    userId: string,
    now: int,
    shippingFlatCents: int,
    freeShippingOverCents: int,
    orderId: string,
    uuid: string,
    gateway: Gateway)

  /** Which storage calls return an error. Line indices count the selected lines. */
  datatype Faults = Faults(
    productReadFails: set<nat>,
    stockWriteFails: set<nat>,
    couponReadFails: bool,
    couponWriteFails: bool,
    orderInsertFails: bool,
    paymentWriteFails: bool)

  /** The mock payment expires thirty minutes after it is created. */
  const PixExpiryMillis: int := 1000 * 60 * 30

  // ---------------------------------------------------------------------
  // Cart selection

  /** A line is paid for unless `checked` is exactly `false`. */
  predicate IsSelected(line: CartLine) {
    line.checked != Some(false)
  }

  /** `items.filter(i => i.checked !== false)` */
  function Selected(items: seq<CartLine>): (r: seq<CartLine>)
    ensures |r| <= |items|
    ensures forall l :: l in r <==> l in items && IsSelected(l)
  {
    if items == [] then []
    else
      var rest := Selected(items[1..]);
      assert forall l :: l in items <==> l == items[0] || l in items[1..];
      if IsSelected(items[0]) then [items[0]] + rest else rest
  }

  /** Filtering a concatenation filters each part and keeps them in order. */
  lemma {:induction false} SelectedAppend(a: seq<CartLine>, b: seq<CartLine>)
    ensures Selected(a + b) == Selected(a) + Selected(b)
  {
    if a != [] {
      SelectedAppend(a[1..], b);
      assert (a + b)[0] == a[0];
      assert (a + b)[1..] == a[1..] + b;
      var head := if IsSelected(a[0]) then [a[0]] else [];
      assert Selected(a) == head + Selected(a[1..]);
      assert Selected(a + b) == head + (Selected(a[1..]) + Selected(b));
    } else {
      assert a + b == b;
    }
  }

  /** A single line is kept exactly when it is selected. */
  lemma SelectedSingleton(l: CartLine)
    ensures Selected([l]) == if IsSelected(l) then [l] else []
  {
    assert [l][1..] == [];
  }

  /** Nothing is selected exactly when every line is explicitly unchecked. */
  lemma {:induction false} NoneSelectedIff(items: seq<CartLine>)
    ensures |Selected(items)| == 0 <==> forall k :: 0 <= k < |items| ==> items[k].checked == Some(false)
  {
    if items != [] {
      NoneSelectedIff(items[1..]);
      assert forall k :: 1 <= k < |items| ==> items[k] == items[1..][k - 1];
    }
  }

  // ---------------------------------------------------------------------
  // Stock reservation

  /** An entry of `toRestore`: stock taken from a product by this checkout. */
  datatype Hold = Hold(productId: string, restoreQty: int)

  /** The loop's accumulators: the products table, `enriched`, `total` and `toRestore`. */
  datatype Reservation = Reservation(products: map<string, Product>, enriched: seq<LineItem>, subtotal: int, toRestore: seq<Hold>)

  /** Either the loop is still reserving, or it returned early with a reply. */
  datatype Progress = Reserving(res: Reservation) | Halted(products: map<string, Product>, response: Response)

  /** The snapshot taken of a line: the product's title and price when it was read. */
  function Snapshot(products: map<string, Product>, line: CartLine): LineItem
    requires line.product in products
  {
    LineItem(line.product, products[line.product].title, products[line.product].priceCents, line.quantity)
  }

  /** The holds the first lines of a cart would record, one per line. */
  function HoldsFor(lines: seq<CartLine>): (hs: seq<Hold>)
    ensures |hs| == |lines|
  {
    seq(|lines|, k requires 0 <= k < |lines| => Hold(lines[k].product, lines[k].quantity))
  }

  /** Total quantity a sequence of holds takes from one product. */
  function Held(hs: seq<Hold>, id: string): int {
    if hs == [] then 0
    else Held(hs[..|hs| - 1], id) + (if hs[|hs| - 1].productId == id then hs[|hs| - 1].restoreQty else 0)
  }

  /** Line `k` of the selected cart, handled against the current reservation. */
  function ReserveLine(r: Reservation, it: CartLine, k: nat, f: Faults): Progress {
    if k in f.productReadFails then Halted(r.products, Response(500, StorageError))
    else if it.product !in r.products then Halted(r.products, Response(400, Error("Produto inválido: " + it.product)))
    else
      var p := r.products[it.product];
      if Level(p) < it.quantity then Halted(r.products, Response(400, Error("Estoque insuficiente para " + p.title)))
      else if k in f.stockWriteFails then Halted(r.products, Response(500, StorageError))
      else Reserving(Reservation(
        r.products[it.product := p.(stock := Some(Level(p) - it.quantity))],
        r.enriched + [LineItem(it.product, p.title, p.priceCents, it.quantity)],
        r.subtotal + p.priceCents * it.quantity,
        r.toRestore + [Hold(it.product, it.quantity)]))
  }

  /** The reservation loop after its first `n` iterations, starting from the products `p0`. */
  function ReserveUpTo(p0: map<string, Product>, lines: seq<CartLine>, f: Faults, n: nat): Progress
    requires n <= |lines|
  {
    if n == 0 then Reserving(Reservation(p0, [], 0, []))
    else
      var prev := ReserveUpTo(p0, lines, f, n - 1);
      if prev.Halted? then prev else ReserveLine(prev.res, lines[n - 1], n - 1, f)
  }

  /** Line `k` goes through: no storage error, a known product, and enough stock left after the earlier lines. */
  predicate LineFits(p0: map<string, Product>, lines: seq<CartLine>, f: Faults, k: nat)
    requires k < |lines|
  {
    && k !in f.productReadFails
    && k !in f.stockWriteFails
    && lines[k].product in p0
    && Level(p0[lines[k].product]) - Held(HoldsFor(lines[..k]), lines[k].product) >= lines[k].quantity
  }

  /** Sum of price times quantity over snapshot lines. */
  function Subtotal(items: seq<LineItem>): int {
    if items == [] then 0
    else Subtotal(items[..|items| - 1]) + items[|items| - 1].priceCents * items[|items| - 1].quantity
  }

  // ---------------------------------------------------------------------
  // Compensation: `stock + restoreQty` for every hold, in order

  /** One compensating write; a product that is gone is left alone. */
  function Bump(m: map<string, Product>, h: Hold): map<string, Product> {
    if h.productId in m then m[h.productId := m[h.productId].(stock := Some(Level(m[h.productId]) + h.restoreQty))]
    else m
  }

  function RestockUpTo(m: map<string, Product>, hs: seq<Hold>, n: nat): map<string, Product>
    requires n <= |hs|
  {
    if n == 0 then m else Bump(RestockUpTo(m, hs, n - 1), hs[n - 1])
  }

  function Restock(m: map<string, Product>, hs: seq<Hold>): map<string, Product> {
    RestockUpTo(m, hs, |hs|)
  }

  /** `after` holds the same products as `before`, with the same titles, prices and stock levels. */
  predicate StockRestored(before: map<string, Product>, after: map<string, Product>) {
    && after.Keys == before.Keys
    && forall id :: id in before ==>
         && after[id].title == before[id].title
         && after[id].priceCents == before[id].priceCents
         && Level(after[id]) == Level(before[id])
  }

  // ---------------------------------------------------------------------
  // Coupon

  predicate Expired(c: Coupon, now: int) {
    c.validUntil.Some? && c.validUntil.value < now
  }

  /** `max_uses` is set (null and 0 both mean unlimited) and already reached. */
  predicate Exhausted(c: Coupon) {
    c.maxUses.Some? && c.maxUses.value != 0 && OrZero(c.used) >= c.maxUses.value
  }

  datatype Verdict = NoCoupon | Refused(message: string) | Usable(code: string, coupon: Coupon)

  /** The coupon checks, in the handler's order. */
  function CheckCoupon(coupons: map<string, Coupon>, code: Option<string>, now: int, readFails: bool): Verdict {
    if code.None? || code.value == "" then NoCoupon
    else if readFails || code.value !in coupons then Refused("Cupom inválido")
    else if Expired(coupons[code.value], now) then Refused("Cupom expirado")
    else if Exhausted(coupons[code.value]) then Refused("Cupom sem usos restantes")
    else Usable(code.value, coupons[code.value])
  }

  /** `Math.round(n / 100)`: the nearest integer, halves rounded up. */
  function RoundHundredths(n: int): (r: int)
    ensures 100 * r - 50 <= n < 100 * r + 50
  {
    (n + 50) / 100
  }

  /** A `percent` coupon takes that share of the subtotal; any other type takes its value. */
  function Discount(subtotal: int, c: Coupon): int {
    if c.kind == "percent" then RoundHundredths(subtotal * c.value) else c.value
  }

  /** `Math.max(0, x)` */
  function Max0(x: int): int {
    if x > 0 then x else 0
  }

  /** The coupon after `used: (c.used || 0) + 1`. */
  function Consumed(c: Coupon): Coupon {
    c.(used := Some(OrZero(c.used) + 1))
  }

  /** The price after the coupon step, what is recorded about the coupon, and the coupons table. */
  datatype Priced = Priced(total: int, applied: Option<CouponApplied>, coupons: map<string, Coupon>)

  function Price(subtotal: int, v: Verdict, coupons: map<string, Coupon>, writeFails: bool): Priced
    requires !v.Refused?
  {
    match v
    case NoCoupon => Priced(subtotal, None, coupons)
    case Usable(code, c) =>
      var d := Discount(subtotal, c);
      Priced(Max0(subtotal - d), Some(CouponApplied(code, d)), if writeFails then coupons else coupons[code := Consumed(c)])
  }

  // ---------------------------------------------------------------------
  // Shipping, the order record and the PIX payment

  function ShippingCents(total: int, env: Env): int {
    if total >= env.freeShippingOverCents then 0 else env.shippingFlatCents
  }

  function PendingPayment(): Payment {
    Payment(Some("pix"), Some("pendente"), None, None)
  }

  function NewOrder(env: Env, req: Request, items: seq<LineItem>, q: Priced): Order {
    var shipping := ShippingCents(q.total, env);
    Order(env.orderId, env.userId, items, req.address, q.total + shipping, Some(PendingPayment()), q.applied, shipping, "pedido feito")
  }

  function MockPix(pixId: string, amount: int, now: int): PixPayload {
    PixPayload(None, Some(pixId), Some(amount), Some(now + PixExpiryMillis), Some("PIX-QR-" + pixId))
  }

  /** A string field that JavaScript reads as true. */
  predicate Truthy(s: Option<string>) {
    s.Some? && s.value != ""
  }

  /** `efiResp.id || efiResp.pixId || uuidv4()` */
  function PixIdOf(reply: PixPayload, uuid: string): string {
    if Truthy(reply.id) then reply.id.value
    else if Truthy(reply.pixId) then reply.pixId.value
    else uuid
  }

  /** Merges `pixId` and `payload` into the order's payment record, unless that write fails. */
  function Attach(t: Tables, order: Order, pixId: string, payload: PixPayload, writeFails: bool): Tables {
    if writeFails then t
    else t.(orders := WithPayment(t.orders, order.id, PaymentOf(order).(pixId := Some(pixId), payload := Some(payload))))
  }

  function AttachPix(t: Tables, order: Order, env: Env, f: Faults): Outcome {
    match env.gateway
    case Unavailable => Outcome(t, Response(500, Error("Erro ao criar pagamento")))
    case Responded(reply) =>
      Outcome(Attach(t, order, PixIdOf(reply, env.uuid), reply, f.paymentWriteFails), Response(200, Placed(order.id, reply)))
    case Unconfigured =>
      var payload := MockPix(env.uuid, order.totalCents, env.now);
      Outcome(Attach(t, order, env.uuid, payload, f.paymentWriteFails), Response(200, Placed(order.id, payload)))
  }

  // ---------------------------------------------------------------------
  // The whole saga

  /** Everything after a completed reservation loop; `t.products` is the reserved stock. */
  function Settle(t: Tables, r: Reservation, req: Request, env: Env, f: Faults): Outcome {
    var v := CheckCoupon(t.coupons, req.coupon, env.now, f.couponReadFails);
    if v.Refused? then Outcome(t.(products := Restock(t.products, r.toRestore)), Response(400, Error(v.message)))
    else
      var q := Price(r.subtotal, v, t.coupons, f.couponWriteFails);
      var order := NewOrder(env, req, r.enriched, q);
      if f.orderInsertFails then Outcome(Tables(Restock(t.products, r.toRestore), q.coupons, t.orders), Response(500, StorageError))
      else AttachPix(Tables(t.products, q.coupons, t.orders + [order]), order, env, f)
  }

  /** The tables after a checkout request and the reply it gets. */
  function PlaceOrder(t: Tables, req: Request, env: Env, f: Faults): Outcome {
    if req.items.None? || |req.items.value| == 0 then Outcome(t, Response(400, Error("Carrinho vazio")))
    else
      var lines := Selected(req.items.value);
      if |lines| == 0 then Outcome(t, Response(400, Error("Selecione itens para pagamento")))
      else
        var progress := ReserveUpTo(t.products, lines, f, |lines|);
        if progress.Halted? then Outcome(t.(products := progress.products), progress.response)
        else Settle(t.(products := progress.res.products), progress.res, req, env, f)
  }

  // ---------------------------------------------------------------------
  // The handler

  /** Adds every hold back to its product's stock, one write per hold. */
  method RestoreStock(db: Store, toRestore: seq<Hold>)
    modifies db
    ensures db.products == Restock(old(db.products), toRestore)
    ensures db.coupons == old(db.coupons) && db.orders == old(db.orders)
  {
    ghost var m0 := db.products;
    for i := 0 to |toRestore|
      invariant db.products == RestockUpTo(m0, toRestore, i)
      invariant db.coupons == old(db.coupons) && db.orders == old(db.orders)
    {
      var r := toRestore[i];
      if r.productId in db.products {
        var p := db.products[r.productId];
        db.products := db.products[r.productId := p.(stock := Some(Level(p) + r.restoreQty))];
      }
    }
  }

  /** The reservation loop: lines 21-35 of the handler. */
  method ReserveLines(db: Store, checked: seq<CartLine>, f: Faults)
      returns (halt: Option<Response>, enriched: seq<LineItem>, total: int, toRestore: seq<Hold>)
    modifies db
    ensures var progress := ReserveUpTo(old(db.products), checked, f, |checked|);
      && (progress.Halted? <==> halt.Some?)
      && (progress.Halted? ==> db.products == progress.products && halt.value == progress.response)
      && (progress.Reserving? ==> progress.res == Reservation(db.products, enriched, total, toRestore))
    ensures db.coupons == old(db.coupons) && db.orders == old(db.orders)
  {
    total, enriched, toRestore := 0, [], [];
    ghost var p0 := db.products;
    var i := 0;
    while i < |checked|
      invariant 0 <= i <= |checked|
      invariant ReserveUpTo(p0, checked, f, i) == Reserving(Reservation(db.products, enriched, total, toRestore))
      invariant db.coupons == old(db.coupons) && db.orders == old(db.orders)
    {
      var it := checked[i];
      if i in f.productReadFails {
        halt := Some(Response(500, StorageError));
        HaltIsFinal(p0, checked, f, i + 1);
        return;
      }
      if it.product !in db.products {
        halt := Some(Response(400, Error("Produto inválido: " + it.product)));
        HaltIsFinal(p0, checked, f, i + 1);
        return;
      }
      var p := db.products[it.product];
      if Level(p) < it.quantity {
        halt := Some(Response(400, Error("Estoque insuficiente para " + p.title)));
        HaltIsFinal(p0, checked, f, i + 1);
        return;
      }
      enriched := enriched + [LineItem(it.product, p.title, p.priceCents, it.quantity)];
      total := total + p.priceCents * it.quantity;
      if i in f.stockWriteFails {
        halt := Some(Response(500, StorageError));
        HaltIsFinal(p0, checked, f, i + 1);
        return;
      }
      db.products := db.products[it.product := p.(stock := Some(Level(p) - it.quantity))];
      toRestore := toRestore + [Hold(it.product, it.quantity)];
      i := i + 1;
    }
    halt := None;
  }

  /** Creates the PIX payment and merges it into the new order's payment record: lines 89-107. */
  method AttachPayment(db: Store, order: Order, env: Env, f: Faults) returns (resp: Response)
    modifies db
    ensures db.Contents() == AttachPix(old(db.Contents()), order, env, f).tables
    ensures resp == AttachPix(old(db.Contents()), order, env, f).response
  {
    match env.gateway
    case Unavailable =>
      resp := Response(500, Error("Erro ao criar pagamento"));
    case Responded(reply) =>
      if !f.paymentWriteFails {
        db.orders := WithPayment(db.orders, order.id, PaymentOf(order).(pixId := Some(PixIdOf(reply, env.uuid)), payload := Some(reply)));
      }
      resp := Response(200, Placed(order.id, reply));
    case Unconfigured =>
      var pixId := env.uuid;
      var pixPayload := PixPayload(None, Some(pixId), Some(order.totalCents), Some(env.now + PixExpiryMillis), Some("PIX-QR-" + pixId));
      if !f.paymentWriteFails {
        db.orders := WithPayment(db.orders, order.id, PaymentOf(order).(pixId := Some(pixId), payload := Some(pixPayload)));
      }
      resp := Response(200, Placed(order.id, pixPayload));
  }

  /** Coupon, shipping, order insert and payment, once every line is reserved: lines 37-107. */
  method CompleteOrder(db: Store, req: Request, env: Env, f: Faults, enriched: seq<LineItem>, subtotal: int, toRestore: seq<Hold>)
      returns (resp: Response)
    modifies db
    ensures var r := Reservation(old(db.products), enriched, subtotal, toRestore);
      db.Contents() == Settle(old(db.Contents()), r, req, env, f).tables
    ensures var r := Reservation(old(db.products), enriched, subtotal, toRestore);
      resp == Settle(old(db.Contents()), r, req, env, f).response
  {
    var total := subtotal;
    var couponApplied: Option<CouponApplied> := None;
    if req.coupon.Some? && req.coupon.value != "" {
      var code := req.coupon.value;
      if f.couponReadFails || code !in db.coupons {
        RestoreStock(db, toRestore);
        return Response(400, Error("Cupom inválido"));
      }
      var c := db.coupons[code];
      if Expired(c, env.now) {
        RestoreStock(db, toRestore);
        return Response(400, Error("Cupom expirado"));
      }
      if Exhausted(c) {
        RestoreStock(db, toRestore);
        return Response(400, Error("Cupom sem usos restantes"));
      }
      var discount := Discount(total, c);
      total := Max0(total - discount);
      couponApplied := Some(CouponApplied(code, discount));
      if !f.couponWriteFails {
        db.coupons := db.coupons[code := Consumed(c)];
      }
    }

    var shippingCents := ShippingCents(total, env);
    var totalWithShipping := total + shippingCents;
    var order := Order(env.orderId, env.userId, enriched, req.address, totalWithShipping,
                       Some(PendingPayment()), couponApplied, shippingCents, "pedido feito");
    if f.orderInsertFails {
      RestoreStock(db, toRestore);
      return Response(500, StorageError);
    }
    db.orders := db.orders + [order];
    resp := AttachPayment(db, order, env, f);
  }

  /** The `POST /create` handler. */
  method CreateOrder(db: Store, req: Request, env: Env, f: Faults) returns (resp: Response)
    modifies db
    ensures db.Contents() == PlaceOrder(old(db.Contents()), req, env, f).tables
    ensures resp == PlaceOrder(old(db.Contents()), req, env, f).response
  {
    if req.items.None? || |req.items.value| == 0 {
      return Response(400, Error("Carrinho vazio"));
    }
    var checked := Selected(req.items.value);
    if |checked| == 0 {
      return Response(400, Error("Selecione itens para pagamento"));
    }
    var halt, enriched, total, toRestore := ReserveLines(db, checked, f);
    if halt.Some? {
      return halt.value;
    }
    resp := CompleteOrder(db, req, env, f, enriched, total, toRestore);
  }

  // ---------------------------------------------------------------------
  // Lemmas about the reservation loop and its compensation

  /** Once the loop has returned early, later lines change nothing. */
  lemma {:induction false} HaltIsFinal(p0: map<string, Product>, lines: seq<CartLine>, f: Faults, n: nat)
    requires n <= |lines|
    requires ReserveUpTo(p0, lines, f, n).Halted?
    ensures ReserveUpTo(p0, lines, f, |lines|) == ReserveUpTo(p0, lines, f, n)
    decreases |lines| - n
  {
    if n < |lines| {
      HaltIsFinal(p0, lines, f, n + 1);
    }
  }

  lemma HoldsForPrefix(lines: seq<CartLine>, n: nat)
    requires 0 < n <= |lines|
    ensures HoldsFor(lines[..n]) == HoldsFor(lines[..n - 1]) + [Hold(lines[n - 1].product, lines[n - 1].quantity)]
  {
  }

  /**
   * After `n` completed iterations the table has the same products, titles
   * and prices, `toRestore` records one hold per line, and each product's
   * stock has dropped by exactly what those holds take from it.
   */
  lemma {:induction false} StockLedger(p0: map<string, Product>, lines: seq<CartLine>, f: Faults, n: nat)
    requires n <= |lines|
    requires ReserveUpTo(p0, lines, f, n).Reserving?
    ensures var r := ReserveUpTo(p0, lines, f, n).res;
      && r.products.Keys == p0.Keys
      && r.toRestore == HoldsFor(lines[..n])
      && (forall id :: id in p0 ==>
            && r.products[id].title == p0[id].title
            && r.products[id].priceCents == p0[id].priceCents
            && Level(r.products[id]) == Level(p0[id]) - Held(r.toRestore, id))
  {
    if n > 0 {
      var prev := ReserveUpTo(p0, lines, f, n - 1);
      assert prev.Reserving?;
      StockLedger(p0, lines, f, n - 1);
      ReserveLineShape(prev.res, lines[n - 1], n - 1, f);
      HoldsForPrefix(lines, n);
      StockStep(p0, prev.res, lines[n - 1], n - 1, f);
    }
  }

  /**
   * After `n` completed iterations `enriched` snapshots the first `n` lines
   * in input order, with the title and price each product had before the
   * checkout, and `total` is their price times quantity.
   */
  lemma {:induction false} SnapshotLedger(p0: map<string, Product>, lines: seq<CartLine>, f: Faults, n: nat)
    requires n <= |lines|
    requires ReserveUpTo(p0, lines, f, n).Reserving?
    ensures var r := ReserveUpTo(p0, lines, f, n).res;
      && |r.enriched| == n
      && (forall k :: 0 <= k < n ==> lines[k].product in p0 && r.enriched[k] == Snapshot(p0, lines[k]))
      && r.subtotal == Subtotal(r.enriched)
  {
    if n > 0 {
      var prev := ReserveUpTo(p0, lines, f, n - 1);
      assert prev.Reserving?;
      assert ReserveUpTo(p0, lines, f, n) == ReserveLine(prev.res, lines[n - 1], n - 1, f);
      SnapshotLedger(p0, lines, f, n - 1);
      StockLedger(p0, lines, f, n - 1);
      SnapshotStep(p0, lines, prev.res, n - 1, f);
    }
  }

  /** Both ledgers of the reservation loop after `n` completed iterations. */
  lemma ReservationLedger(p0: map<string, Product>, lines: seq<CartLine>, f: Faults, n: nat)
    requires n <= |lines|
    requires ReserveUpTo(p0, lines, f, n).Reserving?
    ensures var r := ReserveUpTo(p0, lines, f, n).res;
      && r.products.Keys == p0.Keys
      && r.toRestore == HoldsFor(lines[..n])
      && |r.enriched| == n
      && (forall k :: 0 <= k < n ==> lines[k].product in p0 && r.enriched[k] == Snapshot(p0, lines[k]))
      && r.subtotal == Subtotal(r.enriched)
      && (forall id :: id in p0 ==>
            && r.products[id].title == p0[id].title
            && r.products[id].priceCents == p0[id].priceCents
            && Level(r.products[id]) == Level(p0[id]) - Held(r.toRestore, id))
  {
    StockLedger(p0, lines, f, n);
    SnapshotLedger(p0, lines, f, n);
  }

  /** One more line keeps each product's stock down by exactly what the holds record for it. */
  lemma StockStep(p0: map<string, Product>, prev: Reservation, it: CartLine, k: nat, f: Faults)
    requires ReserveLine(prev, it, k, f).Reserving?
    requires prev.products.Keys == p0.Keys
    requires forall id :: id in p0 ==>
      && prev.products[id].title == p0[id].title
      && prev.products[id].priceCents == p0[id].priceCents
      && Level(prev.products[id]) == Level(p0[id]) - Held(prev.toRestore, id)
    ensures var r := ReserveLine(prev, it, k, f).res;
      && r.products.Keys == p0.Keys
      && forall id :: id in p0 ==>
           && r.products[id].title == p0[id].title
           && r.products[id].priceCents == p0[id].priceCents
           && Level(r.products[id]) == Level(p0[id]) - Held(r.toRestore, id)
  {
    ReserveLineShape(prev, it, k, f);
    var r := ReserveLine(prev, it, k, f).res;
    forall id | id in p0
      ensures Level(r.products[id]) == Level(p0[id]) - Held(r.toRestore, id)
    {
      HeldAppend(prev.toRestore, Hold(it.product, it.quantity), id);
    }
  }

  /** One more line appends its snapshot, taken with the title and price the product had before checkout. */
  lemma SnapshotStep(p0: map<string, Product>, lines: seq<CartLine>, prev: Reservation, k: nat, f: Faults)
    requires k < |lines|
    requires ReserveLine(prev, lines[k], k, f).Reserving?
    requires forall id :: id in prev.products ==> id in p0 && prev.products[id].title == p0[id].title && prev.products[id].priceCents == p0[id].priceCents
    requires |prev.enriched| == k
    requires forall j :: 0 <= j < k ==> lines[j].product in p0 && prev.enriched[j] == Snapshot(p0, lines[j])
    requires prev.subtotal == Subtotal(prev.enriched)
    ensures var r := ReserveLine(prev, lines[k], k, f).res;
      && |r.enriched| == k + 1
      && (forall j :: 0 <= j < k + 1 ==> lines[j].product in p0 && r.enriched[j] == Snapshot(p0, lines[j]))
      && r.subtotal == Subtotal(r.enriched)
  {
    ReserveLineShape(prev, lines[k], k, f);
    var r := ReserveLine(prev, lines[k], k, f).res;
    SubtotalAppend(prev.enriched, r.enriched[k]);
    forall j | 0 <= j < k + 1
      ensures lines[j].product in p0 && r.enriched[j] == Snapshot(p0, lines[j])
    {
      if j < k {
        assert r.enriched[j] == prev.enriched[j];
      }
    }
  }

  /** A line that goes through takes its quantity from its product and appends its snapshot, price and hold. */
  lemma ReserveLineShape(r: Reservation, it: CartLine, k: nat, f: Faults)
    requires ReserveLine(r, it, k, f).Reserving?
    ensures k !in f.productReadFails && k !in f.stockWriteFails
    ensures it.product in r.products && Level(r.products[it.product]) >= it.quantity
    ensures var p := r.products[it.product];
      ReserveLine(r, it, k, f).res == Reservation(
        r.products[it.product := p.(stock := Some(Level(p) - it.quantity))],
        r.enriched + [LineItem(it.product, p.title, p.priceCents, it.quantity)],
        r.subtotal + p.priceCents * it.quantity,
        r.toRestore + [Hold(it.product, it.quantity)])
  {
  }

  lemma HeldAppend(hs: seq<Hold>, h: Hold, id: string)
    ensures Held(hs + [h], id) == Held(hs, id) + (if h.productId == id then h.restoreQty else 0)
  {
    assert (hs + [h])[..|hs|] == hs;
  }

  lemma SubtotalAppend(items: seq<LineItem>, item: LineItem)
    ensures Subtotal(items + [item]) == Subtotal(items) + item.priceCents * item.quantity
  {
    assert (items + [item])[..|items|] == items;
  }

  /** Line `n` goes through exactly when it fits; the first `n` lines all go through exactly when each fits. */
  lemma {:induction false} ReservationSucceedsIff(p0: map<string, Product>, lines: seq<CartLine>, f: Faults, n: nat)
    requires n <= |lines|
    ensures ReserveUpTo(p0, lines, f, n).Reserving? <==> forall k :: 0 <= k < n ==> LineFits(p0, lines, f, k)
  {
    if n > 0 {
      ReservationSucceedsIff(p0, lines, f, n - 1);
      var prev := ReserveUpTo(p0, lines, f, n - 1);
      if prev.Reserving? {
        NextLineIff(p0, lines, f, n);
      }
    }
  }

  /** Once the first `n - 1` lines went through, line `n - 1` goes through exactly when it fits. */
  lemma NextLineIff(p0: map<string, Product>, lines: seq<CartLine>, f: Faults, n: nat)
    requires 0 < n <= |lines|
    requires ReserveUpTo(p0, lines, f, n - 1).Reserving?
    ensures ReserveUpTo(p0, lines, f, n).Reserving? <==> LineFits(p0, lines, f, n - 1)
  {
    var prev := ReserveUpTo(p0, lines, f, n - 1);
    assert ReserveUpTo(p0, lines, f, n) == ReserveLine(prev.res, lines[n - 1], n - 1, f);
    StockLedger(p0, lines, f, n - 1);
    LineGoesThroughIff(p0, lines, f, prev.res, n - 1);
  }

  /** With the ledger facts for the first `k` lines, line `k` goes through exactly when it fits. */
  lemma LineGoesThroughIff(p0: map<string, Product>, lines: seq<CartLine>, f: Faults, r: Reservation, k: nat)
    requires k < |lines|
    requires r.products.Keys == p0.Keys
    requires forall id :: id in p0 ==>
      && r.products[id].title == p0[id].title
      && Level(r.products[id]) == Level(p0[id]) - Held(HoldsFor(lines[..k]), id)
    ensures ReserveLine(r, lines[k], k, f).Reserving? <==> LineFits(p0, lines, f, k)
  {
  }

  /** The compensation loop adds each hold's quantity back to its product, and touches nothing else. */
  lemma {:induction false} RestockLedger(m: map<string, Product>, hs: seq<Hold>, n: nat)
    requires n <= |hs|
    ensures RestockUpTo(m, hs, n).Keys == m.Keys
    ensures forall id :: id in m ==>
      && RestockUpTo(m, hs, n)[id].title == m[id].title
      && RestockUpTo(m, hs, n)[id].priceCents == m[id].priceCents
      && Level(RestockUpTo(m, hs, n)[id]) == Level(m[id]) + Held(hs[..n], id)
  {
    if n > 0 {
      RestockLedger(m, hs, n - 1);
      assert hs[..n][..n - 1] == hs[..n - 1];
    }
  }

  /** Compensating every hold of a completed reservation gives back the stock levels before checkout. */
  lemma ReleaseUndoesReservation(p0: map<string, Product>, lines: seq<CartLine>, f: Faults, n: nat)
    requires n <= |lines|
    requires ReserveUpTo(p0, lines, f, n).Reserving?
    ensures var r := ReserveUpTo(p0, lines, f, n).res;
      StockRestored(p0, Restock(r.products, r.toRestore))
  {
    var r := ReserveUpTo(p0, lines, f, n).res;
    StockLedger(p0, lines, f, n);
    RestockLedger(r.products, r.toRestore, |r.toRestore|);
    assert r.toRestore[..|r.toRestore|] == r.toRestore;
  }

  // ---------------------------------------------------------------------
  // Lemmas about the whole request

  /** A missing or empty cart, or one where every line is unchecked, gets 400 and changes nothing. */
  lemma NothingSelectedRejected(t: Tables, req: Request, env: Env, f: Faults)
    requires req.items.None? || forall k :: 0 <= k < |req.items.value| ==> req.items.value[k].checked == Some(false)
    ensures PlaceOrder(t, req, env, f).tables == t
    ensures PlaceOrder(t, req, env, f).response.status == 400
    ensures PlaceOrder(t, req, env, f).response.body ==
      if req.items.None? || req.items.value == [] then Error("Carrinho vazio") else Error("Selecione itens para pagamento")
  {
    if req.items.Some? {
      NoneSelectedIff(req.items.value);
    }
  }

  /** Every selected line of the request goes through the reservation loop. */
  predicate CartFits(t: Tables, req: Request, f: Faults) {
    && req.items.Some?
    && |Selected(req.items.value)| > 0
    && forall k :: 0 <= k < |Selected(req.items.value)| ==> LineFits(t.products, Selected(req.items.value), f, k)
  }

  /** The reservation that a fitting cart completes with. */
  function Reserved(t: Tables, req: Request, f: Faults): Reservation
    requires CartFits(t, req, f)
  {
    var lines := Selected(req.items.value);
    ReservationSucceedsIff(t.products, lines, f, |lines|);
    ReserveUpTo(t.products, lines, f, |lines|).res
  }

  /**
   * A fitting cart reaches the coupon step with every selected line
   * snapshotted and its stock taken; from there the saga is `Settle`.
   */
  lemma ReachesSettle(t: Tables, req: Request, env: Env, f: Faults)
    requires CartFits(t, req, f)
    ensures var r := Reserved(t, req, f); var lines := Selected(req.items.value);
      && PlaceOrder(t, req, env, f) == Settle(t.(products := r.products), r, req, env, f)
      && r.products.Keys == t.products.Keys
      && r.toRestore == HoldsFor(lines)
      && |r.enriched| == |lines|
      && (forall k :: 0 <= k < |lines| ==> lines[k].product in t.products && r.enriched[k] == Snapshot(t.products, lines[k]))
      && r.subtotal == Subtotal(r.enriched)
      && (forall id :: id in t.products ==> Level(r.products[id]) == Level(t.products[id]) - Held(HoldsFor(lines), id))
      && StockRestored(t.products, Restock(r.products, r.toRestore))
  {
    var lines := Selected(req.items.value);
    ReservationSucceedsIff(t.products, lines, f, |lines|);
    ReservationLedger(t.products, lines, f, |lines|);
    ReleaseUndoesReservation(t.products, lines, f, |lines|);
    assert lines[..|lines|] == lines;
  }

  /** A fitting cart hands its completed reservation to the coupon step. */
  lemma SettlesAfterReserving(t: Tables, req: Request, env: Env, f: Faults)
    requires CartFits(t, req, f)
    ensures var r := Reserved(t, req, f);
      PlaceOrder(t, req, env, f) == Settle(t.(products := r.products), r, req, env, f)
  {
    var lines := Selected(req.items.value);
    ReservationSucceedsIff(t.products, lines, f, |lines|);
  }

  /**
   * When the first `k` selected lines went through and line `k` does not,
   * the reply is the one for the first check line `k` fails, in the loop's
   * order: a product read error (500), an unknown product (400), too little
   * stock (400 naming the product) or a stock write error (500). Nothing
   * is given back: the earlier lines stay reserved and line `k` takes nothing.
   */
  lemma EarlyReturnKeepsEarlierReservations(t: Tables, req: Request, env: Env, f: Faults, k: nat)
    requires req.items.Some?
    requires k < |Selected(req.items.value)|
    requires forall j :: 0 <= j < k ==> LineFits(t.products, Selected(req.items.value), f, j)
    requires !LineFits(t.products, Selected(req.items.value), f, k)
    ensures var lines := Selected(req.items.value); var id := lines[k].product; var o := PlaceOrder(t, req, env, f);
      && o.response == (
           if k in f.productReadFails then Response(500, StorageError)
           else if id !in t.products then Response(400, Error("Produto inválido: " + id))
           else if Level(t.products[id]) - Held(HoldsFor(lines[..k]), id) < lines[k].quantity
             then Response(400, Error("Estoque insuficiente para " + t.products[id].title))
           else Response(500, StorageError))
      && o.tables.coupons == t.coupons
      && o.tables.orders == t.orders
      && o.tables.products.Keys == t.products.Keys
      && forall id :: id in t.products ==>
           Level(o.tables.products[id]) == Level(t.products[id]) - Held(HoldsFor(lines[..k]), id)
  {
    var lines := Selected(req.items.value);
    assert lines[k] in req.items.value;
    ReservationSucceedsIff(t.products, lines, f, k);
    StockLedger(t.products, lines, f, k);
    assert ReserveUpTo(t.products, lines, f, k + 1).Halted?;
    HaltIsFinal(t.products, lines, f, k + 1);
  }

  /** A completed reservation and then a refused coupon: 400, and stock, coupons and orders are as before. */
  lemma CouponRefusalRestoresStock(t: Tables, req: Request, env: Env, f: Faults)
    requires CartFits(t, req, f)
    requires req.coupon.Some? && req.coupon.value != ""
    requires var code := req.coupon.value;
      f.couponReadFails || code !in t.coupons || Expired(t.coupons[code], env.now) || Exhausted(t.coupons[code])
    ensures var o := PlaceOrder(t, req, env, f); var code := req.coupon.value;
      && o.response.status == 400
      && o.response.body == (
           if f.couponReadFails || code !in t.coupons then Error("Cupom inválido")
           else if Expired(t.coupons[code], env.now) then Error("Cupom expirado")
           else Error("Cupom sem usos restantes"))
      && StockRestored(t.products, o.tables.products)
      && o.tables.coupons == t.coupons
      && o.tables.orders == t.orders
  {
    ReachesSettle(t, req, env, f);
  }

  /** A usable coupon is consumed exactly once, whatever happens to the order afterwards. */
  lemma CouponUseCounted(t: Tables, req: Request, env: Env, f: Faults)
    requires CartFits(t, req, f)
    requires CheckCoupon(t.coupons, req.coupon, env.now, f.couponReadFails).Usable?
    ensures var code := req.coupon.value;
      && code in t.coupons
      && !Expired(t.coupons[code], env.now) && !Exhausted(t.coupons[code])
      && PlaceOrder(t, req, env, f).tables.coupons ==
           if f.couponWriteFails then t.coupons
           else t.coupons[code := t.coupons[code].(used := Some(OrZero(t.coupons[code].used) + 1))]
  {
    var r := Reserved(t, req, f);
    SettlesAfterReserving(t, req, env, f);
    SettleCoupons(t.(products := r.products), r, req, env, f);
  }

  /** Past a usable or absent coupon, the coupons table is the one the pricing step leaves. */
  lemma SettleCoupons(t: Tables, r: Reservation, req: Request, env: Env, f: Faults)
    requires !CheckCoupon(t.coupons, req.coupon, env.now, f.couponReadFails).Refused?
    ensures Settle(t, r, req, env, f).tables.coupons ==
      Price(r.subtotal, CheckCoupon(t.coupons, req.coupon, env.now, f.couponReadFails), t.coupons, f.couponWriteFails).coupons
  {
  }

  /** Appending an order with a fresh id and then writing its payment changes only that order. */
  lemma AppendThenPay(orders: seq<Order>, order: Order, p: Payment)
    requires forall o <- orders :: o.id != order.id
    ensures WithPayment(orders + [order], order.id, p) == orders + [order.(payment := Some(p))]
  {
  }

  /** Past the coupon step, a successful insert leaves exactly one new order at the end of the table. */
  lemma InsertedOrder(t: Tables, req: Request, env: Env, f: Faults) returns (placed: Order)
    requires CartFits(t, req, f)
    requires !CheckCoupon(t.coupons, req.coupon, env.now, f.couponReadFails).Refused?
    requires !f.orderInsertFails
    requires forall o <- t.orders :: o.id != env.orderId
    ensures var o := PlaceOrder(t, req, env, f).tables;
      o.orders == t.orders + [placed] && o.products == Reserved(t, req, f).products
    ensures var r := Reserved(t, req, f);
      var q := Price(r.subtotal, CheckCoupon(t.coupons, req.coupon, env.now, f.couponReadFails), t.coupons, f.couponWriteFails);
      placed == NewOrder(env, req, r.enriched, q).(payment := placed.payment)
    ensures PaymentOf(placed).kind == Some("pix") && PaymentOf(placed).status == Some("pendente")
  {
    ReachesSettle(t, req, env, f);
    var r := Reserved(t, req, f);
    var v := CheckCoupon(t.coupons, req.coupon, env.now, f.couponReadFails);
    var q := Price(r.subtotal, v, t.coupons, f.couponWriteFails);
    var order := NewOrder(env, req, r.enriched, q);
    match env.gateway
    case Unavailable =>
      placed := order;
    case Responded(reply) =>
      var p := PaymentOf(order).(pixId := Some(PixIdOf(reply, env.uuid)), payload := Some(reply));
      AppendThenPay(t.orders, order, p);
      placed := if f.paymentWriteFails then order else order.(payment := Some(p));
    case Unconfigured =>
      var p := PaymentOf(order).(pixId := Some(env.uuid), payload := Some(MockPix(env.uuid, order.totalCents, env.now)));
      AppendThenPay(t.orders, order, p);
      placed := if f.paymentWriteFails then order else order.(payment := Some(p));
  }

  /**
   * A successful insert appends one order: the snapshot of every selected
   * line in input order, `pedido feito`, a pending PIX payment, and as its
   * total the discounted subtotal plus shipping, shipping being free
   * exactly at or above the threshold.
   */
  lemma OrderRecorded(t: Tables, req: Request, env: Env, f: Faults)
    requires CartFits(t, req, f)
    requires !CheckCoupon(t.coupons, req.coupon, env.now, f.couponReadFails).Refused?
    requires !f.orderInsertFails
    requires forall o <- t.orders :: o.id != env.orderId
    ensures var o := PlaceOrder(t, req, env, f).tables; var lines := Selected(req.items.value);
      && |o.orders| == |t.orders| + 1
      && o.orders[..|t.orders|] == t.orders
      && var placed := o.orders[|t.orders|];
      && placed.id == env.orderId && placed.userId == env.userId && placed.address == req.address
      && placed.status == "pedido feito"
      && PaymentOf(placed).kind == Some("pix")
      && PaymentOf(placed).status == Some("pendente")
      && |placed.items| == |lines|
      && (forall k :: 0 <= k < |lines| ==> lines[k].product in t.products && placed.items[k] == Snapshot(t.products, lines[k]))
      && var afterDiscount := placed.totalCents - placed.shippingCents;
      && placed.shippingCents == (if afterDiscount >= env.freeShippingOverCents then 0 else env.shippingFlatCents)
      && match CheckCoupon(t.coupons, req.coupon, env.now, f.couponReadFails)
         case NoCoupon => placed.couponApplied.None? && afterDiscount == Subtotal(placed.items)
         case Usable(code, c) =>
           var d := Discount(Subtotal(placed.items), c);
           placed.couponApplied == Some(CouponApplied(code, d)) && afterDiscount == Max0(Subtotal(placed.items) - d)
         case Refused(_) => false
  {
    ReachesSettle(t, req, env, f);
    var placed := InsertedOrder(t, req, env, f);
    var o := PlaceOrder(t, req, env, f).tables;
    assert o.orders[..|t.orders|] == t.orders;
    assert o.orders[|t.orders|] == placed;
  }

  /** Once the order is inserted, every product's stock stays down by what the cart took, whether or not the payment is created. */
  lemma PlacedOrderKeepsReservation(t: Tables, req: Request, env: Env, f: Faults)
    requires CartFits(t, req, f)
    requires !CheckCoupon(t.coupons, req.coupon, env.now, f.couponReadFails).Refused?
    requires !f.orderInsertFails
    ensures var o := PlaceOrder(t, req, env, f).tables; var lines := Selected(req.items.value);
      && o.products.Keys == t.products.Keys
      && forall id :: id in t.products ==> Level(o.products[id]) == Level(t.products[id]) - Held(HoldsFor(lines), id)
  {
    ReachesSettle(t, req, env, f);
  }

  /**
   * When the payment is created, the reply carries its payload and the
   * order's payment record keeps `pix`/`pendente` and gains `pixId` and
   * `payload`; the mock payload's amount is the order total and its QR
   * text is `PIX-QR-<pixId>`.
   */
  lemma PixAttached(t: Tables, req: Request, env: Env, f: Faults)
    requires CartFits(t, req, f)
    requires !CheckCoupon(t.coupons, req.coupon, env.now, f.couponReadFails).Refused?
    requires !f.orderInsertFails
    requires forall o <- t.orders :: o.id != env.orderId
    requires !env.gateway.Unavailable?
    ensures var o := PlaceOrder(t, req, env, f);
      && |o.tables.orders| == |t.orders| + 1
      && o.response.status == 200
      && o.response.body.Placed?
      && o.response.body.orderId == env.orderId
      && (env.gateway.Responded? ==> o.response.body.pix == env.gateway.reply)
      && var placed := o.tables.orders[|t.orders|];
      && (env.gateway.Unconfigured? ==>
            o.response.body.pix == PixPayload(None, Some(env.uuid), Some(placed.totalCents), Some(env.now + 1800000), Some("PIX-QR-" + env.uuid)))
      && placed.payment == Some(
           if f.paymentWriteFails then Payment(Some("pix"), Some("pendente"), None, None)
           else Payment(Some("pix"), Some("pendente"), Some(PixIdOf(o.response.body.pix, env.uuid)), Some(o.response.body.pix)))
  {
    SettlesAfterReserving(t, req, env, f);
    var r := Reserved(t, req, f);
    var q := Price(r.subtotal, CheckCoupon(t.coupons, req.coupon, env.now, f.couponReadFails), t.coupons, f.couponWriteFails);
    var order := NewOrder(env, req, r.enriched, q);
    AttachPixAppended(r.products, q.coupons, t.orders, order, env, f);
  }

  /** The payment step on a freshly appended order: its reply, and the one order whose payment it fills in. */
  lemma AttachPixAppended(ps: map<string, Product>, cs: map<string, Coupon>, orders: seq<Order>, order: Order, env: Env, f: Faults)
    requires forall o <- orders :: o.id != order.id
    requires !env.gateway.Unavailable?
    ensures var pix := if env.gateway.Responded? then env.gateway.reply else MockPix(env.uuid, order.totalCents, env.now);
      var o := AttachPix(Tables(ps, cs, orders + [order]), order, env, f);
      && o.response == Response(200, Placed(order.id, pix))
      && o.tables == Tables(ps, cs, orders + [
           if f.paymentWriteFails then order
           else order.(payment := Some(PaymentOf(order).(pixId := Some(PixIdOf(pix, env.uuid)), payload := Some(pix))))])
  {
    var pix := if env.gateway.Responded? then env.gateway.reply else MockPix(env.uuid, order.totalCents, env.now);
    assert env.gateway.Unconfigured? ==> PixIdOf(pix, env.uuid) == env.uuid;
    AppendThenPay(orders, order, PaymentOf(order).(pixId := Some(PixIdOf(pix, env.uuid)), payload := Some(pix)));
  }

  /** A failed payment creation answers 500 but leaves the order in place with no payment attached. */
  lemma PaymentFailureKeepsOrder(t: Tables, req: Request, env: Env, f: Faults)
    requires CartFits(t, req, f)
    requires !CheckCoupon(t.coupons, req.coupon, env.now, f.couponReadFails).Refused?
    requires !f.orderInsertFails
    requires forall o <- t.orders :: o.id != env.orderId
    requires env.gateway.Unavailable?
    ensures var o := PlaceOrder(t, req, env, f);
      && o.response == Response(500, Error("Erro ao criar pagamento"))
      && |o.tables.orders| == |t.orders| + 1
      && o.tables.orders[..|t.orders|] == t.orders
      && o.tables.orders[|t.orders|].payment == Some(Payment(Some("pix"), Some("pendente"), None, None))
  {
    ReachesSettle(t, req, env, f);
    var placed := InsertedOrder(t, req, env, f);
    var o := PlaceOrder(t, req, env, f).tables;
    assert o.orders[..|t.orders|] == t.orders;
  }

  /**
   * A failed insert answers 500 and gives the stock back, with or without a
   * coupon; but a coupon that was consumed stays consumed.
   */
  lemma InsertFailureRestoresStockOnly(t: Tables, req: Request, env: Env, f: Faults)
    requires CartFits(t, req, f)
    requires !CheckCoupon(t.coupons, req.coupon, env.now, f.couponReadFails).Refused?
    requires f.orderInsertFails
    ensures var o := PlaceOrder(t, req, env, f);
      && o.response == Response(500, StorageError)
      && StockRestored(t.products, o.tables.products)
      && o.tables.orders == t.orders
    ensures CheckCoupon(t.coupons, req.coupon, env.now, f.couponReadFails).Usable? && !f.couponWriteFails ==>
        var o := PlaceOrder(t, req, env, f); var code := req.coupon.value;
        && code in t.coupons && code in o.tables.coupons
        && OrZero(o.tables.coupons[code].used) == OrZero(t.coupons[code].used) + 1
    ensures CheckCoupon(t.coupons, req.coupon, env.now, f.couponReadFails).NoCoupon? || f.couponWriteFails ==>
      PlaceOrder(t, req, env, f).tables.coupons == t.coupons
  {
    ReachesSettle(t, req, env, f);
  }

  /** For a non-negative subtotal and a percentage between 0 and 100, the discount is between 0 and the subtotal. */
  lemma PercentDiscountWithinSubtotal(subtotal: int, c: Coupon)
    requires c.kind == "percent"
    requires subtotal >= 0 && 0 <= c.value <= 100
    ensures 0 <= Discount(subtotal, c) <= subtotal
  {
    var n := subtotal * c.value;
    assert 0 <= n <= subtotal * 100 by {
      assert subtotal * c.value <= subtotal * 100;
    }
    var r := RoundHundredths(n);
    assert 100 * r - 50 <= n < 100 * r + 50;
  }
}
