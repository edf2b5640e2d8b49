/**
 * The store's persistent state as the two payment handlers see it: the
 * `products`, `coupons` and `orders` tables, the row shapes they hold, and
 * the HTTP-level reply a handler sends back.
 */
module Shop {

  datatype Option<+T> = None | Some(value: T) {
    function GetOr(default: T): T {
      if Some? then value else default
    }
  }

  /** A nullable numeric column read as `x || 0`. */
  function OrZero(x: Option<int>): int {
    x.GetOr(0)
  }

  /** A row of the `products` table, keyed by product id. `stock` may be null. */
  datatype Product = Product(title: string, priceCents: int, stock: Option<int>)

  /** The stock level both handlers act on: `p.stock || 0`. */
  function Level(p: Product): int {
    OrZero(p.stock)
  }

  /**
   * A row of the `coupons` table, keyed by its code. `kind` is its `type`
   * column; `validUntil` is a timestamp in milliseconds; `maxUses` and
   * `used` may be null.
   */
  datatype Coupon = Coupon(kind: string, value: int, validUntil: Option<int>, maxUses: Option<int>, used: Option<int>)

  /** An order line as snapshotted at checkout: the product's title and price at that moment. */
  datatype LineItem = LineItem(product: string, title: string, priceCents: int, quantity: int)

  /** The PIX payment payload, either the gateway's reply or the locally built mock. */
  datatype PixPayload = PixPayload(id: Option<string>, pixId: Option<string>, amount: Option<int>, expiresAt: Option<int>, qr: Option<string>)

  /** The JSON `payment` column of an order; every field may be absent. `kind` holds its `method` field. */
  datatype Payment = Payment(kind: Option<string>, status: Option<string>, pixId: Option<string>, payload: Option<PixPayload>)

  datatype CouponApplied = CouponApplied(code: string, discountCents: int)

  /** Total quantity a sequence of order lines asks of one product. */
  function QuantityOf(items: seq<LineItem>, id: string): int {
    if items == [] then 0
    else QuantityOf(items[..|items| - 1], id) + (if items[|items| - 1].product == id then items[|items| - 1].quantity else 0)
  }

  /** A row of the `orders` table. */
  datatype Order = Order(
    id: string,
    userId: string,
    items: seq<LineItem>,
    address: string,
    totalCents: int,
    payment: Option<Payment>,
    couponApplied: Option<CouponApplied>,
    shippingCents: int,
    status: string)

  /** `order.payment || {}` */
  function PaymentOf(o: Order): Payment {
    o.payment.GetOr(Payment(None, None, None, None))
  }

  /**
   * `update({ payment: p }).eq('id', id)` on the orders table: every row
   * carrying that id gets the new payment record, nothing else changes.
   */
  function WithPayment(orders: seq<Order>, id: string, p: Payment): (r: seq<Order>)
    ensures |r| == |orders|
    ensures forall k :: 0 <= k < |r| && orders[k].id != id ==> r[k] == orders[k]
    ensures forall k :: 0 <= k < |r| && orders[k].id == id ==> r[k] == orders[k].(payment := Some(p))
  {
    seq(|orders|, k requires 0 <= k < |orders| =>
      if orders[k].id == id then orders[k].(payment := Some(p)) else orders[k])
  }

  /** True when the order ids form a key of the table (the table's primary key). */
  predicate UniqueIds(orders: seq<Order>) {
    forall i, j :: 0 <= i < j < |orders| ==> orders[i].id != orders[j].id
  }

  /**
   * The body of a reply: an error message, a storage client's own error
   * message (not modelled), a placed order with its PIX payload, or `{ ok: true }`.
   */
  datatype Body = Error(message: string) | StorageError | Placed(orderId: string, pix: PixPayload) | Ack

  datatype Response = Response(status: int, body: Body)

  /** A value snapshot of the three tables. */
  datatype Tables = Tables(products: map<string, Product>, coupons: map<string, Coupon>, orders: seq<Order>)

  /** What a handler leaves behind: the tables afterwards and the reply it sent. */
  datatype Outcome = Outcome(tables: Tables, response: Response)

  /** The database the handlers share; each table is a field they reassign. */
  class Store {
    var products: map<string, Product>
    var coupons: map<string, Coupon>
    var orders: seq<Order>

    constructor (t: Tables)
      ensures Contents() == t
    {
      products, coupons, orders := t.products, t.coupons, t.orders;
    }

    function Contents(): Tables
      reads this
    {
      Tables(products, coupons, orders)
    }
  }
}
