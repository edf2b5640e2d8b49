# Checkout saga and PIX webhook: a Dafny model

This project models the two request handlers of a small e-commerce server
that move stock and money. Both work against three tables: `products`,
`coupons` and `orders`.

- **Checkout** (`POST /create`, module `Checkout`). The handler:
  - keeps the cart lines that are not explicitly unchecked;
  - reserves stock line by line, decrementing each product as it goes;
  - validates and consumes an optional coupon;
  - adds flat shipping below a free-shipping threshold;
  - inserts the order as `pedido feito` with a pending PIX payment;
  - attaches either the payment gateway's reply or a locally built mock payload.

  If the coupon is refused or the insert fails, it adds the reserved quantities back. In every other failure it leaves them taken.
- **Webhook** (`POST /efi/pix`, module `Webhook`). The handler:
  - checks the signature;
  - requires a `pixId`;
  - scans at most 1000 orders for the first one whose payment names that `pixId`;
  - then marks that payment `confirmado` on `confirmed`, `confirmed_payment` or `paid`;
  - or gives every item back to stock and marks it `cancelado` on `canceled`;
  - and acknowledges anything else unchanged.

Module `Shop` holds the row types, the reply type and the `Store` class whose
fields are the three tables. Each handler is modelled twice:

- as an imperative method that takes the `Store` and reassigns its
  fields (`Checkout.CreateOrder`, `Webhook.HandlePixNotice`), whose loops
  and early returns are proved to produce exactly the tables and the
  reply of a pure function (`Checkout.PlaceOrder`, `Webhook.Reconcile`);
- as those pure functions, about which the lemmas state what the
  handler guarantees.

Module `Scenarios` joins the two handlers: a checkout followed by its
cancellation, the scan limit, and two worked purchases.

Storage calls are modelled through a `Faults` record, which says which
reads and writes return an error. The clock, the order id the table
assigns, the fresh uuid, the gateway's outcome and the signature check are
parameters. Nullable columns are `Option` values read through `x || 0`
(`OrZero`, `Level`). An empty coupon code and an empty `pixId` count as
absent, as JavaScript truthiness has it.

The model follows the code as written, including these behaviours:

- Any early return in the middle of the reservation loop (a product read
  error, an unknown product, a shortage or a stock write error) returns
  without giving back the lines already reserved
  (`Checkout.EarlyReturnKeepsEarlierReservations`).
- Consuming the coupon does not re-check its use count, and a consumed
  coupon is not given back when the insert fails
  (`Checkout.InsertFailureRestoresStockOnly`).
- The order row records no separate subtotal; the discounted subtotal is
  `total_cents - shipping_cents`.
- The webhook has no guard on the current payment status. A repeated
  cancellation restocks twice (`Webhook.CancelTwiceRestoresTwice`), and a
  confirmation after a cancellation marks the order paid
  (`Webhook.ConfirmAfterCancel`).
- Status strings are the code's own: `pedido feito`, `pendente`,
  `confirmado`, `cancelado`.

## Model

| member | source | states |
|---|---|---|
| Shop.Store.constructor | server/src/routes/checkout.js:6 | the store starts with exactly the given products, coupons and orders |
| Shop.WithPayment | server/src/routes/webhook.js:36 | an update of `payment` filtered by order id rewrites the payment of every row with that id and leaves every other row unchanged |
| Checkout.Selected | server/src/routes/checkout.js:13 | the kept lines are exactly the posted lines whose `checked` is not `false`, and there are no more of them than were posted |
| Checkout.SelectedAppend | server/src/routes/checkout.js:13 | filtering a concatenation is the concatenation of the filtered parts, so the kept lines stay in input order and repeated lines stay repeated |
| Checkout.SelectedSingleton | server/src/routes/checkout.js:13 | a single line is kept exactly when its `checked` is not `false` |
| Checkout.NoneSelectedIff | server/src/routes/checkout.js:13-14 | nothing is kept exactly when every posted line has `checked` equal to `false` |
| Checkout.NothingSelectedRejected | server/src/routes/checkout.js:11-14 | a missing or empty cart gets 400 `Carrinho vazio`, and a cart with every line unchecked gets 400 `Selecione itens para pagamento`; no table changes |
| Checkout.HaltIsFinal | server/src/routes/checkout.js:23-33 | after an early return in the reservation loop, the later lines change nothing |
| Checkout.ReservationLedger | server/src/routes/checkout.js:21-35 | after `n` lines the reservation keeps: the same product set, titles and prices; one snapshot line per cart line in order, with the product's title and price at read time; a subtotal equal to the sum of price times quantity; one hold per line; and each product's stock lowered by exactly the quantity held for it |
| Checkout.StockLedger | server/src/routes/checkout.js:26-34 | after `n` lines the products table keeps its product set, titles and prices; one hold is recorded per line; and each product's stock is lowered by exactly the quantity held for it |
| Checkout.SnapshotLedger | server/src/routes/checkout.js:29-30 | after `n` lines `enriched` snapshots those lines in input order, with each product's title and price from before the checkout, and `total` is the sum of price times quantity |
| Checkout.NextLineIff | server/src/routes/checkout.js:22-33 | once the earlier lines went through, the next line goes through if and only if its read and write succeed, its product exists, and the stock left covers its quantity |
| Checkout.ReservationSucceedsIff | server/src/routes/checkout.js:21-35 | the first `n` lines all go through if and only if each line's product read and stock write succeed, its product exists, and its stock left after the earlier lines covers its quantity |
| Checkout.EarlyReturnKeepsEarlierReservations | server/src/routes/checkout.js:21-35 | when line `k` is the first that does not go through, the reply is the one for the first check it fails, in the loop's order: 500 for a product read error, 400 `Produto inválido: <id>`, 400 `Estoque insuficiente para <title>`, or 500 for a stock write error; coupons and orders are unchanged, and the lines before `k` stay reserved |
| Checkout.RestockLedger | server/src/routes/checkout.js:43 | the compensation loop raises each product's stock by the quantities held for it and changes nothing else, skipping products that no longer exist |
| Checkout.ReleaseUndoesReservation | server/src/routes/checkout.js:19-35 | compensating every hold of a completed reservation gives back each product's stock level from before the checkout |
| Checkout.RestoreStock | server/src/routes/checkout.js:85 | the compensation loop applies the holds in order, one write per hold, and touches neither coupons nor orders |
| Checkout.ReserveLines | server/src/routes/checkout.js:21-35 | the imperative reservation loop ends with the stock, snapshot lines, subtotal, holds and early reply of the reservation fold |
| Checkout.ReachesSettle | server/src/routes/checkout.js:16-63 | a cart whose lines all fit reaches the coupon step with every line snapshotted, its stock taken, and the holds undoing it |
| Checkout.SettlesAfterReserving | server/src/routes/checkout.js:16-37 | a cart whose lines all fit reaches the coupon step with the completed reservation |
| Checkout.CouponRefusalRestoresStock | server/src/routes/checkout.js:39-54 | an unknown, unreadable, expired or used-up coupon gets 400 with the matching message, checked in that order; stock levels, coupons and orders are as before the request |
| Checkout.CouponUseCounted | server/src/routes/checkout.js:46-62 | a usable coupon is one that exists, has not expired and is not used up; its `used` count goes up by one unless that write fails |
| Checkout.RoundHundredths | server/src/routes/checkout.js:57 | the percent discount is rounded to the nearest cent, halves rounded up |
| Checkout.PercentDiscountWithinSubtotal | server/src/routes/checkout.js:56-59 | a percent coupon between 0 and 100 takes between 0 and the whole subtotal |
| Checkout.InsertedOrder | server/src/routes/checkout.js:72-103 | a successful insert appends exactly one order, built from the snapshot lines and the priced total, with a `pix`/`pendente` payment; the stock stays reserved |
| Checkout.OrderRecorded | server/src/routes/checkout.js:56-82 | the new order has: the user, the address, `pedido feito`, a pending PIX payment and the snapshot of every selected line; its total is the subtotal less the discount, floored at 0, plus shipping; shipping is 0 exactly when the discounted subtotal reaches the free-shipping threshold, and the flat rate otherwise; `coupon_applied` holds the code and the discount |
| Checkout.PlacedOrderKeepsReservation | server/src/routes/checkout.js:82-107 | once the order is inserted, every product's stock stays down by what the cart took, whatever happens to the payment |
| Checkout.InsertFailureRestoresStockOnly | server/src/routes/checkout.js:56-87 | a failed insert answers 500, gives the stock back and adds no order, whether or not a coupon was used; a consumed coupon stays consumed, and without a coupon, or when its write failed, the coupons table is unchanged |
| Checkout.AppendThenPay | server/src/routes/checkout.js:82-102 | writing the payment of a freshly inserted order changes only that order |
| Checkout.PixAttached | server/src/routes/checkout.js:90-103 | the reply is 200 with the order id and the gateway's reply, or else the mock payload `{ pixId, amount: total, expiresAt: now + 30 min, qr: PIX-QR-<pixId> }`; the order's payment keeps `pix`/`pendente` and gains `pixId` and `payload`, where `pixId` is the reply's `id`, else its `pixId`, else a fresh uuid |
| Checkout.AttachPixAppended | server/src/routes/checkout.js:90-103 | on a freshly appended order, the payment step replies 200 with the gateway's reply or the mock payload, and fills in that order's `pixId` and `payload` unless the write fails |
| Checkout.PaymentFailureKeepsOrder | server/src/routes/checkout.js:104-107 | when creating the payment throws, the reply is 500 `Erro ao criar pagamento`, and the order stays inserted with a payment that is still pending |
| Checkout.AttachPayment | server/src/routes/checkout.js:89-107 | the imperative payment step leaves the tables and reply of the payment function |
| Checkout.CompleteOrder | server/src/routes/checkout.js:37-107 | the imperative steps after the reservation leave the tables and reply of the settle function |
| Checkout.CreateOrder | server/src/routes/checkout.js:9-108 | the imperative handler leaves exactly the tables and reply of `PlaceOrder` |
| Webhook.FindOrder | server/src/routes/webhook.js:20-24 | the lookup returns the first scanned order whose payment names the `pixId`, directly or in its payload, and returns none exactly when no scanned order does |
| Webhook.RejectedBeforeLookup | server/src/routes/webhook.js:11-15 | a bad signature gets 401, and a missing `pixId` gets 400; neither changes anything |
| Webhook.UnknownPixIdNotFound | server/src/routes/webhook.js:18-25 | when no order among the first 1000 names the `pixId`, the reply is 404 `Order not found` and nothing changes |
| Webhook.OtherStatusIgnored | server/src/routes/webhook.js:34-54 | any status other than the confirm and cancel words is acknowledged with `{ ok: true }` and changes nothing |
| Webhook.ConfirmMarksPaid | server/src/routes/webhook.js:34-37 | a confirmation sets the found order's payment status to `confirmado` and keeps the other payment fields; it changes no stock, no coupon and no other order |
| Webhook.ScannedWithPayment | server/src/routes/webhook.js:18-36 | rewriting a payment does not change which rows the 1000-row scan sees |
| Webhook.LookupSurvivesPaymentWrite | server/src/routes/webhook.js:20-36 | after the found order's payment status is rewritten, the same `pixId` still finds an order with that id, and that order carries the new payment |
| Webhook.ConfirmIdempotent | server/src/routes/webhook.js:34-37 | delivering the same confirmation twice leaves the tables as one delivery does |
| Webhook.CancelLedger | server/src/routes/webhook.js:45-49 | with every product read succeeding, giving back the first `n` items raises each product's stock by what those items ask of it, keeps titles and prices, and skips missing products |
| Webhook.CancelRestoresStock | server/src/routes/webhook.js:42-51 | a cancellation with no storage error gives every item of the found order back to stock, keeping titles and prices, and sets its payment status to `cancelado`, keeping the other payment fields; coupons and orders with another id are unchanged |
| Webhook.ReadFailureOverwritesStock | server/src/routes/webhook.js:46-48 | when the product read fails during a cancellation, the stock is overwritten with the item's quantity: a product with 10 in stock and an item of 2 ends at 2 |
| Webhook.CancelInterrupted | server/src/routes/webhook.js:44-51 | an exception while giving back an item leaves the earlier items restocked, the later ones not, and the payment status untouched; the reply is still 200 |
| Webhook.CancelTwiceRestoresTwice | server/src/routes/webhook.js:42-51 | a second delivery of the same cancellation finds the same order and gives its items back a second time |
| Webhook.ConfirmAfterCancel | server/src/routes/webhook.js:34-51 | nothing guards the current status: a payment confirmation after a cancellation marks the order `confirmado` |
| Webhook.RestoreItems | server/src/routes/webhook.js:44-49 | the imperative restock loop leaves the products of the restock fold up to the first item that throws, and reports whether it got through every item |
| Webhook.HandlePixNotice | server/src/routes/webhook.js:8-59 | the imperative handler leaves exactly the tables and reply of `Reconcile` |
| Scenarios.SnapshotQuantities | server/src/routes/checkout.js:29-34 | the quantities an order records per product equal the quantities its reservation held |
| Scenarios.FoundAtEnd | server/src/routes/webhook.js:18-24 | an order appended within the first 1000 rows, behind orders that do not name its `pixId`, is the one the lookup finds |
| Scenarios.MockCheckout | server/src/routes/checkout.js:82-103 | a checkout through the mock gateway appends one order naming the new `pixId`, and lowers each product's stock by exactly what that order records |
| Scenarios.CancelCompensatesCheckout | server/src/routes/webhook.js:42-51 | a mock-gateway checkout followed by a cancellation for its `pixId` gives every product back its stock level from before the checkout, and leaves the order `cancelado` |
| Scenarios.LateOrderNotFound | server/src/routes/webhook.js:18 | once 1000 orders precede it, an order placed later is never found: every notification for it gets 404 and changes nothing |
| Scenarios.PurchaseWithFlatShipping | server/src/routes/checkout.js:21-82 | two units at 1000 cents with 5 in stock, no coupon, 1500 flat shipping and a 10000 threshold give a 3500-cent order and leave 3 in stock |
| Scenarios.PurchaseOutOfStock | server/src/routes/checkout.js:26-28 | the same cart with 1 in stock gets 400 `Estoque insuficiente para A`, and no table changes |

## Definitions

The functions that carry the handlers' behaviour, and the source lines each one follows:

- `Checkout.Selected`, `Checkout.IsSelected`: server/src/routes/checkout.js:13.
- `Checkout.ReserveLine`, `Checkout.ReserveUpTo`: the reservation loop, server/src/routes/checkout.js:21-35.
- `Checkout.Bump`, `Checkout.RestockUpTo`, `Checkout.Restock`: the compensation loops, server/src/routes/checkout.js:43, 48, 52 and 85.
- `Checkout.CheckCoupon`, `Checkout.Expired`, `Checkout.Exhausted`: server/src/routes/checkout.js:39-54.
- `Checkout.Discount`, `Checkout.RoundHundredths`, `Checkout.Max0`, `Checkout.Consumed`, `Checkout.Price`: server/src/routes/checkout.js:56-62.
- `Checkout.ShippingCents`, `Checkout.NewOrder`: server/src/routes/checkout.js:66-81.
- `Checkout.Settle`: server/src/routes/checkout.js:37-107.
- `Checkout.PixIdOf`, `Checkout.MockPix`, `Checkout.Attach`, `Checkout.AttachPix`: server/src/routes/checkout.js:89-107.
- `Checkout.PlaceOrder`: the whole handler, server/src/routes/checkout.js:9-108.
- `Webhook.Scanned`: server/src/routes/webhook.js:18.
- `Webhook.Matches`, `Webhook.FindOrder`: server/src/routes/webhook.js:20-24.
- `Webhook.Classify`: server/src/routes/webhook.js:34 and 42.
- `Webhook.RestockItem`, `Webhook.CancelUpTo`, `Webhook.Stop`: server/src/routes/webhook.js:44-49.
- `Webhook.SetPaymentStatus`, `Webhook.Apply`: server/src/routes/webhook.js:34-52.
- `Webhook.Reconcile`: the whole handler, server/src/routes/webhook.js:8-59.

## Left out

- The HTTP and Express plumbing, JSON parsing and the JWT authentication middleware are not modelled. The authenticated user id is a parameter.
- The storage client is not modelled. Each query either returns what the model's tables hold or fails as the `Faults` record says. The text of a storage error is not modelled (`StorageError`).
- The payment gateway is not modelled. `createPixPayment` is not part of this model: only its outcome is, as the reply it returns or the fact that it threw. What the handler sends to it is not modelled either.
- Signature verification is not modelled. `verifyWebhookSignature` is not part of this model; its result is a parameter.
- The confirmation email, the user lookup that precedes it, and their logging are not modelled. They change no table.
- Concurrent requests are not modelled. Each handler runs alone against one snapshot of the tables, and reads and writes do not interleave.
- Failures of the compensating stock writes, which the handler swallows with `.catch`, are not modelled. Neither are failures of the webhook's product updates, beyond an exception that ends the loop.
- The webhook's outer `500 internal` reply is not modelled. It comes from an exception outside the branches' own `try` blocks, such as a null `orders` result reaching `orders.find`.
- Coupons are keyed by their code. The source increments `used` by the row's `id`; the model assumes codes and ids identify the same row.
- Line quantities, prices and the coupon `value` are integers. A missing quantity or price, which JavaScript arithmetic would turn into `NaN`, is not modelled. A fractional coupon `value` is not modelled either, so the `Math.round(c.value)` of a fixed discount is the value itself.
- `RoundHundredths` is exact rational rounding of `subtotal * value / 100`. It does not model the floating-point error that `total * (value / 100)` may carry in JavaScript.
- The order of rows an unordered `select ... limit(1000)` returns is taken to be table order.
- The other routes of the server (product, coupon and user CRUD, uploads, admin pages) are not modelled. Neither is the front end.
