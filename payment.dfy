/** Routes/Payment.js: gateway order options, signature verification,
    order finalization from a cart, the order status overwrite and the
    cash-on-delivery payments. */
module PaymentRoutes {
  import opened Documents
  import opened Text

  /** VALID_ORDER_STATUSES */
  const ValidOrderStatuses: seq<string> := ["Pending", "Shipped", "Delivered", "Cancelled"]

  predicate IsValidOrderStatus(s: string) {
    s in ValidOrderStatuses
  }

  /** Every order carries one of the four enumerated statuses. */
  ghost predicate OrderStatusesValid(orders: map<Id, Order>) {
    forall id :: id in orders ==> IsValidOrderStatus(orders[id].status)
  }

  // ---------------------------------------------------------------- POST /orders

  /** The options passed to the gateway's `orders.create`. */
  datatype GatewayOrderOptions = GatewayOrderOptions(amount: real, currency: string, receipt: string)

  /** Builds the gateway request from the amount in rupees and the ten
      random bytes drawn for the receipt. */
  function GatewayOptions(amount: real, randomBytes: seq<Byte>): (o: GatewayOrderOptions)
    requires |randomBytes| == 10
    ensures o.amount == 100.0 * amount
    ensures o.currency == "INR"
    ensures |o.receipt| == 20 && forall i :: 0 <= i < 20 ==> IsHexDigit(o.receipt[i])
  {
    GatewayOrderOptions(amount * 100.0, "INR", HexEncode(randomBytes))
  }

  /** Two requests whose random draws differ never share a receipt. */
  lemma ReceiptsDifferWithDraws(amount1: real, bytes1: seq<Byte>, amount2: real, bytes2: seq<Byte>)
    requires |bytes1| == 10 && |bytes2| == 10 && bytes1 != bytes2
    ensures GatewayOptions(amount1, bytes1).receipt != GatewayOptions(amount2, bytes2).receipt
  {
    if HexEncode(bytes1) == HexEncode(bytes2) {
      HexEncodeInjective(bytes1, bytes2);
    }
  }

  // ---------------------------------------------------------------- POST /verify, GET /verify

  /** The string the gateway signs: "<gateway order id>|<gateway payment id>". */
  function SignedPayload(gatewayOrderId: string, gatewayPaymentId: string): (p: string)
    ensures |p| == |gatewayOrderId| + 1 + |gatewayPaymentId|
    ensures p[..|gatewayOrderId|] == gatewayOrderId && p[|gatewayOrderId|] == '|'
    ensures p[|gatewayOrderId| + 1..] == gatewayPaymentId
  {
    gatewayOrderId + "|" + gatewayPaymentId
  }

  /** The record stored for a verified gateway payment. */
  function CreditPayment(gatewayPaymentId: string, orderRef: Id, now: int, amount: Option<real>): Payment {
    Payment(Some(gatewayPaymentId), orderRef, Some(now), "Razorpay", "Completed", amount, "credit")
  }

  /** POST /verify. `hmacSha256Hex(key, message)` is the hex HMAC-SHA256 of
      RFC 2104; `amount` is the body's `order` field; `now` is the clock;
      `newId` is the ObjectId the insert would get. The caller's oldest
      order (ascending createdAt) is looked up but never used, so no Order
      appears here. */
  method VerifyPayment(
    db: Store, hmacSha256Hex: (string, string) -> string, secret: string,
    gatewayOrderId: string, gatewayPaymentId: string, signature: string,
    orderRef: Id, amount: Option<real>, now: int, newId: Id)
    returns (code: int)
    modifies db
    ensures code == 200 || code == 400 || code == 500
    ensures code == 400 <==> signature != hmacSha256Hex(secret, SignedPayload(gatewayOrderId, gatewayPaymentId))
    ensures code == 500 <==> code != 400 && newId in old(db.payments)
    ensures code != 200 ==> unchanged(db)
    ensures code == 200 ==>
      db.Snapshot() == old(db.Snapshot()).(payments := old(db.payments)[newId := CreditPayment(gatewayPaymentId, orderRef, now, amount)])
  {
    var expected := hmacSha256Hex(secret, SignedPayload(gatewayOrderId, gatewayPaymentId));
    if signature != expected {
      return 400;
    }
    if newId in db.payments {
      return 500;
    }
    db.payments := db.payments[newId := CreditPayment(gatewayPaymentId, orderRef, now, amount)];
    code := 200;
  }

  /** A payment stored by /verify is a completed credit payment through
      Razorpay for the order reference the caller supplied. */
  lemma CreditPaymentFields(gatewayPaymentId: string, orderRef: Id, now: int, amount: Option<real>)
    ensures var p := CreditPayment(gatewayPaymentId, orderRef, now, amount);
      p.status == "Completed" && p.paymentMethod == "Razorpay" && p.transactionType == "credit"
      && p.orderId == orderRef && p.paymentId == Some(gatewayPaymentId)
  {
  }

  /** GET /verify: every payment, or 404 when there is none. */
  function PaymentHistory(db: Store): (r: (int, map<Id, Payment>))
    reads db
    ensures r.0 == 404 <==> db.payments == map[]
    ensures r.0 == 200 <==> db.payments != map[]
    ensures r.0 == 200 ==> r.1 == db.payments
  {
    if db.payments == map[] then (404, map[]) else (200, db.payments)
  }

  // ---------------------------------------------------------------- PUT /addorder

  /** `cart.books.map(item => ({book_id, book_quantity}))`: the cart's
      lines in order, without their subdocument ids. */
  function OrderLinesOf(items: seq<CartItem>): (lines: seq<OrderLine>)
    ensures |lines| == |items|
    ensures forall i :: 0 <= i < |items| ==> lines[i].bookId == items[i].bookId && lines[i].quantity == items[i].quantity
  {
    if items == [] then [] else [OrderLine(items[0].bookId, items[0].quantity)] + OrderLinesOf(items[1..])
  }

  /** `order.books.map(item => item.book_id)` */
  function BookIdsOf(lines: seq<OrderLine>): (ids: seq<Id>)
    ensures |ids| == |lines|
    ensures forall b :: b in ids <==> exists i :: 0 <= i < |lines| && lines[i].bookId == b
  {
    if lines == [] then []
    else
      var rest := BookIdsOf(lines[1..]);
      assert forall i :: 1 <= i < |lines| ==> lines[i] == lines[1..][i - 1];
      [lines[0].bookId] + rest
  }

  /** Whether some order references the cart (Order.findOne({Cart_id})). */
  predicate HasOrderForCart(orders: map<Id, Order>, cartId: Id) {
    exists id :: id in orders && orders[id].cartId == cartId
  }

  /** The order after `addorder`: the cart's lines, the supplied total, and
      the supplied status when it is one of the four valid ones. */
  function FinalizedOrder(order: Order, cart: Cart, totalAmount: real, status: Option<string>): Order {
    var newStatus := if status.Some? && IsValidOrderStatus(status.value) then status.value else order.status;
    order.(status := newStatus, totalAmount := totalAmount, books := OrderLinesOf(cart.books))
  }

  lemma FinalizedOrderContents(order: Order, cart: Cart, totalAmount: real, status: Option<string>)
    ensures var o := FinalizedOrder(order, cart, totalAmount, status);
      && |o.books| == |cart.books|
      && (forall i :: 0 <= i < |cart.books| ==> o.books[i] == OrderLine(cart.books[i].bookId, cart.books[i].quantity))
      && o.totalAmount == totalAmount
      && (o.status != order.status ==> status == Some(o.status) && IsValidOrderStatus(o.status))
      && (status.Some? && IsValidOrderStatus(status.value) ==> o.status == status.value)
      && o.userId == order.userId && o.cartId == order.cartId
  {
  }

  /** The ids of the listings `Reseller.find({Book_id: {$in: bookIds}})` returns. */
  function ListingsForBooks(listings: map<Id, Listing>, bookIds: seq<Id>): set<Id> {
    set id | id in listings && listings[id].bookId in bookIds
  }

  /** The listings after the ones named in `marked` have been set to "Sell". */
  function MarkSold(listings: map<Id, Listing>, marked: set<Id>): map<Id, Listing> {
    map id | id in listings :: if id in marked then listings[id].(status := "Sell") else listings[id]
  }

  /** Marking one more listing extends the marked set by it. */
  lemma MarkSoldStep(listings: map<Id, Listing>, marked: set<Id>, id: Id)
    requires id in listings && id !in marked
    ensures MarkSold(listings, marked)[id := listings[id].(status := "Sell")] == MarkSold(listings, marked + {id})
  {
  }

  /** Marking is idempotent, so finalizing the same cart twice marks the same listings. */
  lemma MarkSoldIdempotent(listings: map<Id, Listing>, bookIds: seq<Id>)
    ensures var once := MarkSold(listings, ListingsForBooks(listings, bookIds));
      MarkSold(once, ListingsForBooks(once, bookIds)) == once
  {
    var once := MarkSold(listings, ListingsForBooks(listings, bookIds));
    assert ListingsForBooks(once, bookIds) == ListingsForBooks(listings, bookIds);
  }

  /** After finalization every listing of an ordered book is for sale and
      every other listing is as it was. */
  lemma MarkSoldEffect(listings: map<Id, Listing>, bookIds: seq<Id>)
    ensures var after := MarkSold(listings, ListingsForBooks(listings, bookIds));
      && after.Keys == listings.Keys
      && (forall id :: id in listings && listings[id].bookId in bookIds ==>
            after[id].status == "Sell" && after[id] == listings[id].(status := "Sell"))
      && (forall id :: id in listings && listings[id].bookId !in bookIds ==> after[id] == listings[id])
  {
  }

  /** PUT /addorder. `failingSave` models the partial-update window: when
      it names one of the matched listings, the save of that listing throws
      and the handler answers 500 with the order and the listings saved
      before it already written. The ghost results name the order that was
      found and the listings that were marked. */
  method AddOrder(db: Store, cartId: Id, totalAmount: real, status: Option<string>, failingSave: Option<Id>)
    returns (code: int, ghost orderId: Id, ghost marked: set<Id>)
    modifies db
    ensures code == 200 || code == 404 || code == 500
    ensures code == 404 <==> cartId !in old(db.carts) || !HasOrderForCart(old(db.orders), cartId)
    ensures code == 404 ==> unchanged(db)
    ensures code != 404 ==>
      && orderId in old(db.orders) && old(db.orders)[orderId].cartId == cartId
      && db.orders == old(db.orders)[orderId := FinalizedOrder(old(db.orders)[orderId], old(db.carts)[cartId], totalAmount, status)]
      && marked <= ListingsForBooks(old(db.resellers), BookIdsOf(OrderLinesOf(old(db.carts)[cartId].books)))
      && db.resellers == MarkSold(old(db.resellers), marked)
      && db.Snapshot() == old(db.Snapshot()).(orders := db.orders, resellers := db.resellers)
    ensures code == 200 ==> marked == ListingsForBooks(old(db.resellers), BookIdsOf(OrderLinesOf(old(db.carts)[cartId].books)))
    ensures code == 500 <==>
      && code != 404 && failingSave.Some?
      && failingSave.value in ListingsForBooks(old(db.resellers), BookIdsOf(OrderLinesOf(old(db.carts)[cartId].books)))
    ensures code == 500 ==> failingSave.value !in marked
    ensures old(OrderStatusesValid(db.orders)) ==> OrderStatusesValid(db.orders)
  {
    marked := {};
    orderId := "";
    if cartId !in db.carts {
      return 404, orderId, marked;
    }
    var cart := db.carts[cartId];
    if !HasOrderForCart(db.orders, cartId) {
      return 404, orderId, marked;
    }
    var found :| found in db.orders && db.orders[found].cartId == cartId;
    orderId := found;
    var order := FinalizedOrder(db.orders[found], cart, totalAmount, status);
    db.orders := db.orders[found := order];

    var ok;
    ok, marked := MarkForSale(db, ListingsForBooks(db.resellers, BookIdsOf(order.books)), failingSave);
    code := if ok then 200 else 500;
  }

  /** The loop of PUT /addorder: every listing in `matched` gets
      Resell_Status "Sell" and is saved on its own, in whatever order the
      query returned them. `marked` is the set saved so far. When the save
      of `failingSave` throws, the loop stops there with the earlier saves
      kept. */
  method MarkForSale(db: Store, matched: set<Id>, failingSave: Option<Id>) returns (ok: bool, ghost marked: set<Id>)
    requires matched <= db.resellers.Keys
    modifies db
    ensures marked <= matched
    ensures db.resellers == MarkSold(old(db.resellers), marked)
    ensures db.Snapshot() == old(db.Snapshot()).(resellers := db.resellers)
    ensures ok <==> failingSave.None? || failingSave.value !in matched
    ensures ok ==> marked == matched
    ensures !ok ==> failingSave.value in matched && failingSave.value !in marked
  {
    var original := db.resellers;
    var pending := matched;
    marked := {};
    while pending != {}
      invariant pending <= matched && marked == matched - pending
      invariant failingSave.Some? && failingSave.value in matched ==> failingSave.value in pending
      invariant db.resellers == MarkSold(original, marked)
      invariant db.Snapshot() == old(db.Snapshot()).(resellers := db.resellers)
      decreases pending
    {
      var id :| id in pending;
      if failingSave == Some(id) {
        return false, marked;
      }
      SaveListing(db, id, original[id].(status := "Sell"));
      MarkSoldStep(original, marked, id);
      pending := pending - {id};
      marked := marked + {id};
    }
    ok := true;
  }

  /** `reseller.save()`: writes one listing back to its table. */
  method SaveListing(db: Store, id: Id, listing: Listing)
    modifies db
    ensures db.Snapshot() == old(db.Snapshot()).(resellers := old(db.resellers)[id := listing])
  {
    db.resellers := db.resellers[id := listing];
  }

  // ---------------------------------------------------------------- PUT /:orderId/status

  /** The orders after the status of `orderId` has been overwritten. */
  function WithOrderStatus(orders: map<Id, Order>, orderId: Id, status: string): map<Id, Order>
    requires orderId in orders
  {
    orders[orderId := orders[orderId].(status := status)]
  }

  /** Repeating a status update changes nothing more. */
  lemma OrderStatusIdempotent(orders: map<Id, Order>, orderId: Id, status: string)
    requires orderId in orders
    ensures WithOrderStatus(WithOrderStatus(orders, orderId, status), orderId, status) == WithOrderStatus(orders, orderId, status)
  {
  }

  /** There is no transition graph: any valid status can follow any other. */
  lemma AnyStatusReachable(orders: map<Id, Order>, orderId: Id, status: string)
    requires orderId in orders && IsValidOrderStatus(status)
    ensures WithOrderStatus(orders, orderId, status)[orderId].status == status
    ensures OrderStatusesValid(orders) ==> OrderStatusesValid(WithOrderStatus(orders, orderId, status))
  {
  }

  /** PUT /:orderId/status: the body is validated against the enumeration
      before the order is looked up. */
  method UpdateOrderStatus(db: Store, orderId: Id, status: string) returns (code: int)
    modifies db
    ensures code == 200 || code == 400 || code == 404
    ensures code == 400 <==> !IsValidOrderStatus(status)
    ensures code == 404 <==> IsValidOrderStatus(status) && orderId !in old(db.orders)
    ensures code != 200 ==> unchanged(db)
    ensures code == 200 ==> db.Snapshot() == old(db.Snapshot()).(orders := WithOrderStatus(old(db.orders), orderId, status))
    ensures old(OrderStatusesValid(db.orders)) ==> OrderStatusesValid(db.orders)
  {
    if !IsValidOrderStatus(status) {
      return 400;
    }
    if orderId !in db.orders {
      return 404;
    }
    db.orders := WithOrderStatus(db.orders, orderId, status);
    code := 200;
  }

  // ---------------------------------------------------------------- cash on delivery

  /** The express-validator chain of POST /:transaction_Type/codpayment:
      three non-empty strings and a total greater than zero. */
  predicate CodRequestValid(orderRef: string, paymentMethod: string, paymentStatus: string, total: Option<real>) {
    orderRef != "" && paymentMethod != "" && paymentStatus != "" && total.Some? && total.value > 0.0
  }

  /** POST /:transaction_Type/codpayment. */
  method CreateCodPayment(
    db: Store, transactionType: string, orderRef: string, paymentMethod: string,
    paymentStatus: string, total: Option<real>, newId: Id)
    returns (code: int)
    modifies db
    ensures code == 201 || code == 400 || code == 500
    ensures code == 400 <==> !CodRequestValid(orderRef, paymentMethod, paymentStatus, total)
    ensures code == 500 <==> code != 400 && newId in old(db.payments)
    ensures code != 201 ==> unchanged(db)
    ensures code == 201 ==> db.Snapshot() == old(db.Snapshot()).(payments :=
      old(db.payments)[newId := Payment(None, orderRef, None, paymentMethod, paymentStatus, total, transactionType)])
  {
    if !CodRequestValid(orderRef, paymentMethod, paymentStatus, total) {
      return 400;
    }
    if newId in db.payments {
      return 500;
    }
    db.payments := db.payments[newId := Payment(None, orderRef, None, paymentMethod, paymentStatus, total, transactionType)];
    code := 201;
  }

  function Completed(payments: map<Id, Payment>, paymentId: Id): map<Id, Payment>
    requires paymentId in payments
  {
    payments[paymentId := payments[paymentId].(status := "Completed")]
  }

  /** Completing a payment twice is the same as completing it once. */
  lemma CompletedIdempotent(payments: map<Id, Payment>, paymentId: Id)
    requires paymentId in payments
    ensures Completed(Completed(payments, paymentId), paymentId) == Completed(payments, paymentId)
    ensures Completed(payments, paymentId)[paymentId].status == "Completed"
  {
  }

  /** PUT /codpayment. A missing payment makes the handler dereference
      null; the catch turns that into 500 and nothing is written. */
  method CompleteCodPayment(db: Store, paymentId: Id) returns (code: int)
    modifies db
    ensures code == 200 || code == 500
    ensures code == 500 <==> paymentId !in old(db.payments)
    ensures code == 500 ==> unchanged(db)
    ensures code == 200 ==> db.Snapshot() == old(db.Snapshot()).(payments := Completed(old(db.payments), paymentId))
  {
    if paymentId !in db.payments {
      return 500;
    }
    db.payments := Completed(db.payments, paymentId);
    code := 200;
  }
}
