/**
 * `PaymentController`: the glue between orders and the Stripe payment
 * provider. `createCheckoutSession` turns an order the caller owns into a
 * hosted-checkout request; `webhook` receives the provider's signed events
 * and moves the paid order to `processing`.
 *
 * The provider is not modelled: a session request goes to a function
 * `provider` whose answer is either a session or an error message, and the
 * signature check of a webhook delivery arrives already decided as a
 * `Verification`.
 */
module PaymentController {
  import opened Wrappers
  import opened Seqs
  import opened Http
  import opened Schema

  /** One `line_items` entry: `price_data` plus `quantity`. */
  datatype LineItem = LineItem(currency: string, name: string, description: Option<string>, unitAmount: real, quantity: nat)

  /** The parameters of `Session::create`; `orderId` is `metadata.order_id`. */
  datatype SessionRequest = SessionRequest(
    paymentMethodTypes: seq<string>,
    lineItems: seq<LineItem>,
    mode: string,
    successUrl: string,
    cancelUrl: string,
    orderId: OrderId)

  /** What the provider answers: a session, or the message of the exception it threw. */
  datatype ProviderResult = Session(id: string, url: string) | ProviderError(message: string)

  /** The outcome of `createCheckoutSession`: the request sent to the provider, if any, and the reply. */
  datatype Checkout = Checkout(sent: Option<SessionRequest>, reply: Result<ProviderResult>)

  const SuccessPath := "/orders?success=true&session_id={CHECKOUT_SESSION_ID}"
  const CancelPath := "/orders?canceled=true"

  /** `'order_id' => 'required|exists:orders,id'`: the id of an existing order, or nothing. */
  function RequestedOrder(orders: map<OrderId, Order>, a: Attrs): (r: Option<OrderId>)
    ensures r.Some? <==> "order_id" in a && AsId(a["order_id"]).Some? && AsId(a["order_id"]).value in orders
    ensures r.Some? ==> r.value in orders && r.value as real == a["order_id"].x
  {
    if "order_id" in a && AsId(a["order_id"]).Some? && AsId(a["order_id"]).value in orders
    then AsId(a["order_id"])
    else None
  }

  /**
   * The `map` over the order's items: one line item per order item, in
   * order, priced in cents. `None` when an item's product row is gone, where
   * `$item->product->name` reads a property of null.
   */
  function LineItems(items: seq<OrderItem>, products: map<ProductId, Product>): (r: Option<seq<LineItem>>)
    ensures r.Some? <==> forall i :: 0 <= i < |items| ==> items[i].productId in products
    ensures r.Some? ==> |r.value| == |items|
    ensures r.Some? ==> forall i :: 0 <= i < |items| ==>
              var it := r.value[i];
              var p := products[items[i].productId];
              && it.currency == "usd"
              && it.name == p.name && it.description == p.description
              && it.unitAmount == items[i].price * 100.0
              && it.quantity == items[i].quantity
  {
    if items == [] then Some([])
    else if items[0].productId !in products then None
    else
      var p := products[items[0].productId];
      var first := LineItem("usd", p.name, p.description, items[0].price * 100.0, items[0].quantity);
      match LineItems(items[1..], products)
      case None => None
      case Some(rest) => Some([first] + rest)
  }

  function LineCharge(it: LineItem): real
  {
    it.unitAmount * it.quantity as real
  }

  /** The provider charges, in cents, exactly one hundred times the items' total. */
  lemma {:induction false} ChargeIsTotalInCents(items: seq<OrderItem>, products: map<ProductId, Product>)
    requires LineItems(items, products).Some?
    ensures Sum(LineItems(items, products).value, LineCharge) == 100.0 * ItemsTotal(items)
  {
    if items != [] {
      var r := LineItems(items, products).value;
      assert LineItems(items[1..], products).value == r[1..];
      ChargeIsTotalInCents(items[1..], products);
      assert LineCharge(r[0]) == 100.0 * LineAmount(items[0]);
    }
  }

  /**
   * `createCheckoutSession`: validate the order id, refuse another user's
   * order with 403 before contacting the provider, build the request and
   * relay the provider's answer (500 with its message on an error). An
   * item whose product is gone crashes the request build, before anything
   * is sent.
   */
  function CreateCheckoutSession(
    orders: map<OrderId, Order>,
    products: map<ProductId, Product>,
    caller: UserId,
    a: Attrs,
    frontendUrl: string,
    provider: SessionRequest -> ProviderResult): (c: Checkout)
    ensures RequestedOrder(orders, a).None? ==> c == Checkout(None, Err(Invalid))
    ensures c.reply == Err(Forbidden) <==>
              RequestedOrder(orders, a).Some? && orders[RequestedOrder(orders, a).value].userId != caller
    ensures c.reply == Err(Forbidden) ==> c.sent.None?
    ensures c.reply == Err(Crash) <==>
              && RequestedOrder(orders, a).Some?
              && orders[RequestedOrder(orders, a).value].userId == caller
              && LineItems(orders[RequestedOrder(orders, a).value].items, products).None?
    ensures c.reply == Err(Crash) ==> c.sent.None?
    ensures c.sent.Some? ==>
              var id := RequestedOrder(orders, a).value;
              var req := c.sent.value;
              && orders[id].userId == caller
              && LineItems(orders[id].items, products) == Some(req.lineItems)
              && req.paymentMethodTypes == ["card"] && req.mode == "payment"
              && req.successUrl == frontendUrl + SuccessPath
              && req.cancelUrl == frontendUrl + CancelPath
              && req.orderId == id
    ensures c.sent.Some? ==>
              match provider(c.sent.value)
              case Session(_, _) => c.reply == Ok(provider(c.sent.value))
              case ProviderError(m) => c.reply == Err(ServerError(m))
    ensures c.reply.Ok? ==> c.sent.Some?
  {
    match RequestedOrder(orders, a)
    case None => Checkout(None, Err(Invalid))
    case Some(id) =>
      var order := orders[id];
      if order.userId != caller then Checkout(None, Err(Forbidden))
      else match LineItems(order.items, products)
        case None => Checkout(None, Err(Crash))
        case Some(lineItems) =>
          var req := SessionRequest(["card"], lineItems, "payment", frontendUrl + SuccessPath, frontendUrl + CancelPath, id);
          match provider(req)
          case Session(_, _) => Checkout(Some(req), Ok(provider(req)))
          case ProviderError(m) => Checkout(Some(req), Err(ServerError(m)))
  }

  /**
   * For an order whose products all still exist, an owner's request reaches
   * the provider, and the amounts it carries add up to the order's
   * `total_amount` in cents.
   */
  lemma OwnerReachesProvider(
    orders: map<OrderId, Order>,
    products: map<ProductId, Product>,
    caller: UserId,
    a: Attrs,
    frontendUrl: string,
    provider: SessionRequest -> ProviderResult)
    requires RequestedOrder(orders, a).Some?
    requires var o := orders[RequestedOrder(orders, a).value];
             && o.userId == caller && OrderConsistent(o)
             && forall i :: 0 <= i < |o.items| ==> o.items[i].productId in products
    ensures var c := CreateCheckoutSession(orders, products, caller, a, frontendUrl, provider);
            && c.sent.Some?
            && Sum(c.sent.value.lineItems, LineCharge) == 100.0 * orders[RequestedOrder(orders, a).value].total
  {
    var o := orders[RequestedOrder(orders, a).value];
    ChargeIsTotalInCents(o.items, products);
  }

  /** A webhook event after decoding: its `type` and `data.object.metadata.order_id`. */
  datatype StripeEvent = StripeEvent(kind: string, metadataOrderId: Option<OrderId>)

  /** The outcome of `constructEvent`: a verified event, or the message of the exception it threw. */
  datatype Verification = Verified(event: StripeEvent) | Rejected(message: string)

  const CompletedEvent := "checkout.session.completed"

  /** The event marks order `id` as paid. */
  predicate Completes(v: Verification, id: OrderId)
  {
    v.Verified? && v.event.kind == CompletedEvent && v.event.metadataOrderId == Some(id)
  }

  /**
   * The order table after a delivery: the order named by a verified
   * completed-session event becomes `processing`, from whatever status it
   * had; every other order, and everything else about that one, stays.
   */
  function AfterEvent(orders: map<OrderId, Order>, v: Verification): (r: map<OrderId, Order>)
    ensures r.Keys == orders.Keys
    ensures forall id :: id in orders && !Completes(v, id) ==> r[id] == orders[id]
    ensures forall id :: id in orders && Completes(v, id) ==> r[id] == orders[id].(status := Processing)
  {
    if v.Verified? && v.event.kind == CompletedEvent && v.event.metadataOrderId.Some?
       && v.event.metadataOrderId.value in orders
    then
      var id := v.event.metadataOrderId.value;
      orders[id := orders[id].(status := Processing)]
    else orders
  }

  /** Redelivering the same event leaves the table as one delivery did. */
  lemma RedeliveryIsIdempotent(orders: map<OrderId, Order>, v: Verification)
    ensures AfterEvent(AfterEvent(orders, v), v) == AfterEvent(orders, v)
  {
  }

  /** A delivery whose signature does not verify changes no order. */
  lemma RejectedChangesNothing(orders: map<OrderId, Order>, message: string)
    ensures AfterEvent(orders, Rejected(message)) == orders
  {
  }

  /** A completed-session event moves its order to `processing` whatever its status was, even out of `cancelled`. */
  lemma CompletedOverridesAnyStatus(orders: map<OrderId, Order>, id: OrderId, st: Status)
    requires id in orders && orders[id].status == st
    ensures AfterEvent(orders, Verified(StripeEvent(CompletedEvent, Some(id))))[id].status == Processing
  {
  }

  /**
   * `webhook`: answer 400 with the verification error, otherwise apply the
   * event and answer `{status: success}`.
   */
  method Webhook(db: Database, v: Verification) returns (r: Result<string>)
    requires db.Valid()
    modifies db`orders
    ensures db.Valid()
    ensures v.Rejected? ==> r == Err(BadRequest(v.message))
    ensures v.Verified? ==> r == Ok("success")
    ensures db.orders == AfterEvent(old(db.orders), v)
  {
    if v.Rejected? {
      return Err(BadRequest(v.message));
    }
    var event := v.event;
    if event.kind == CompletedEvent {
      var orderId := event.metadataOrderId;
      if orderId.Some? && orderId.value in db.orders {
        var order := db.orders[orderId.value];
        db.orders := db.orders[orderId.value := order.(status := Processing)];
      }
    }
    r := Ok("success");
  }

  /** Delivering the same event twice: both succeed alike and the second changes nothing. */
  method DeliverTwice(db: Database, v: Verification) returns (first: Result<string>, second: Result<string>)
    requires db.Valid()
    modifies db`orders
    ensures db.Valid()
    ensures first == second
    ensures db.orders == AfterEvent(old(db.orders), v)
  {
    first := Webhook(db, v);
    ghost var once := db.orders;
    second := Webhook(db, v);
    RedeliveryIsIdempotent(old(db.orders), v);
    assert db.orders == once;
  }
}
