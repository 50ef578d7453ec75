/**
 * The checkout route (`POST /api/checkout`): from the posted cart lines it
 * computes the total, creates a PENDING order with one line per cart line,
 * and opens a hosted payment session tagged with the new order's id.
 * The order creation and the session creation are foreign calls; their
 * results are inputs here.
 */
module Checkout {
  import opened Wrappers
  import opened Orders
  import opened Http

  /** A cart line as the route reads it from the request body. */
  datatype CartItemIn = CartItemIn(
    id: string,
    productId: string,
    variantId: Option<string>,
    title: string,
    priceCents: int,
    quantity: int)

  /** The parsed JSON body; `cartItems` may be missing. */
  datatype RequestBody = RequestBody(cartItems: Option<seq<CartItemIn>>)

  /** A payment-session line item (`price_data` flattened). */
  datatype LineItem = LineItem(currency: string, name: string, unitAmount: int, quantity: int)

  datatype SessionRequest = SessionRequest(
    paymentMethodTypes: seq<string>,
    lineItems: seq<LineItem>,
    mode: string,
    successUrl: string,
    cancelUrl: string,
    metadata: map<string, string>)

  /** What `stripe.checkout.sessions.create` gives: a session with or without a url, or a throw. */
  datatype SessionReply = SessionCreated(url: Option<string>) | SessionFails

  /** The answer, the order row the request created and the session it asked for. */
  datatype Outcome = Outcome(response: Response, order: Option<Order>, session: Option<SessionRequest>)

  const ShippingAddressId := "shippingAddressId"
  const BillingAddressId := "billingAddressId"
  const DefaultSiteUrl := "http://localhost:3000"

  // ---------------------------------------------------------------------------
  // The maps and the reduce
  // ---------------------------------------------------------------------------

  /** `cartItems.reduce((acc, item) => acc + item.price_cents * item.quantity, 0)`. */
  function TotalCents(items: seq<CartItemIn>): (r: int)
    ensures items == [] ==> r == 0
    ensures |items| == 1 ==> r == items[0].priceCents * items[0].quantity
    ensures (forall j | 0 <= j < |items| :: items[j].priceCents >= 0 && items[j].quantity >= 0) ==> r >= 0
  {
    if items == [] then 0
    else TotalCents(items[..|items| - 1]) + items[|items| - 1].priceCents * items[|items| - 1].quantity
  }

  function ToOrderItem(item: CartItemIn): OrderItem
  {
    OrderItem(item.productId, item.variantId, item.quantity, item.priceCents)
  }

  /** One order line per cart line, in the same order. */
  function OrderItemsOf(items: seq<CartItemIn>): (r: seq<OrderItem>)
    ensures |r| == |items|
    ensures forall j | 0 <= j < |items| ::
      r[j].productId == items[j].productId && r[j].variantId == items[j].variantId &&
      r[j].qty == items[j].quantity && r[j].priceCents == items[j].priceCents
  {
    if items == [] then [] else [ToOrderItem(items[0])] + OrderItemsOf(items[1..])
  }

  /** One line item per cart line, in euros, named after the title. */
  function LineItemsOf(items: seq<CartItemIn>): (r: seq<LineItem>)
    ensures |r| == |items|
    ensures forall j | 0 <= j < |items| ::
      r[j] == LineItem("eur", items[j].title, items[j].priceCents, items[j].quantity)
  {
    if items == [] then []
    else [LineItem("eur", items[0].title, items[0].priceCents, items[0].quantity)] + LineItemsOf(items[1..])
  }

  /** The row `order.create` writes: PENDING, no payment intent yet, the fixed
      address ids, one line per cart line, and a total equal to the sum over
      its own lines. */
  function NewOrder(id: string, items: seq<CartItemIn>): (r: Order)
    ensures r.id == id && r.status == Pending && r.paymentIntentId == None
    ensures r.shippingAddressId == ShippingAddressId && r.billingAddressId == BillingAddressId
    ensures |r.items| == |items|
    ensures r.totalCents == ItemsTotal(r.items)
  {
    TotalMatchesOrderItems(items);
    Order(id, TotalCents(items), Pending, None, ShippingAddressId, BillingAddressId, OrderItemsOf(items))
  }

  /** `process.env.NEXT_PUBLIC_SITE_URL || 'http://localhost:3000'`. */
  function SiteUrl(env: Option<string>): (r: string)
    ensures r != ""
    ensures env.Some? && env.value != "" ==> r == env.value
    ensures env.None? || env.value == "" ==> r == DefaultSiteUrl
  {
    if env.Some? && env.value != "" then env.value else DefaultSiteUrl
  }

  /** The `sessions.create` request: card or PayPal, one euro line item per
      cart line, a one-off payment, both urls on the site url, and the order id
      as the only metadata. */
  function NewSession(items: seq<CartItemIn>, env: Option<string>, orderId: string): (r: SessionRequest)
    ensures r.paymentMethodTypes == ["card", "paypal"] && r.mode == "payment"
    ensures |r.lineItems| == |items| &&
      forall j | 0 <= j < |items| ::
        r.lineItems[j].currency == "eur" && r.lineItems[j].name == items[j].title &&
        r.lineItems[j].unitAmount == items[j].priceCents && r.lineItems[j].quantity == items[j].quantity
    ensures |SiteUrl(env)| < |r.successUrl| && r.successUrl[..|SiteUrl(env)|] == SiteUrl(env)
    ensures |SiteUrl(env)| < |r.cancelUrl| && r.cancelUrl[..|SiteUrl(env)|] == SiteUrl(env)
    ensures r.metadata.Keys == {"orderId"} && r.metadata["orderId"] == orderId
  {
    var site := SiteUrl(env);
    SessionRequest(
      ["card", "paypal"],
      LineItemsOf(items),
      "payment",
      site + "/checkout/success?session_id={CHECKOUT_SESSION_ID}",
      site + "/cart?canceled=true",
      map["orderId" := orderId])
  }

  const EmptyCart := Response(400, Message("Le panier est vide."))
  const Failed := Response(500, Message("Une erreur est survenue lors de la création du paiement."))

  /**
   * The request. `body` is `None` when the JSON cannot be parsed; `createdId`
   * is the id of the created order, `None` when the create throws; `session`
   * is what the payment provider answers. Every throw ends in the 500 answer.
   * The order is created before the session, so it stays PENDING when the
   * session fails.
   */
  function Post(body: Option<RequestBody>, env: Option<string>, createdId: Option<string>, session: SessionReply): (out: Outcome)
    ensures body.Some? && (body.value.cartItems.None? || body.value.cartItems.value == []) ==>
      out == Outcome(EmptyCart, None, None)
    ensures out.response.status == 200 <==>
      body.Some? && body.value.cartItems.Some? && body.value.cartItems.value != [] && createdId.Some? &&
      session.SessionCreated? && session.url.Some? && session.url.value != ""
    ensures out.response.status == 200 ==> out.response.body == Redirect(session.url.value)
    ensures out.response.status != 200 ==> out.response == EmptyCart || out.response == Failed
    ensures out.order.Some? <==>
      body.Some? && body.value.cartItems.Some? && body.value.cartItems.value != [] && createdId.Some?
    ensures out.session.Some? <==> out.order.Some?
    ensures out.order.Some? ==>
      body.Some? && body.value.cartItems.Some? && body.value.cartItems.value != [] &&
      var items := body.value.cartItems.value;
      createdId.Some? && out.order.value.id == createdId.value &&
      out.order.value.status == Pending && out.order.value.paymentIntentId == None &&
      out.order.value.shippingAddressId == ShippingAddressId &&
      out.order.value.billingAddressId == BillingAddressId &&
      out.order.value.totalCents == TotalCents(items) &&
      out.order.value.items == OrderItemsOf(items)
    ensures out.session.Some? ==>
      out.order.Some? && out.session.value.metadata == map["orderId" := out.order.value.id] &&
      body.Some? && body.value.cartItems.Some? &&
      out.session.value.lineItems == LineItemsOf(body.value.cartItems.value) &&
      out.session.value.paymentMethodTypes == ["card", "paypal"] &&
      out.session.value.mode == "payment" &&
      out.session.value.successUrl == SiteUrl(env) + "/checkout/success?session_id={CHECKOUT_SESSION_ID}" &&
      out.session.value.cancelUrl == SiteUrl(env) + "/cart?canceled=true"
  {
    if body.None? then Outcome(Failed, None, None)
    else
      var cartItems := body.value.cartItems;
      if cartItems.None? || |cartItems.value| == 0 then Outcome(EmptyCart, None, None)
      else if createdId.None? then Outcome(Failed, None, None)
      else
        var items := cartItems.value;
        var order := NewOrder(createdId.value, items);
        var request := NewSession(items, env, createdId.value);
        match session
        case SessionFails => Outcome(Failed, Some(order), Some(request))
        case SessionCreated(url) =>
          if url.None? || url.value == "" then Outcome(Failed, Some(order), Some(request))
          else Outcome(Response(200, Redirect(url.value)), Some(order), Some(request))
  }

  // ---------------------------------------------------------------------------
  // Properties
  // ---------------------------------------------------------------------------

  /** Price integrity: the stored total is the sum over the stored order lines
      of `price_cents * qty`. */
  lemma TotalMatchesOrderItems(items: seq<CartItemIn>)
    ensures ItemsTotal(OrderItemsOf(items)) == TotalCents(items)
  {
    TotalPointwise(OrderItemsOf(items), items);
  }

  /** Order lines that agree with the cart lines on price and quantity have the same total. */
  lemma {:induction false} TotalPointwise(r: seq<OrderItem>, items: seq<CartItemIn>)
    requires |r| == |items|
    requires forall j | 0 <= j < |items| :: r[j].priceCents == items[j].priceCents && r[j].qty == items[j].quantity
    ensures ItemsTotal(r) == TotalCents(items)
  {
    if items != [] {
      TotalPointwise(r[..|r| - 1], items[..|items| - 1]);
    }
  }

  /** Every created order satisfies price integrity. */
  lemma CreatedOrderTotal(body: Option<RequestBody>, env: Option<string>, createdId: Option<string>, session: SessionReply)
    ensures var out := Post(body, env, createdId, session);
      out.order.Some? ==> out.order.value.totalCents == ItemsTotal(out.order.value.items)
  {
    var out := Post(body, env, createdId, session);
    if out.order.Some? {
      TotalMatchesOrderItems(body.value.cartItems.value);
    }
  }
}
