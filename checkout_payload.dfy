/**
 * What the checkout page posts: `JSON.stringify({ cartItems: items })` of the
 * cart store's lines. A cart line carries its variant as `variant.id`, while
 * the checkout route reads `variantId`, which the JSON does not contain.
 */
module CheckoutPayload {
  import opened Wrappers
  import Cart
  import Checkout
  import Orders
  import Webhook
  import Http

  /** The route's view of one posted cart line, as the code is written:
      `variantId` is absent. */
  function PostedLine(c: Cart.CartItem): Checkout.CartItemIn
  {
    Checkout.CartItemIn(c.id, c.productId, None, c.title, c.priceCents, c.quantity)
  }

  function Posted(cart: seq<Cart.CartItem>): (r: seq<Checkout.CartItemIn>)
    ensures |r| == |cart|
    ensures forall j | 0 <= j < |cart| :: r[j] == PostedLine(cart[j])
  {
    if cart == [] then [] else [PostedLine(cart[0])] + Posted(cart[1..])
  }

  /** The posted line with the variant id carried over, as the route expects. */
  function IntendedLine(c: Cart.CartItem): Checkout.CartItemIn
  {
    Checkout.CartItemIn(c.id, c.productId, if c.variant.Some? then Some(c.variant.value.id) else None,
                        c.title, c.priceCents, c.quantity)
  }

  function PostedIntended(cart: seq<Cart.CartItem>): (r: seq<Checkout.CartItemIn>)
    ensures |r| == |cart|
    ensures forall j | 0 <= j < |cart| :: r[j] == IntendedLine(cart[j])
  {
    if cart == [] then [] else [IntendedLine(cart[0])] + PostedIntended(cart[1..])
  }

  /** The quantity the cart lines hold of variant `v`; an empty id names no
      variant, so none is counted for `""`. */
  function CartQtyFor(cart: seq<Cart.CartItem>, v: string): int
  {
    if cart == [] then 0
    else
      var c := cart[|cart| - 1];
      CartQtyFor(cart[..|cart| - 1], v) + (if c.variant.Some? && c.variant.value.id == v && v != "" then c.quantity else 0)
  }

  /** As written, an order built from a posted cart names no variant, so its
      fulfilment leaves the whole stock table as it was. */
  lemma PostedOrderNeverTakesStock(cart: seq<Cart.CartItem>, stock: map<string, int>)
    ensures var items := Checkout.OrderItemsOf(Posted(cart));
      forall j | 0 <= j < |items| :: items[j].variantId == None
    ensures Webhook.Decremented(stock, Checkout.OrderItemsOf(Posted(cart))) == stock
  {
    var posted := Posted(cart);
    var items := Checkout.OrderItemsOf(posted);
    assert forall j | 0 <= j < |items| :: items[j].variantId == posted[j].variantId == None;
    Webhook.DecrementedUnnamed(stock, items);
  }

  /** A cart holding two units of variant "v1" posts an order line without it. */
  lemma VariantDroppedExample()
    ensures var cart := [Cart.CartItem("p1-v1", "p1", "Tee", 1000, None, 2, Some(Cart.VariantRef("v1", "M")))];
      Checkout.OrderItemsOf(Posted(cart)) == [Orders.OrderItem("p1", None, 2, 1000)] &&
      Checkout.OrderItemsOf(PostedIntended(cart)) == [Orders.OrderItem("p1", Some("v1"), 2, 1000)]
  {
  }

  lemma IntendedQty(cart: seq<Cart.CartItem>, v: string)
    ensures Webhook.QtyFor(Checkout.OrderItemsOf(PostedIntended(cart)), v) == CartQtyFor(cart, v)
  {
    var posted := PostedIntended(cart);
    QtyPointwise(Checkout.OrderItemsOf(posted), cart, v);
  }

  /** Order lines that carry the cart lines' variants and quantities take what the cart holds. */
  lemma {:induction false} QtyPointwise(items: seq<Orders.OrderItem>, cart: seq<Cart.CartItem>, v: string)
    requires |items| == |cart|
    requires forall j | 0 <= j < |cart| ::
      items[j].qty == cart[j].quantity &&
      items[j].variantId == if cart[j].variant.Some? then Some(cart[j].variant.value.id) else None
    ensures Webhook.QtyFor(items, v) == CartQtyFor(cart, v)
  {
    if cart != [] {
      QtyPointwise(items[..|items| - 1], cart[..|cart| - 1], v);
    }
  }

  /** With the variant id carried over, an order built from the cart takes
      from each variant exactly the quantity the cart holds of it. */
  lemma IntendedOrderTakesCartQuantities(cart: seq<Cart.CartItem>, stock: map<string, int>)
    ensures var r := Webhook.Decremented(stock, Checkout.OrderItemsOf(PostedIntended(cart)));
      forall v | v in stock :: r[v] == stock[v] - CartQtyFor(cart, v)
  {
    var items := Checkout.OrderItemsOf(PostedIntended(cart));
    forall v | v in stock ensures Webhook.Decremented(stock, items)[v] == stock[v] - CartQtyFor(cart, v) {
      Webhook.DecrementedAt(stock, items, v);
      IntendedQty(cart, v);
    }
  }

  /** Checking out a non-empty cart whose order and session are created answers
      with the session url, stores the PENDING order and tags the session with its id. */
  lemma CheckoutCreates(cart: seq<Cart.CartItem>, env: Option<string>, id: string, url: string)
    requires cart != [] && url != ""
    ensures var posted := PostedIntended(cart);
      Checkout.Post(Some(Checkout.RequestBody(Some(posted))), env, Some(id), Checkout.SessionCreated(Some(url)))
      == Checkout.Outcome(Http.Response(200, Http.Redirect(url)), Some(Checkout.NewOrder(id, posted)),
                          Some(Checkout.NewSession(posted, env, id)))
  {
  }

  /** Checkout with the intended payload stores order `id`; the payment event
      for the session opened for it then arrives. */
  function PayAfterCheckout(cart: seq<Cart.CartItem>, env: Option<string>, id: string, t: Webhook.Tables, intent: string): (Http.Response, Webhook.Tables)
  {
    var posted := PostedIntended(cart);
    var t1 := Webhook.Tables(t.orders[id := Checkout.NewOrder(id, posted)], t.stock);
    var ev := Webhook.Event(Webhook.CompletedType,
                            Webhook.Session(Some(Checkout.NewSession(posted, env, id).metadata), Webhook.IntentId(intent)));
    Webhook.Handle(t1, Webhook.VerifiedEvent(ev), Webhook.NoFault)
  }

  /** The completed-payment event for the session opened at checkout: the
      created order is found through the session metadata, becomes PAID with
      the payment intent, and each variant loses what the cart held of it. */
  lemma PaymentAfterCheckout(cart: seq<Cart.CartItem>, env: Option<string>, id: string, t: Webhook.Tables, intent: string)
    requires id != "" && id !in t.orders
    requires forall c | c in cart && c.variant.Some? :: c.variant.value.id in t.stock
    ensures var (resp, t2) := PayAfterCheckout(cart, env, id, t, intent);
      resp == Http.Response(200, Http.Received) &&
      id in t2.orders && t2.orders[id].status == Orders.Paid && t2.orders[id].paymentIntentId == Some(intent) &&
      forall v | v in t.stock :: v in t2.stock && t2.stock[v] == t.stock[v] - CartQtyFor(cart, v)
  {
    var posted := PostedIntended(cart);
    var o := Checkout.NewOrder(id, posted);
    var t1 := Webhook.Tables(t.orders[id := o], t.stock);
    var session := Webhook.Session(Some(Checkout.NewSession(posted, env, id).metadata), Webhook.IntentId(intent));
    LinesWriteOk(cart, posted, t.stock);
    PaymentHandled(t1, o, session, intent);
    var t2 := Webhook.Tables(t1.orders[id := Webhook.MarkPaid(o, Webhook.IntentId(intent))],
                             Webhook.Decremented(t.stock, o.items));
    forall v | v in t.stock ensures t2.stock[v] == t.stock[v] - CartQtyFor(cart, v) {
      Webhook.DecrementedAt(t.stock, o.items, v);
      IntendedQty(cart, v);
    }
  }

  lemma PaymentHandled(t1: Webhook.Tables, o: Orders.Order, session: Webhook.Session, intent: string)
    requires o.id != "" && o.id in t1.orders && t1.orders[o.id] == o && !Webhook.Settled(o)
    requires session == Webhook.Session(Some(map["orderId" := o.id]), Webhook.IntentId(intent))
    requires Webhook.WritesSucceed(t1.stock, o.items, Webhook.NoFault)
    ensures Webhook.Handle(t1, Webhook.VerifiedEvent(Webhook.Event(Webhook.CompletedType, session)), Webhook.NoFault)
      == (Http.Response(200, Http.Received),
          Webhook.Tables(t1.orders[o.id := Webhook.MarkPaid(o, Webhook.IntentId(intent))], Webhook.Decremented(t1.stock, o.items)))
  {
    assert Webhook.OrderIdOf(session) == Some(o.id);
  }

  /** Every variant the intended payload names is in a stock table holding all the cart's variants. */
  lemma LinesWriteOk(cart: seq<Cart.CartItem>, posted: seq<Checkout.CartItemIn>, stock: map<string, int>)
    requires posted == PostedIntended(cart)
    requires forall c | c in cart && c.variant.Some? :: c.variant.value.id in stock
    ensures Webhook.WritesSucceed(stock, Checkout.OrderItemsOf(posted), Webhook.NoFault)
  {
    var items := Checkout.OrderItemsOf(posted);
    forall j | 0 <= j < |items| ensures Webhook.LineWriteOk(stock, items[j], j, Webhook.NoFault) {
      assert items[j].variantId == posted[j].variantId;
      assert cart[j] in cart;
    }
  }
}
