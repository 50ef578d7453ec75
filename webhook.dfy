/**
 * The payment webhook (`POST /api/webhooks/stripe`): a verified
 * `checkout.session.completed` event marks its order paid and lowers the stock
 * of the ordered variants, all inside one database transaction.
 */
module Webhook {
  import opened Wrappers
  import opened Orders
  import opened Http

  const CompletedType := "checkout.session.completed"

  /** `session.payment_intent`: an id string, an expanded object, or null. */
  datatype PaymentIntent = IntentId(id: string) | IntentObject | NoIntent

  datatype Session = Session(metadata: Option<map<string, string>>, paymentIntent: PaymentIntent)

  datatype Event = Event(eventType: string, session: Session)

  /** What `stripe.webhooks.constructEvent` gives for the raw body and the
      signature header: a verified event, or a thrown value (`Some(message)`
      for an `Error`, `None` for anything else). */
  datatype Verification = VerifiedEvent(event: Event) | Rejected(message: Option<string>)

  /** A database failure inside the transaction: the order lookup, the order
      update, or the stock update for the order line at `itemIndex`. */
  datatype DbFault = NoFault | FindFails | OrderUpdateFails | VariantUpdateFails(itemIndex: nat)

  /** The order table and the variant stock table. */
  datatype Tables = Tables(orders: map<string, Order>, stock: map<string, int>)

  // ---------------------------------------------------------------------------
  // Specification
  // ---------------------------------------------------------------------------

  /** `session.metadata?.orderId`. */
  function OrderIdOf(s: Session): (r: Option<string>)
    ensures r.Some? <==> s.metadata.Some? && "orderId" in s.metadata.value
    ensures r.Some? ==> r.value == s.metadata.value["orderId"]
  {
    if s.metadata.Some? && "orderId" in s.metadata.value then Some(s.metadata.value["orderId"]) else None
  }

  /** The thrown value's message when it is an `Error`, a fixed text otherwise. */
  function ErrorText(message: Option<string>): (r: string)
    ensures message.Some? ==> r == message.value
    ensures message.None? ==> r == "Unknown webhook error"
  {
    if message.Some? then message.value else "Unknown webhook error"
  }

  /** The idempotency guard: `order.payment_intent_id` is truthy, so an order
      whose id is null or the empty string is not yet settled. */
  predicate Settled(o: Order)
    ensures !Settled(o) <==> o.paymentIntentId in {None, Some("")}
  {
    o.paymentIntentId.Some? && o.paymentIntentId.value != ""
  }

  /** The value written to `payment_intent_id`: the id when it is a string, null otherwise. */
  function StoredIntent(p: PaymentIntent): (r: Option<string>)
    ensures r.Some? <==> p.IntentId?
    ensures r.Some? ==> r.value == p.id
  {
    if p.IntentId? then Some(p.id) else None
  }

  /** The order update: status PAID and the stored intent; the order settles
      exactly when the intent is a non-empty string. */
  function MarkPaid(o: Order, p: PaymentIntent): (r: Order)
    ensures r.status == Paid
    ensures r.paymentIntentId.Some? <==> p.IntentId?
    ensures p.IntentId? ==> r.paymentIntentId.value == p.id
    ensures Settled(r) <==> p.IntentId? && p.id != ""
    ensures r.id == o.id && r.totalCents == o.totalCents && r.items == o.items
    ensures r.shippingAddressId == o.shippingAddressId && r.billingAddressId == o.billingAddressId
  {
    o.(status := Paid, paymentIntentId := StoredIntent(p))
  }

  /** `if (item.variantId)`: the order line names a variant, that is its
      variant id is present and not the empty string. */
  predicate NamesVariant(item: OrderItem)
    ensures !NamesVariant(item) <==> item.variantId in {None, Some("")}
  {
    item.variantId.Some? && item.variantId.value != ""
  }

  /** The stock table after one `decrement: qty` per order line that names a
      variant present in the table, with no lower bound. */
  function Decremented(stock: map<string, int>, items: seq<OrderItem>): (r: map<string, int>)
    ensures r.Keys == stock.Keys
  {
    if items == [] then stock
    else
      var s := Decremented(stock, items[..|items| - 1]);
      var item := items[|items| - 1];
      if NamesVariant(item) && item.variantId.value in s
      then s[item.variantId.value := s[item.variantId.value] - item.qty]
      else s
  }

  /** The total quantity the order lines take from variant `v`; a line with an
      empty variant id names no variant, so nothing is taken from `""`. */
  function QtyFor(items: seq<OrderItem>, v: string): (n: int)
    ensures (forall j | 0 <= j < |items| :: items[j].variantId != Some(v)) ==> n == 0
    ensures v == "" ==> n == 0
  {
    if items == [] then 0
    else
      var item := items[|items| - 1];
      QtyFor(items[..|items| - 1], v) + (if NamesVariant(item) && item.variantId == Some(v) then item.qty else 0)
  }

  /** The stock update for order line `j` succeeds. */
  predicate LineWriteOk(stock: map<string, int>, item: OrderItem, j: nat, fault: DbFault)
  {
    NamesVariant(item) ==> item.variantId.value in stock && fault != VariantUpdateFails(j)
  }

  /** Every write of the fulfilment succeeds; an update of a missing variant row fails. */
  predicate WritesSucceed(stock: map<string, int>, items: seq<OrderItem>, fault: DbFault)
  {
    fault != OrderUpdateFails &&
    forall j | 0 <= j < |items| :: LineWriteOk(stock, items[j], j, fault)
  }

  /** The `prisma.$transaction` callback: the new tables, or `None` when it throws
      (and the transaction rolls back). */
  function Transaction(t: Tables, orderId: string, p: PaymentIntent, fault: DbFault): (r: Option<Tables>)
    // it throws exactly when the lookup fails or a write of an unsettled order's fulfilment fails
    ensures r.None? <==>
      fault == FindFails ||
      (orderId in t.orders && !Settled(t.orders[orderId]) && !WritesSucceed(t.stock, t.orders[orderId].items, fault))
    // no row is created or deleted, and no other order changes
    ensures r.Some? ==> r.value.orders.Keys == t.orders.Keys && r.value.stock.Keys == t.stock.Keys
    ensures r.Some? ==> forall id | id in t.orders && id != orderId :: r.value.orders[id] == t.orders[id]
    // a missing or settled order is left alone, an unsettled one becomes PAID
    ensures r.Some? && (orderId !in t.orders || Settled(t.orders[orderId])) ==> r.value == t
    ensures r.Some? && orderId in t.orders && !Settled(t.orders[orderId]) ==> r.value.orders[orderId].status == Paid
  {
    if fault == FindFails then None
    else if orderId !in t.orders || Settled(t.orders[orderId]) then Some(t)
    else
      var o := t.orders[orderId];
      if WritesSucceed(t.stock, o.items, fault)
      then Some(Tables(t.orders[orderId := MarkPaid(o, p)], Decremented(t.stock, o.items)))
      else None
  }

  /** The whole request. Only a verified `checkout.session.completed` event
      carrying an order id can change the tables, and every answer other than
      200 leaves them as they were. */
  function Handle(t: Tables, v: Verification, fault: DbFault): (out: (Response, Tables))
    ensures out.1 != t ==>
      out.0 == Response(200, Received) && v.VerifiedEvent? && v.event.eventType == CompletedType &&
      OrderIdOf(v.event.session).Some?
    ensures out.0.status != 200 ==> out.1 == t
    ensures v.Rejected? ==> out.0 == Response(400, Message("Webhook Error: " + ErrorText(v.message)))
    ensures v.VerifiedEvent? && v.event.eventType != CompletedType ==> out.0 == Response(200, Received)
    ensures v.VerifiedEvent? && v.event.eventType == CompletedType && OrderIdOf(v.event.session) in {None, Some("")} ==>
      out.0 == Response(400, Message("Metadata manquante."))
  {
    match v
    case Rejected(message) => (Response(400, Message("Webhook Error: " + ErrorText(message))), t)
    case VerifiedEvent(ev) =>
      var orderId := OrderIdOf(ev.session);
      if ev.eventType != CompletedType then (Response(200, Received), t)
      else if orderId.None? || orderId.value == "" then (Response(400, Message("Metadata manquante.")), t)
      else match Transaction(t, orderId.value, ev.session.paymentIntent, fault)
        case Some(t') => (Response(200, Received), t')
        case None => (Response(500, Message("Erreur interne lors du traitement.")), t)
  }

  // ---------------------------------------------------------------------------
  // The handler
  // ---------------------------------------------------------------------------

  /** The database the handler works on. */
  class Database {
    var orders: map<string, Order>
    var stock: map<string, int>

    constructor (orders: map<string, Order>, stock: map<string, int>)
      ensures this.orders == orders && this.stock == stock
    {
      this.orders := orders;
      this.stock := stock;
    }
  }

  /** Runs the transaction callback on working copies of the tables and commits
      them only when the callback completes. */
  method RunTransaction(db: Database, orderId: string, p: PaymentIntent, fault: DbFault) returns (committed: bool)
    modifies db
    ensures var r := Transaction(old(Tables(db.orders, db.stock)), orderId, p, fault);
      committed == r.Some? &&
      Tables(db.orders, db.stock) == if committed then r.value else old(Tables(db.orders, db.stock))
  {
    if fault == FindFails {
      return false;
    }
    if orderId !in db.orders || Settled(db.orders[orderId]) {
      return true;
    }
    var order := db.orders[orderId];
    if fault == OrderUpdateFails {
      return false;
    }
    var ok, stock := DecrementStock(db.stock, order.items, fault);
    if !ok {
      return false;
    }
    db.orders, db.stock := db.orders[orderId := MarkPaid(order, p)], stock;
    committed := true;
  }

  /** The stock loop: one `decrement` per order line naming a variant; it stops
      at the first update that throws. */
  method DecrementStock(stock: map<string, int>, items: seq<OrderItem>, fault: DbFault) returns (ok: bool, s: map<string, int>)
    ensures ok <==> forall j | 0 <= j < |items| :: LineWriteOk(stock, items[j], j, fault)
    ensures ok ==> s == Decremented(stock, items)
  {
    s := stock;
    var i := 0;
    while i < |items|
      invariant 0 <= i <= |items|
      invariant s == Decremented(stock, items[..i])
      invariant forall j | 0 <= j < i :: LineWriteOk(stock, items[j], j, fault)
    {
      var item := items[i];
      DecrementedStep(stock, items, i);
      if item.variantId.Some? && item.variantId.value != "" {
        var v := item.variantId.value;
        assert v in s <==> v in stock;
        if v !in s || fault == VariantUpdateFails(i) {
          assert !LineWriteOk(stock, items[i], i, fault);
          return false, s;
        }
        s := s[v := s[v] - item.qty];
      }
      assert LineWriteOk(stock, items[i], i, fault);
      i := i + 1;
    }
    assert items[..i] == items;
    ok := true;
  }

  /** One more order line: the stock of its variant, when present, drops by its quantity. */
  lemma DecrementedStep(stock: map<string, int>, items: seq<OrderItem>, i: nat)
    requires i < |items|
    ensures var s := Decremented(stock, items[..i]);
      var item := items[i];
      Decremented(stock, items[..i + 1]) ==
        if NamesVariant(item) && item.variantId.value in s then s[item.variantId.value := s[item.variantId.value] - item.qty] else s
  {
    assert items[..i + 1][..i] == items[..i];
  }

  method Post(db: Database, v: Verification, fault: DbFault) returns (resp: Response)
    modifies db
    ensures (resp, Tables(db.orders, db.stock)) == Handle(old(Tables(db.orders, db.stock)), v, fault)
  {
    if v.Rejected? {
      return Response(400, Message("Webhook Error: " + ErrorText(v.message)));
    }
    var session := v.event.session;
    var orderId := OrderIdOf(session);
    if v.event.eventType == CompletedType {
      if orderId.None? || orderId.value == "" {
        return Response(400, Message("Metadata manquante."));
      }
      var committed := RunTransaction(db, orderId.value, session.paymentIntent, fault);
      if !committed {
        return Response(500, Message("Erreur interne lors du traitement."));
      }
    }
    resp := Response(200, Received);
  }

  // ---------------------------------------------------------------------------
  // Properties
  // ---------------------------------------------------------------------------

  /** Each variant loses the summed quantity of the lines naming it, with no
      floor at 0; a variant no line names keeps its stock. */
  lemma {:induction false} DecrementedAt(stock: map<string, int>, items: seq<OrderItem>, v: string)
    requires v in stock
    ensures Decremented(stock, items)[v] == stock[v] - QtyFor(items, v)
  {
    if items != [] {
      DecrementedAt(stock, items[..|items| - 1], v);
    }
  }

  /** Order lines that name no variant (none, or an empty id) leave the stock
      table as it is. */
  lemma {:induction false} DecrementedUnnamed(stock: map<string, int>, items: seq<OrderItem>)
    requires forall j | 0 <= j < |items| :: !NamesVariant(items[j])
    ensures Decremented(stock, items) == stock
  {
    if items != [] {
      DecrementedUnnamed(stock, items[..|items| - 1]);
    }
  }

  /** A completed event for a missing order, or for one whose payment intent id
      is already set, answers 200 and writes nothing (unless the lookup fails). */
  lemma GuardWritesNothing(t: Tables, ev: Event, fault: DbFault)
    requires ev.eventType == CompletedType
    requires OrderIdOf(ev.session).Some? && OrderIdOf(ev.session).value != ""
    requires var id := OrderIdOf(ev.session).value; id !in t.orders || Settled(t.orders[id])
    ensures Handle(t, VerifiedEvent(ev), fault) ==
      if fault == FindFails then (Response(500, Message("Erreur interne lors du traitement.")), t)
      else (Response(200, Received), t)
  {
  }

  /** A successful fulfilment: the order becomes PAID with the string payment
      intent (or null), no other order and no other order field changes, and
      each variant loses exactly what the order lines take from it. */
  lemma FulfilmentEffect(t: Tables, ev: Event, fault: DbFault)
    requires ev.eventType == CompletedType
    requires OrderIdOf(ev.session).Some? && OrderIdOf(ev.session).value != ""
    requires var id := OrderIdOf(ev.session).value; id in t.orders && !Settled(t.orders[id])
    requires WritesSucceed(t.stock, t.orders[OrderIdOf(ev.session).value].items, fault)
    requires fault != FindFails
    ensures var id := OrderIdOf(ev.session).value;
      var o := t.orders[id];
      var (resp, t') := Handle(t, VerifiedEvent(ev), fault);
      resp == Response(200, Received) &&
      t'.orders.Keys == t.orders.Keys &&
      (forall id' | id' in t.orders && id' != id :: t'.orders[id'] == t.orders[id']) &&
      t'.orders[id].status == Paid &&
      t'.orders[id].paymentIntentId == (if ev.session.paymentIntent.IntentId? then Some(ev.session.paymentIntent.id) else None) &&
      t'.orders[id] == o.(status := t'.orders[id].status, paymentIntentId := t'.orders[id].paymentIntentId) &&
      t'.stock.Keys == t.stock.Keys &&
      (forall w | w in t.stock :: t'.stock[w] == t.stock[w] - QtyFor(o.items, w))
  {
    var id := OrderIdOf(ev.session).value;
    var o := t.orders[id];
    var t' := Handle(t, VerifiedEvent(ev), fault).1;
    assert t' == Tables(t.orders[id := MarkPaid(o, ev.session.paymentIntent)], Decremented(t.stock, o.items));
    forall w | w in t.stock ensures t'.stock[w] == t.stock[w] - QtyFor(o.items, w) {
      DecrementedAt(t.stock, o.items, w);
    }
  }

  /** Any failure inside the transaction answers 500 and keeps both tables. */
  lemma FailureRollsBack(t: Tables, ev: Event, fault: DbFault)
    requires ev.eventType == CompletedType
    requires OrderIdOf(ev.session).Some? && OrderIdOf(ev.session).value != ""
    requires var id := OrderIdOf(ev.session).value;
      fault == FindFails ||
      (id in t.orders && !Settled(t.orders[id]) && !WritesSucceed(t.stock, t.orders[id].items, fault))
    ensures Handle(t, VerifiedEvent(ev), fault) == (Response(500, Message("Erreur interne lors du traitement.")), t)
  {
  }

  /** Redelivering an event that was answered with anything but 500 changes
      nothing more, provided `payment_intent` is a non-empty string: the guard
      keys on the stored payment intent id, not on the status. */
  lemma {:induction false} RedeliveryIsNoOp(t: Tables, v: Verification, fault1: DbFault, fault2: DbFault)
    requires v.VerifiedEvent? ==> v.event.session.paymentIntent.IntentId? && v.event.session.paymentIntent.id != ""
    ensures var (resp1, t1) := Handle(t, v, fault1);
      var (resp2, t2) := Handle(t1, v, fault2);
      resp1.status != 500 ==> t2 == t1 && (fault2 != FindFails ==> resp2 == resp1)
  {
    var (resp1, t1) := Handle(t, v, fault1);
    if v.VerifiedEvent? && v.event.eventType == CompletedType && resp1.status != 500 {
      var s := v.event.session;
      var id := OrderIdOf(s);
      if id.Some? && id.value != "" && id.value in t.orders && !Settled(t.orders[id.value]) {
        assert t1.orders[id.value] == MarkPaid(t.orders[id.value], s.paymentIntent);
        assert Settled(t1.orders[id.value]);
      }
    }
  }

  /** When `payment_intent` is not a string the id is stored as null, so a
      redelivery passes the guard again and takes the stock a second time. */
  lemma NullIntentRedeliveryDecrementsTwice()
    ensures var order := Order("o1", 2000, Pending, None, "shippingAddressId", "billingAddressId",
                               [OrderItem("p1", Some("v1"), 2, 1000)]);
      var t := Tables(map["o1" := order], map["v1" := 5]);
      var ev := VerifiedEvent(Event(CompletedType, Session(Some(map["orderId" := "o1"]), NoIntent)));
      var t1 := Handle(t, ev, NoFault).1;
      var t2 := Handle(t1, ev, NoFault).1;
      t1.stock["v1"] == 3 && t2.stock["v1"] == 1 && t2.orders["o1"].status == Paid
  {
    var order := Order("o1", 2000, Pending, None, "shippingAddressId", "billingAddressId",
                       [OrderItem("p1", Some("v1"), 2, 1000)]);
    var items := order.items;
    assert items[..0] == [];
    assert Decremented(map["v1" := 5], items) == map["v1" := 3];
    assert Decremented(map["v1" := 3], items) == map["v1" := 1];
  }

  /** Stock has no lower bound: an order for more than is in stock drives it negative. */
  lemma StockCanGoNegative()
    ensures var order := Order("o1", 3000, Pending, None, "shippingAddressId", "billingAddressId",
                               [OrderItem("p1", Some("v1"), 3, 1000)]);
      var t := Tables(map["o1" := order], map["v1" := 1]);
      var ev := VerifiedEvent(Event(CompletedType, Session(Some(map["orderId" := "o1"]), IntentId("pi_1"))));
      Handle(t, ev, NoFault) == (Response(200, Received),
        Tables(map["o1" := order.(status := Paid, paymentIntentId := Some("pi_1"))], map["v1" := -2]))
  {
    var order := Order("o1", 3000, Pending, None, "shippingAddressId", "billingAddressId",
                       [OrderItem("p1", Some("v1"), 3, 1000)]);
    var items := order.items;
    assert items[..0] == [];
    assert Decremented(map["v1" := 1], items) == map["v1" := -2];
    var paid := MarkPaid(order, IntentId("pi_1"));
    assert paid == order.(status := Paid, paymentIntentId := Some("pi_1"));
    assert map["o1" := order]["o1" := paid] == map["o1" := paid];
  }

  /** `if (item.variantId)` is false for the empty string: a line whose variant
      id is `""` takes no stock, even when a row has that key. */
  lemma EmptyVariantIdSkipped()
    ensures var order := Order("o1", 1000, Pending, None, "shippingAddressId", "billingAddressId",
                               [OrderItem("p1", Some(""), 1, 1000)]);
      var t := Tables(map["o1" := order], map["" := 4]);
      var ev := VerifiedEvent(Event(CompletedType, Session(Some(map["orderId" := "o1"]), IntentId("pi_1"))));
      Handle(t, ev, NoFault) == (Response(200, Received),
        Tables(map["o1" := order.(status := Paid, paymentIntentId := Some("pi_1"))], map["" := 4]))
  {
    var order := Order("o1", 1000, Pending, None, "shippingAddressId", "billingAddressId",
                       [OrderItem("p1", Some(""), 1, 1000)]);
    var items := order.items;
    assert items[..0] == [];
    assert Decremented(map["" := 4], items) == map["" := 4];
    var paid := MarkPaid(order, IntentId("pi_1"));
    assert paid == order.(status := Paid, paymentIntentId := Some("pi_1"));
    assert map["o1" := order]["o1" := paid] == map["o1" := paid];
  }
}
