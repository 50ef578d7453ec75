/**
 * The client-side cart store (`useCart`): a list of cart lines and two cached
 * totals that every action recomputes from the list.
 */
module Cart {
  import opened Wrappers

  datatype VariantRef = VariantRef(id: string, name: string)

  /** A cart line; `id` combines the product id and, when one is chosen, the variant id. */
  datatype CartItem = CartItem(
    id: string,
    productId: string,
    title: string,
    priceCents: int,
    image: Option<string>,
    quantity: int,
    variant: Option<VariantRef>)

  /** What `addItem` is given: a cart line whose quantity may be missing. */
  datatype NewItem = NewItem(
    id: string,
    productId: string,
    title: string,
    priceCents: int,
    image: Option<string>,
    quantity: Option<int>,
    variant: Option<VariantRef>)

  datatype Totals = Totals(totalItems: int, totalCents: int)

  // ---------------------------------------------------------------------------
  // calculateTotals: two left folds over the list
  // ---------------------------------------------------------------------------

  /** `items.reduce((acc, item) => acc + item.quantity, 0)`. */
  function SumQuantities(items: seq<CartItem>): (n: int)
    ensures items == [] ==> n == 0
    ensures |items| == 1 ==> n == items[0].quantity
  {
    if items == [] then 0
    else SumQuantities(items[..|items| - 1]) + items[|items| - 1].quantity
  }

  /** `items.reduce((acc, item) => acc + item.price_cents * item.quantity, 0)`. */
  function SumCents(items: seq<CartItem>): (n: int)
    ensures items == [] ==> n == 0
    ensures |items| == 1 ==> n == items[0].priceCents * items[0].quantity
  {
    if items == [] then 0
    else SumCents(items[..|items| - 1]) + items[|items| - 1].priceCents * items[|items| - 1].quantity
  }

  /** `calculateTotals`: an empty cart has both totals 0, and lines with
      non-negative prices and quantities never give a negative total. */
  function CalculateTotals(items: seq<CartItem>): (t: Totals)
    ensures items == [] ==> t == Totals(0, 0)
    ensures (forall j | 0 <= j < |items| :: items[j].quantity >= 0 && items[j].priceCents >= 0) ==>
      t.totalItems >= 0 && t.totalCents >= 0
    ensures (forall j | 0 <= j < |items| :: items[j].quantity > 0) ==> t.totalItems >= |items|
  {
    SumsBounds(items);
    Totals(SumQuantities(items), SumCents(items))
  }

  lemma {:induction false} SumsBounds(items: seq<CartItem>)
    ensures (forall j | 0 <= j < |items| :: items[j].quantity >= 0 && items[j].priceCents >= 0) ==>
      SumQuantities(items) >= 0 && SumCents(items) >= 0
    ensures (forall j | 0 <= j < |items| :: items[j].quantity > 0) ==> SumQuantities(items) >= |items|
  {
    if items != [] {
      var init := items[..|items| - 1];
      SumsBounds(init);
      var last := items[|items| - 1];
      if forall j | 0 <= j < |items| :: items[j].quantity >= 0 && items[j].priceCents >= 0 {
        assert forall j | 0 <= j < |init| :: init[j] == items[j];
        assert last.priceCents * last.quantity >= 0;
      }
      if forall j | 0 <= j < |items| :: items[j].quantity > 0 {
        assert forall j | 0 <= j < |init| :: init[j] == items[j];
      }
    }
  }

  /** Both totals are additive over concatenation. */
  lemma {:induction false} SumsAppend(a: seq<CartItem>, b: seq<CartItem>)
    ensures SumQuantities(a + b) == SumQuantities(a) + SumQuantities(b)
    ensures SumCents(a + b) == SumCents(a) + SumCents(b)
  {
    if b == [] {
      assert a + b == a;
    } else {
      var b' := b[..|b| - 1];
      assert (a + b)[..|a + b| - 1] == a + b';
      SumsAppend(a, b');
    }
  }

  /** The totals of a list with one line replaced differ by that line's contribution. */
  lemma SumsReplace(items: seq<CartItem>, k: nat, x: CartItem)
    requires k < |items|
    ensures SumQuantities(items[k := x]) == SumQuantities(items) - items[k].quantity + x.quantity
    ensures SumCents(items[k := x]) == SumCents(items) - items[k].priceCents * items[k].quantity + x.priceCents * x.quantity
  {
    var pre, post := items[..k], items[k + 1..];
    assert items == pre + [items[k]] + post;
    assert items[k := x] == pre + [x] + post;
    SumsAppend(pre + [items[k]], post);
    SumsAppend(pre, [items[k]]);
    SumsAppend(pre + [x], post);
    SumsAppend(pre, [x]);
    assert [x][..0] == [] && [items[k]][..0] == [];
  }

  // ---------------------------------------------------------------------------
  // The list transforms used by the actions
  // ---------------------------------------------------------------------------

  /** `items.find(item => item.id === id)` finds something. */
  predicate Contains(items: seq<CartItem>, id: string)
    // the lookup succeeds exactly when the `removeItem` filter would drop a line
    ensures Contains(items, id) <==> |Without(items, id)| < |items|
  {
    WithoutShrinks(items, id);
    exists j | 0 <= j < |items| :: items[j].id == id
  }

  /** No two cart lines share an id. */
  predicate UniqueIds(items: seq<CartItem>)
  {
    forall i, j | 0 <= i < j < |items| :: items[i].id != items[j].id
  }

  /** `itemToAdd.quantity || 1`: a missing or zero quantity counts as 1. */
  function EffectiveQuantity(q: Option<int>): (n: int)
    ensures n != 0
    ensures q.Some? && q.value != 0 ==> n == q.value
    ensures q.None? || q.value == 0 ==> n == 1
  {
    if q.Some? && q.value != 0 then q.value else 1
  }

  /** The `map` of `addItem`: every line with the given id gains `extra` units. */
  function AddToMatching(items: seq<CartItem>, id: string, extra: int): (r: seq<CartItem>)
    ensures |r| == |items|
    ensures forall j | 0 <= j < |items| ::
      r[j] == if items[j].id == id then items[j].(quantity := items[j].quantity + extra) else items[j]
  {
    if items == [] then []
    else
      var head := if items[0].id == id then items[0].(quantity := items[0].quantity + extra) else items[0];
      [head] + AddToMatching(items[1..], id, extra)
  }

  /** The `map` of `updateItemQuantity`: every line with the given id gets quantity `q`. */
  function SetQuantity(items: seq<CartItem>, id: string, q: int): (r: seq<CartItem>)
    ensures |r| == |items|
    ensures forall j | 0 <= j < |items| ::
      r[j] == if items[j].id == id then items[j].(quantity := q) else items[j]
  {
    if items == [] then []
    else
      var head := if items[0].id == id then items[0].(quantity := q) else items[0];
      [head] + SetQuantity(items[1..], id, q)
  }

  /** The `filter` of `removeItem`: the lines whose id differs, in their order. */
  function Without(items: seq<CartItem>, id: string): (r: seq<CartItem>)
    ensures |r| <= |items|
    ensures forall j | 0 <= j < |r| :: r[j].id != id && r[j] in items
  {
    if items == [] then []
    else if items[0].id == id then Without(items[1..], id)
    else [items[0]] + Without(items[1..], id)
  }

  /** The line `addItem` appends for an id not yet in the cart: the given
      line with its quantity defaulted, never 0. */
  function Entry(x: NewItem): (r: CartItem)
    ensures r.id == x.id && r.productId == x.productId && r.title == x.title
    ensures r.priceCents == x.priceCents && r.image == x.image && r.variant == x.variant
    ensures r.quantity != 0 && (x.quantity.Some? && x.quantity.value != 0 ==> r.quantity == x.quantity.value)
  {
    CartItem(x.id, x.productId, x.title, x.priceCents, x.image, EffectiveQuantity(x.quantity), x.variant)
  }

  /** The filter drops a line exactly when some line has the id. */
  lemma {:induction false} WithoutShrinks(items: seq<CartItem>, id: string)
    ensures (exists j | 0 <= j < |items| :: items[j].id == id) <==> |Without(items, id)| < |items|
  {
    if items != [] {
      var rest := items[1..];
      WithoutShrinks(rest, id);
      if exists j | 0 <= j < |rest| :: rest[j].id == id {
        var j :| 0 <= j < |rest| && rest[j].id == id;
        assert items[j + 1].id == id;
      }
      if exists j | 0 <= j < |items| :: items[j].id == id {
        var j :| 0 <= j < |items| && items[j].id == id;
        if j > 0 {
          assert rest[j - 1].id == id;
        }
      }
    }
  }

  /** The list `addItem` stores. */
  function AddedItems(items: seq<CartItem>, x: NewItem): (r: seq<CartItem>)
    // an id already present: that line (every such line) gains `quantity || 1`, nothing else changes
    ensures Contains(items, x.id) ==>
      |r| == |items| &&
      forall j | 0 <= j < |items| ::
        r[j] == if items[j].id == x.id
                then items[j].(quantity := items[j].quantity + EffectiveQuantity(x.quantity))
                else items[j]
    // a new id: exactly one line is appended at the end, the others are kept in order
    ensures !Contains(items, x.id) ==>
      |r| == |items| + 1 && r[..|items|] == items && r[|items|] == Entry(x) &&
      r[|items|].id == x.id && r[|items|].quantity == EffectiveQuantity(x.quantity)
  {
    if Contains(items, x.id) then AddToMatching(items, x.id, EffectiveQuantity(x.quantity))
    else items + [Entry(x)]
  }

  /** The list `updateItemQuantity` stores: with a positive quantity the same
      lines in the same order, those with the id now holding `q` units; with
      zero or less, the other lines only. */
  function UpdatedItems(items: seq<CartItem>, id: string, q: int): (r: seq<CartItem>)
    ensures q > 0 ==>
      |r| == |items| &&
      forall j | 0 <= j < |items| ::
        r[j].id == items[j].id && r[j].priceCents == items[j].priceCents &&
        r[j].quantity == (if items[j].id == id then q else items[j].quantity)
    ensures q <= 0 ==> !Contains(r, id) && |r| <= |items| && forall j | 0 <= j < |r| :: r[j] in items
  {
    if q > 0 then SetQuantity(items, id, q) else Without(items, id)
  }

  // ---------------------------------------------------------------------------
  // Properties of the transforms
  // ---------------------------------------------------------------------------

  /** `addItem` keeps the ids unique. */
  lemma AddKeepsIdsUnique(items: seq<CartItem>, x: NewItem)
    requires UniqueIds(items)
    ensures UniqueIds(AddedItems(items, x))
  {
    var r := AddedItems(items, x);
    if !Contains(items, x.id) {
      forall i, j | 0 <= i < j < |r| ensures r[i].id != r[j].id {
        if j == |items| {
          assert r[i] == items[i];
        } else {
          assert r[i] == items[i] && r[j] == items[j];
        }
      }
    }
  }

  /** With unique ids, `addItem` on a present id raises the item count by
      `quantity || 1` and the amount by that many units at the price of the
      line that receives them. */
  lemma AddTotalsExisting(items: seq<CartItem>, x: NewItem, k: nat)
    requires UniqueIds(items) && k < |items| && items[k].id == x.id
    ensures SumQuantities(AddedItems(items, x)) == SumQuantities(items) + EffectiveQuantity(x.quantity)
    ensures SumCents(AddedItems(items, x)) == SumCents(items) + items[k].priceCents * EffectiveQuantity(x.quantity)
  {
    AddToPresent(items, x, k);
    AddTotalsOnLine(items, x, k);
  }

  /** When `addItem` raises line `k` alone, the totals grow by `quantity || 1`
      items and that many units at the line's price. */
  lemma AddTotalsOnLine(items: seq<CartItem>, x: NewItem, k: nat)
    requires k < |items|
    requires AddedItems(items, x) == items[k := items[k].(quantity := items[k].quantity + EffectiveQuantity(x.quantity))]
    ensures SumQuantities(AddedItems(items, x)) == SumQuantities(items) + EffectiveQuantity(x.quantity)
    ensures SumCents(AddedItems(items, x)) == SumCents(items) + items[k].priceCents * EffectiveQuantity(x.quantity)
  {
    BumpTotals(items, k, EffectiveQuantity(x.quantity));
  }

  /** Raising one line's quantity by `n` adds `n` items and `n` units at its price. */
  lemma BumpTotals(items: seq<CartItem>, k: nat, n: int)
    requires k < |items|
    ensures var r := items[k := items[k].(quantity := items[k].quantity + n)];
      SumQuantities(r) == SumQuantities(items) + n &&
      SumCents(r) == SumCents(items) + items[k].priceCents * n
  {
    var bumped := items[k].(quantity := items[k].quantity + n);
    SumsReplace(items, k, bumped);
    CentsStep(SumCents(items), items[k].priceCents, items[k].quantity, n);
  }

  /** With unique ids, `addItem` on a present id changes exactly the one line
      holding that id. */
  lemma AddToPresent(items: seq<CartItem>, x: NewItem, k: nat)
    requires UniqueIds(items) && k < |items| && items[k].id == x.id
    ensures AddedItems(items, x) == items[k := items[k].(quantity := items[k].quantity + EffectiveQuantity(x.quantity))]
  {
    var bumped := items[k].(quantity := items[k].quantity + EffectiveQuantity(x.quantity));
    assert Contains(items, x.id);
    var r := AddedItems(items, x);
    forall j | 0 <= j < |items| ensures r[j] == items[k := bumped][j] {
      if j != k {
        assert items[j].id != x.id;
      }
    }
  }

  /** Raising a line's quantity from `q` to `q + n` at price `p` adds `p * n`. */
  lemma CentsStep(total: int, p: int, q: int, n: int)
    ensures total - p * q + p * (q + n) == total + p * n
  {
    assert p * (q + n) == p * q + p * n;
  }

  /** `addItem` on a new id raises the item count by `quantity || 1` and the
      amount by that many units at the given price. */
  lemma AddTotalsNew(items: seq<CartItem>, x: NewItem)
    requires !Contains(items, x.id)
    ensures SumQuantities(AddedItems(items, x)) == SumQuantities(items) + EffectiveQuantity(x.quantity)
    ensures SumCents(AddedItems(items, x)) == SumCents(items) + x.priceCents * EffectiveQuantity(x.quantity)
  {
    SumsAppend(items, [Entry(x)]);
    assert [Entry(x)][..0] == [];
  }

  /** `removeItem` distributes over concatenation, so it keeps the surviving lines in order. */
  lemma {:induction false} WithoutAppend(a: seq<CartItem>, b: seq<CartItem>, id: string)
    ensures Without(a + b, id) == Without(a, id) + Without(b, id)
  {
    if a == [] {
      assert a + b == b;
    } else {
      assert (a + b)[1..] == a[1..] + b;
      WithoutAppend(a[1..], b, id);
    }
  }

  /** A line whose id differs survives the filter. */
  lemma {:induction false} WithoutKeepsOthers(items: seq<CartItem>, id: string, x: CartItem)
    requires x in items && x.id != id
    ensures x in Without(items, id)
  {
    if x != items[0] {
      assert items == [items[0]] + items[1..];
      WithoutKeepsOthers(items[1..], id, x);
    }
  }

  /** Removing an id no line has leaves the list as it is. */
  lemma {:induction false} WithoutAbsent(items: seq<CartItem>, id: string)
    requires !Contains(items, id)
    ensures Without(items, id) == items
  {
    if items != [] {
      var rest := items[1..];
      assert items[0].id != id;
      assert !Contains(rest, id) by {
        forall j | 0 <= j < |rest| ensures rest[j].id != id {
          assert rest[j] == items[j + 1];
        }
      }
      WithoutAbsent(rest, id);
      assert Without(items, id) == [items[0]] + Without(rest, id);
      assert items == [items[0]] + rest;
    }
  }

  /** With unique ids, removing a present id drops exactly its one line. */
  lemma {:induction false} RemoveExactlyOne(items: seq<CartItem>, k: nat)
    requires UniqueIds(items) && k < |items|
    ensures Without(items, items[k].id) == items[..k] + items[k + 1..]
  {
    var id := items[k].id;
    var rest := items[1..];
    UniqueTail(items);
    if k == 0 {
      WithoutAbsent(rest, id);
    } else {
      assert rest[k - 1] == items[k];
      RemoveExactlyOne(rest, k - 1);
      assert items[0].id != id;
      assert Without(items, id) == [items[0]] + Without(rest, id);
      assert items[..k] == [items[0]] + rest[..k - 1];
      assert items[k + 1..] == rest[k..];
    }
  }

  /** The lines after the first of a list with unique ids have unique ids,
      none of them the first line's. */
  lemma UniqueTail(items: seq<CartItem>)
    requires UniqueIds(items) && items != []
    ensures UniqueIds(items[1..]) && !Contains(items[1..], items[0].id)
  {
    var rest := items[1..];
    forall i, j | 0 <= i < j < |rest| ensures rest[i].id != rest[j].id {
      assert rest[i] == items[i + 1] && rest[j] == items[j + 1];
    }
    forall j | 0 <= j < |rest| ensures rest[j].id != items[0].id {
      assert rest[j] == items[j + 1];
    }
  }

  /** The filtered list of a list with unique ids has unique ids. */
  lemma {:induction false} WithoutKeepsIdsUnique(items: seq<CartItem>, id: string)
    requires UniqueIds(items)
    ensures UniqueIds(Without(items, id))
  {
    if items != [] {
      var rest := items[1..];
      UniqueTail(items);
      WithoutKeepsIdsUnique(rest, id);
      if items[0].id != id {
        var r := Without(rest, id);
        forall j | 0 <= j < |r| ensures items[0].id != r[j].id {
          var m :| 0 <= m < |rest| && rest[m] == r[j];
        }
        assert Without(items, id) == [items[0]] + r;
      }
    }
  }

  /** `updateItemQuantity` with a positive quantity changes only that line's
      quantity; with zero or less it is `removeItem`. Ids stay unique. */
  lemma UpdateSpec(items: seq<CartItem>, id: string, q: int)
    ensures q <= 0 ==> UpdatedItems(items, id, q) == Without(items, id)
    ensures q > 0 ==>
      var r := UpdatedItems(items, id, q);
      |r| == |items| &&
      forall j | 0 <= j < |items| ::
        r[j] == if items[j].id == id then items[j].(quantity := q) else items[j]
    ensures UniqueIds(items) ==> UniqueIds(UpdatedItems(items, id, q))
  {
    if UniqueIds(items) && q <= 0 {
      WithoutKeepsIdsUnique(items, id);
    }
  }

  // ---------------------------------------------------------------------------
  // The store
  // ---------------------------------------------------------------------------

  class CartStore {
    var items: seq<CartItem>
    var totalItems: int
    var totalCents: int

    /** The cached totals are the sums over the list. */
    ghost predicate Valid()
      reads this
      ensures Valid() && items == [] ==> totalItems == 0 && totalCents == 0
    {
      totalItems == SumQuantities(items) && totalCents == SumCents(items)
    }

    /** The initial state: no lines, both totals 0. */
    constructor ()
      ensures Valid()
      ensures items == [] && totalItems == 0 && totalCents == 0
    {
      items := [];
      totalItems := 0;
      totalCents := 0;
    }

    /** `set({ items, ...calculateTotals(items) })`. */
    method Commit(updated: seq<CartItem>)
      modifies this
      ensures items == updated && Valid()
    {
      var t := CalculateTotals(updated);
      items := updated;
      totalItems := t.totalItems;
      totalCents := t.totalCents;
    }

    method AddItem(x: NewItem)
      modifies this
      ensures items == AddedItems(old(items), x) && Valid()
      ensures UniqueIds(old(items)) ==> UniqueIds(items)
    {
      if UniqueIds(items) {
        AddKeepsIdsUnique(items, x);
      }
      Commit(AddedItems(items, x));
    }

    method RemoveItem(id: string)
      modifies this
      ensures items == Without(old(items), id) && Valid()
      ensures UniqueIds(old(items)) ==> UniqueIds(items)
    {
      if UniqueIds(items) {
        WithoutKeepsIdsUnique(items, id);
      }
      Commit(Without(items, id));
    }

    method UpdateItemQuantity(id: string, q: int)
      modifies this
      ensures items == UpdatedItems(old(items), id, q) && Valid()
      ensures UniqueIds(old(items)) ==> UniqueIds(items)
    {
      UpdateSpec(items, id, q);
      Commit(UpdatedItems(items, id, q));
    }

    /** `clearCart`: back to the initial state. */
    method ClearCart()
      modifies this
      ensures items == [] && totalItems == 0 && totalCents == 0
      ensures Valid()
    {
      items, totalItems, totalCents := [], 0, 0;
    }
  }

  /** The reduce of `onRehydrateStorage`: an accumulator updated line by line. */
  method ReduceTotals(items: seq<CartItem>) returns (acc: Totals)
    ensures acc == CalculateTotals(items)
  {
    acc := Totals(0, 0);
    var i := 0;
    while i < |items|
      invariant 0 <= i <= |items|
      invariant acc == CalculateTotals(items[..i])
    {
      assert items[..i + 1][..i] == items[..i];
      acc := acc.(totalItems := acc.totalItems + items[i].quantity,
                  totalCents := acc.totalCents + items[i].priceCents * items[i].quantity);
      i := i + 1;
    }
    assert items[..|items|] == items;
  }

  /** `onRehydrateStorage`: a restored state gets its totals recomputed from the
      stored lines, whatever totals were stored; no state means nothing to do. */
  method Rehydrate(state: CartStore?)
    modifies state
    ensures state != null ==> state.items == old(state.items) && state.Valid()
  {
    if state != null {
      var t := ReduceTotals(state.items);
      state.totalItems := t.totalItems;
      state.totalCents := t.totalCents;
    }
  }
}
