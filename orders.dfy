/**
 * The persisted order rows written by the checkout route and read by the
 * payment webhook. The database schema itself is not part of this model;
 * the fields are those the two routes read and write.
 */
module Orders {
  import opened Wrappers

  datatype Status = Pending | Paid

  /** One order line: the unit price is captured when the order is created. */
  datatype OrderItem = OrderItem(productId: string, variantId: Option<string>, qty: int, priceCents: int)

  datatype Order = Order(
    id: string,
    totalCents: int,
    status: Status,
    paymentIntentId: Option<string>,
    shippingAddressId: string,
    billingAddressId: string,
    items: seq<OrderItem>)

  /** Sum over the order lines of `price_cents * qty`. */
  function ItemsTotal(items: seq<OrderItem>): int
  {
    if items == [] then 0
    else ItemsTotal(items[..|items| - 1]) + items[|items| - 1].priceCents * items[|items| - 1].qty
  }
}
