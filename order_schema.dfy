/** The order schema (server/models/Order.js). */
module OrderSchema {
  import opened JsBase
  import opened Timeline

  datatype OrderStatus = Placed | Confirmed | Shipped | OutForDelivery | Delivered | ReturnInitiated | Returned

  function OrderStatusName(s: OrderStatus): string
  {
    match s
    case Placed => "placed"
    case Confirmed => "confirmed"
    case Shipped => "shipped"
    case OutForDelivery => "out-for-delivery"
    case Delivered => "delivered"
    case ReturnInitiated => "return-initiated"
    case Returned => "returned"
  }

  datatype Order = Order(
    id: Id,
    orderNumber: string,
    user: Id,
    product: Id,
    quantity: int,
    totalPrice: real,
    status: OrderStatus,
    fulfilledFrom: Option<Id>,
    fulfilledFromLocal: bool,
    deliveryLocation: NumPoint,
    deliveryAddress: string,
    estimatedDelivery: Option<int>,
    actualDelivery: Option<int>,
    timeline: seq<Entry>,
    sellerWarehouse: Option<Id>,
    costSaved: int,
    timeSaved: real)

  /** An order created from its required fields, the rest taking the schema's
      defaults (an empty timeline, no delivery times). */
  function NewOrder(id: Id, orderNumber: string, user: Id, product: Id, totalPrice: real): Order
  {
    Order(id, orderNumber, user, product, 1, totalPrice, Placed, None, false,
          NumPoint(NaN, NaN), "", None, None, [], None, 0, 0.0)
  }

  /** A new order is placed, for one unit, with nothing saved yet and no
      history. */
  lemma NewOrderDefaults(id: Id, orderNumber: string, user: Id, product: Id, totalPrice: real)
    ensures var o := NewOrder(id, orderNumber, user, product, totalPrice);
      && o.status == Placed && o.quantity == 1 && !o.fulfilledFromLocal
      && o.costSaved == 0 && o.timeSaved == 0.0 && o.timeline == []
      && o.fulfilledFrom.None? && o.estimatedDelivery.None? && o.actualDelivery.None?
  {
  }
}
