/** `POST /api/order_items`: three guards (every field present, every field a
    number, quantity positive with price and subtotal non-negative), then the
    insert of the values exactly as received. */
module OrderItemsRoute {
  import opened Json
  import opened Http

  datatype OrderItemRequest = OrderItemRequest(
    order_id: Value,
    item_id: Value,
    quantity: Value,
    unit_price: Value,
    subtotal: Value)

  datatype OrderItemRow = OrderItemRow(
    order_id: int,
    item_id: int,
    quantity: int,
    unit_price: int,
    subtotal: int,
    created_at: int,
    updated_at: int)

  /** The `order_item` table after the request, and the response. */
  datatype Outcome = Outcome(items: seq<OrderItemRow>, reply: Reply<OrderItemRow>)

  const RequiredError := "All fields are required"
  const TypeError := "Invalid data types"
  const ValueError := "Invalid values: quantity must be positive, price and subtotal must be non-negative"
  const InsertError := "Failed to create order item"

  predicate AnyMissing(req: OrderItemRequest) {
    || req.order_id == Undefined
    || req.item_id == Undefined
    || req.quantity == Undefined
    || req.unit_price == Undefined
    || req.subtotal == Undefined
  }

  predicate AllNumbers(req: OrderItemRequest) {
    && req.order_id.Num?
    && req.item_id.Num?
    && req.quantity.Num?
    && req.unit_price.Num?
    && req.subtotal.Num?
  }

  /** The value guard: quantity positive, price and subtotal non-negative. */
  predicate InRange(req: OrderItemRequest)
    requires AllNumbers(req)
  {
    req.quantity.n > 0 && req.unit_price.n >= 0 && req.subtotal.n >= 0
  }

  /** `POST`: the guards in order, then one row stamped with the single
      timestamp `now` for both `created_at` and `updated_at`. */
  function PostOrderItem(items: seq<OrderItemRow>, req: OrderItemRequest, now: int,
                         insertSucceeds: bool): (out: Outcome)
    ensures AnyMissing(req) ==> out.reply == Failure(400, RequiredError)
    ensures !AnyMissing(req) && !AllNumbers(req) ==> out.reply == Failure(400, TypeError)
    ensures AllNumbers(req) && !InRange(req) ==> out.reply == Failure(400, ValueError)
    ensures AllNumbers(req) && InRange(req) && !insertSucceeds ==> out.reply == Failure(500, InsertError)
    ensures out.reply.Success? <==>
      && AllNumbers(req) && InRange(req) && insertSucceeds
    ensures out.reply.Success? ==>
      && out.reply.status == 201
      && out.items == items + [out.reply.data]
      && out.reply.data == OrderItemRow(req.order_id.n, req.item_id.n, req.quantity.n,
                                        req.unit_price.n, req.subtotal.n, now, now)
    ensures out.reply.Failure? ==> out.items == items
  {
    if AnyMissing(req) then Outcome(items, Failure(400, RequiredError))
    else if !AllNumbers(req) then Outcome(items, Failure(400, TypeError))
    else if !(req.quantity.n > 0 && req.unit_price.n >= 0 && req.subtotal.n >= 0) then
      Outcome(items, Failure(400, ValueError))
    else if !insertSucceeds then Outcome(items, Failure(500, InsertError))
    else
      var row := OrderItemRow(req.order_id.n, req.item_id.n, req.quantity.n,
                              req.unit_price.n, req.subtotal.n, now, now);
      Outcome(items + [row], Success(201, "Order item created successfully", row))
  }

  /** The route never checks `subtotal` against `quantity * unit_price`: a
      line whose subtotal disagrees with its price is stored as sent. */
  lemma SubtotalIsNotRecomputed(items: seq<OrderItemRow>, req: OrderItemRequest, subtotal: int,
                                now: int, insertSucceeds: bool)
    requires req.subtotal.Num? && req.subtotal.n >= 0 && subtotal >= 0
    ensures var out := PostOrderItem(items, req, now, insertSucceeds);
            var out' := PostOrderItem(items, req.(subtotal := Num(subtotal)), now, insertSucceeds);
            && out.reply.Status() == out'.reply.Status()
            && (out'.reply.Success? ==> out'.reply.data.subtotal == subtotal)
  {
  }

  /** Zero price and zero subtotal are accepted; zero quantity is not. */
  lemma ZeroBoundaries(items: seq<OrderItemRow>, now: int)
    ensures PostOrderItem(items, OrderItemRequest(Num(1), Num(1), Num(1), Num(0), Num(0)), now, true).reply.Success?
    ensures PostOrderItem(items, OrderItemRequest(Num(1), Num(1), Num(0), Num(5), Num(0)), now, true).reply
            == Failure(400, ValueError)
  {
  }
}
