/** `POST /api/orders`: the chain of guards that decides whether an order
    header is inserted (required fields, then types, then a non-negative
    total, then a known status), and the row that is inserted. */
module OrdersRoute {
  import opened Json
  import opened Http
  import opened Text
  import opened Optional

  /** The parsed request body. */
  datatype OrderRequest = OrderRequest(
    customer_id: Value,
    admin_name: Value,
    order_date: Value,
    order_status: Value,
    order_total_price: Value)

  /** `order_date` after the handler's normalisation: a string is replaced by
      `new Date(text)`, which is an object even when it is an Invalid Date;
      any other value is left as it was. */
  datatype DateField = DateObject(text: string, valid: bool) | Raw(v: Value)

  datatype OrderRow = OrderRow(
    customer_id: int,
    admin_name: string,
    order_date: string,
    order_status: string,
    order_total_price: int,
    created_at: int,
    updated_at: int)

  /** The `order` table after the request, and the response. */
  datatype Outcome = Outcome(orders: seq<OrderRow>, reply: Reply<OrderRow>)

  const RequiredError := "All fields are required"
  const TypeError := "Invalid data types for one or more fields"
  const NegativeTotalError := "Order total price must be a non-negative number"
  const StatusError := "Invalid order status"
  const InsertError := "Failed to create order"

  /** The statuses the route accepts, compared after lower-casing. */
  const StatusValues: seq<string> := ["pending", "processing", "shipped", "delivered", "cancelled"]

  predicate IsOrderStatus(status: string) {
    ToLower(status) in StatusValues
  }

  /** `new Date(text)` yields a valid date; left to the parameter. */
  function NormaliseDate(v: Value, validDate: string -> bool): DateField {
    if v.Str? then DateObject(v.s, validDate(v.s)) else Raw(v)
  }

  predicate DateTruthy(d: DateField) {
    d.DateObject? || Truthy(d.v)
  }

  predicate MissingField(req: OrderRequest, date: DateField) {
    || req.customer_id == Undefined
    || !Truthy(req.admin_name)
    || !DateTruthy(date)
    || !Truthy(req.order_status)
    || req.order_total_price == Undefined
  }

  predicate WrongType(req: OrderRequest, date: DateField) {
    || !req.customer_id.Num?
    || !req.admin_name.Str?
    || !(date.DateObject? && date.valid)
    || !req.order_status.Str?
    || !req.order_total_price.Num?
  }

  /** The first guard that fails, in the handler's order, or `None`. */
  function FirstError(req: OrderRequest, validDate: string -> bool): Option<string> {
    var date := NormaliseDate(req.order_date, validDate);
    if MissingField(req, date) then Some(RequiredError)
    else if WrongType(req, date) then Some(TypeError)
    else if req.order_total_price.n < 0 then Some(NegativeTotalError)
    else if !IsOrderStatus(req.order_status.s) then Some(StatusError)
    else None
  }

  /** The requests the handler accepts, described field by field. */
  predicate WellFormed(req: OrderRequest, validDate: string -> bool) {
    && req.customer_id.Num?
    && req.admin_name.Str? && req.admin_name.s != ""
    && req.order_date.Str? && validDate(req.order_date.s)
    && req.order_status.Str? && IsOrderStatus(req.order_status.s)
    && req.order_total_price.Num? && req.order_total_price.n >= 0
  }

  /** `POST`: validate, then insert one row whose `created_at` and
      `updated_at` are both the single timestamp `now` (`$6` twice).
      `insertSucceeds` is the outcome of the INSERT; a failure is a 500. */
  function PostOrder(orders: seq<OrderRow>, req: OrderRequest, validDate: string -> bool,
                     now: int, insertSucceeds: bool): (out: Outcome)
    ensures out.reply.Status() in {201, 400, 500}
    ensures out.reply.Status() == 400 <==> !WellFormed(req, validDate)
    ensures out.reply.Success? <==> WellFormed(req, validDate) && insertSucceeds
    ensures out.reply.Success? <==> out.reply.Status() == 201
    ensures out.reply.Success? ==>
      && out.orders == orders + [out.reply.data]
      && out.reply.data == OrderRow(req.customer_id.n, req.admin_name.s, req.order_date.s,
                                    req.order_status.s, req.order_total_price.n, now, now)
    ensures out.reply.Failure? ==> out.orders == orders
  {
    match FirstError(req, validDate)
    case Some(error) => Outcome(orders, Failure(400, error))
    case None =>
      if !insertSucceeds then Outcome(orders, Failure(500, InsertError))
      else
        var row := OrderRow(req.customer_id.n, req.admin_name.s, req.order_date.s,
                            req.order_status.s, req.order_total_price.n, now, now);
        Outcome(orders + [row], Success(201, "Order created successfully", row))
  }

  /** A missing field is reported as such, before any type is looked at. */
  lemma RequiredCheckComesFirst(req: OrderRequest, validDate: string -> bool)
    requires || req.customer_id == Undefined
             || !Truthy(req.admin_name)
             || !Truthy(req.order_status)
             || req.order_total_price == Undefined
             || (!req.order_date.Str? && !Truthy(req.order_date))
    ensures FirstError(req, validDate) == Some(RequiredError)
  {
  }

  /** Any string date passes the required check, because it has already been
      turned into a Date object; an unparsable one, the empty string
      included, fails the type check instead. */
  lemma StringDateIsNeverMissing(req: OrderRequest, validDate: string -> bool)
    requires req.order_date.Str? && !validDate(req.order_date.s)
    requires req.customer_id != Undefined && Truthy(req.admin_name)
    requires Truthy(req.order_status) && req.order_total_price != Undefined
    ensures FirstError(req, validDate) == Some(TypeError)
  {
  }

  /** A negative total is refused, and a zero total is not. */
  lemma TotalMustBeNonNegative(req: OrderRequest, validDate: string -> bool)
    requires req.customer_id.Num? && req.admin_name.Str? && req.admin_name.s != ""
    requires req.order_date.Str? && validDate(req.order_date.s)
    requires req.order_status.Str? && req.order_status.s != ""
    requires req.order_total_price.Num?
    ensures req.order_total_price.n < 0 ==> FirstError(req, validDate) == Some(NegativeTotalError)
    ensures req.order_total_price.n == 0 ==> FirstError(req, validDate) != Some(NegativeTotalError)
  {
  }

  /** The status check ignores letter case: a status and its lower-case form
      are accepted or refused together. */
  lemma StatusCheckIgnoresCase(status: string)
    ensures IsOrderStatus(status) <==> IsOrderStatus(ToLower(status))
  {
    ToLowerIdempotent(status);
  }

  /** Accepting a status does not normalise it: `Shipped` is stored as `Shipped`. */
  lemma StatusStoredAsGiven(orders: seq<OrderRow>, customer: int, admin: string, date: string,
                            validDate: string -> bool, now: int)
    requires admin != "" && validDate(date)
    ensures var req := OrderRequest(Num(customer), Str(admin), Str(date), Str("Shipped"), Num(0));
            var out := PostOrder(orders, req, validDate, now, true);
            out.reply.Success? && out.reply.data.order_status == "Shipped"
  {
    assert ToLower("Shipped") == "shipped";
  }
}
