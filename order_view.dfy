/** The order details dialog: the badge shown for a status, the item count and
    line subtotals it displays, when its Save button is enabled, and the PATCH
    body it sends when the status is changed (a cancellation also zeroes the
    total). */
module OrderView {
  import opened Text
  import opened Optional
  import OrdersRoute

  /** The fields of an `order_item` row the dialog reads. */
  datatype OrderItem = OrderItem(
    item_id: int,
    description: string,
    unit: string,
    quantity: int,
    unit_price: int,
    subtotal: int)

  /** The fields of an order the dialog reads. */
  datatype Order = Order(order_id: int, order_status: string, order_total_price: int)

  /** The choices of the status drop-down. */
  const StatusOptions: seq<string> := ["Pending", "Processing", "Shipped", "Delivered", "Cancelled"]

  datatype BadgeVariant = Default | Secondary | Destructive | Outline

  /** `getStatusBadgeVariant`: a switch on the lower-cased status. */
  function StatusBadgeVariant(status: string): BadgeVariant {
    var s := ToLower(status);
    if s == "pending" then Secondary
    else if s == "processing" then Default
    else if s == "shipped" then Default
    else if s == "delivered" then Secondary
    else if s == "cancelled" then Destructive
    else Outline
  }

  /** The badge ignores letter case. */
  lemma BadgeIgnoresCase(status: string)
    ensures StatusBadgeVariant(status) == StatusBadgeVariant(ToLower(status))
  {
    ToLowerIdempotent(status);
  }

  /** The badge is `outline` exactly for the statuses the order route would
      refuse, and `destructive` exactly for a cancelled order. */
  lemma BadgeMatchesRouteStatuses(status: string)
    ensures StatusBadgeVariant(status) == Outline <==> !OrdersRoute.IsOrderStatus(status)
    ensures StatusBadgeVariant(status) == Destructive <==> ToLower(status) == "cancelled"
  {
    var s := ToLower(status);
    assert OrdersRoute.IsOrderStatus(status) <==> s in OrdersRoute.StatusValues;
    assert s in OrdersRoute.StatusValues <==>
      s == "pending" || s == "processing" || s == "shipped" || s == "delivered" || s == "cancelled";
  }

  /** The PATCH body: `{ order_status }`, plus `order_total_price: 0` when the
      edited status is exactly `Cancelled`. */
  datatype UpdateData = UpdateData(order_status: string, order_total_price: Option<int>)

  function UpdateBody(editedStatus: string): UpdateData {
    if editedStatus == "Cancelled" then UpdateData(editedStatus, Some(0))
    else UpdateData(editedStatus, None)
  }

  /** `handleUpdateStatus` builds the body by creating the object and then
      adding the total to it. */
  method BuildUpdateData(editedStatus: string) returns (updateData: UpdateData)
    ensures updateData == UpdateBody(editedStatus)
    ensures updateData.order_status == editedStatus
    ensures updateData.order_total_price == Some(0) <==> editedStatus == "Cancelled"
    ensures updateData.order_total_price == None <==> editedStatus != "Cancelled"
  {
    updateData := UpdateData(editedStatus, None);
    if editedStatus == "Cancelled" {
      updateData := updateData.(order_total_price := Some(0));
    }
  }

  /** The zeroing test is an exact comparison, unlike the badge: a lower-case
      `cancelled` shows the cancelled badge and is a valid status for the
      route, yet its PATCH body leaves the total alone. */
  lemma CancelCheckIsCaseSensitive()
    ensures StatusBadgeVariant("cancelled") == Destructive
    ensures OrdersRoute.IsOrderStatus("cancelled")
    ensures UpdateBody("cancelled").order_total_price == None
    ensures UpdateBody("Cancelled").order_total_price == Some(0)
  {
    assert ToLower("cancelled") == "cancelled";
  }

  /** Every drop-down choice is a status the route accepts with a coloured
      badge, and only `Cancelled` zeroes the total. */
  lemma StatusOptionsAreRouteStatuses(i: nat)
    requires i < |StatusOptions|
    ensures OrdersRoute.IsOrderStatus(StatusOptions[i])
    ensures StatusBadgeVariant(StatusOptions[i]) != Outline
    ensures UpdateBody(StatusOptions[i]).order_total_price.Some? <==> i == 4
  {
    var option := StatusOptions[i];
    if i == 0 {
      assert ToLower(option) == "pending";
    } else if i == 1 {
      assert ToLower(option) == "processing";
    } else if i == 2 {
      assert ToLower(option) == "shipped";
    } else if i == 3 {
      assert ToLower(option) == "delivered";
    } else {
      assert ToLower(option) == "cancelled";
    }
    BadgeMatchesRouteStatuses(option);
  }

  /** The reference sum of line quantities. */
  function SumQuantities(items: seq<OrderItem>): int {
    if items == [] then 0 else items[0].quantity + SumQuantities(items[1..])
  }

  /** `items.reduce((sum, item) => sum + item.quantity, acc)`: a left fold. */
  function ReduceQuantities(acc: int, items: seq<OrderItem>): int
    decreases items
  {
    if items == [] then acc else ReduceQuantities(acc + items[0].quantity, items[1..])
  }

  lemma {:induction false} ReduceIsSum(acc: int, items: seq<OrderItem>)
    ensures ReduceQuantities(acc, items) == acc + SumQuantities(items)
    decreases items
  {
    if items != [] {
      ReduceIsSum(acc + items[0].quantity, items[1..]);
    }
  }

  /** "Total Items": the fold of the line quantities, or 0 without a list. */
  function TotalItems(orderItems: Option<seq<OrderItem>>): (total: int)
    ensures orderItems == None ==> total == 0
    ensures orderItems.Some? ==> total == SumQuantities(orderItems.value)
  {
    match orderItems
    case None => 0
    case Some(items) => ReduceIsSum(0, items); ReduceQuantities(0, items)
  }

  lemma {:induction false} SumQuantitiesAppend(items: seq<OrderItem>, line: OrderItem)
    ensures SumQuantities(items + [line]) == SumQuantities(items) + line.quantity
  {
    if items != [] {
      assert (items + [line])[1..] == items[1..] + [line];
      SumQuantitiesAppend(items[1..], line);
    }
  }

  /** Lines accepted by the order-item route have positive quantities, so the
      item count is at least the number of lines. */
  lemma {:induction false} TotalItemsAtLeastLines(items: seq<OrderItem>)
    requires forall i | 0 <= i < |items| :: items[i].quantity > 0
    ensures TotalItems(Some(items)) >= |items|
    ensures items == [] ==> TotalItems(Some(items)) == 0
  {
    if items != [] {
      TotalItemsAtLeastLines(items[1..]);
    }
  }

  /** The subtotal column shows `quantity * unit_price`, whatever subtotal
      was stored for the line. */
  function DisplayedSubtotal(line: OrderItem): int {
    line.quantity * line.unit_price
  }

  /** The displayed subtotal of the line the route stored for a request whose
      subtotal disagrees with its price is the recomputed one, not the stored one. */
  lemma DisplayedSubtotalIgnoresStored(line: OrderItem, stored: int)
    ensures DisplayedSubtotal(line.(subtotal := stored)) == DisplayedSubtotal(line)
    ensures DisplayedSubtotal(line.(subtotal := stored)) == stored <==> stored == line.quantity * line.unit_price
  {
  }

  /** `hasStatusChanged`: the edited status differs from the loaded order's;
      before an order is loaded the comparison is with `undefined`, so it
      always holds. */
  function HasStatusChanged(editedStatus: string, originalOrder: Option<Order>): (changed: bool)
    ensures originalOrder == None ==> changed
    ensures originalOrder.Some? ==> (changed <==> editedStatus != originalOrder.value.order_status)
  {
    match originalOrder
    case None => true
    case Some(o) => editedStatus != o.order_status
  }

  const UpdateFailedMessage := "Failed to update order status"

  /** The dialog's state: the status being edited, the order as loaded, and
      the PATCH bodies sent for this order, oldest first. */
  class OrderDetailsDialog {
    const orderId: int
    var editedStatus: string
    var originalOrder: Option<Order>
    var isEditingStatus: bool
    var loading: bool
    var error: Option<string>
    var patches: seq<UpdateData>

    constructor (item: Order)
      ensures orderId == item.order_id && editedStatus == item.order_status
      ensures originalOrder == None && !isEditingStatus && loading && error == None
      ensures patches == []
    {
      orderId := item.order_id;
      editedStatus := item.order_status;
      originalOrder := None;
      isEditingStatus := false;
      loading := true;
      error := None;
      patches := [];
    }

    /** Save is enabled iff the edited status differs from the loaded one. */
    predicate SaveEnabled()
      reads this
    {
      HasStatusChanged(editedStatus, originalOrder)
    }

    /** A successful `fetchOrderDetails`: the loaded status becomes both the
        edited and the original status, so Save starts disabled. */
    method DetailsLoaded(order: Order)
      modifies this
      ensures editedStatus == order.order_status && originalOrder == Some(order)
      ensures !loading && error == None
      ensures isEditingStatus == old(isEditingStatus) && patches == old(patches)
      ensures !SaveEnabled()
    {
      editedStatus := order.order_status;
      originalOrder := Some(order);
      error := None;
      loading := false;
    }

    method StartEditing()
      modifies this
      ensures isEditingStatus
      ensures editedStatus == old(editedStatus) && originalOrder == old(originalOrder)
      ensures loading == old(loading) && error == old(error) && patches == old(patches)
    {
      isEditingStatus := true;
    }

    /** `handleStatusChange`. */
    method HandleStatusChange(value: string)
      modifies this
      ensures editedStatus == value
      ensures originalOrder == old(originalOrder) && isEditingStatus == old(isEditingStatus)
      ensures loading == old(loading) && error == old(error) && patches == old(patches)
      ensures originalOrder.Some? ==> (SaveEnabled() <==> value != originalOrder.value.order_status)
    {
      editedStatus := value;
    }

    /** `handleUpdateStatus`: send the body, then leave edit mode on success
        or record the server's message (or a default one) on failure.
        `responseOk` and `serverMessage` stand for the fetch outcome. */
    method HandleUpdateStatus(responseOk: bool, serverMessage: string)
      modifies this
      ensures patches == old(patches) + [UpdateBody(old(editedStatus))]
      ensures !loading
      ensures editedStatus == old(editedStatus) && originalOrder == old(originalOrder)
      ensures responseOk ==> !isEditingStatus && error == old(error)
      ensures !responseOk ==> isEditingStatus == old(isEditingStatus)
      ensures !responseOk ==> error == Some(if serverMessage != "" then serverMessage else UpdateFailedMessage)
    {
      loading := true;
      var updateData := BuildUpdateData(editedStatus);
      patches := patches + [updateData];
      if responseOk {
        isEditingStatus := false;
      } else {
        error := Some(if serverMessage != "" then serverMessage else UpdateFailedMessage);
      }
      loading := false;
    }
  }
}
