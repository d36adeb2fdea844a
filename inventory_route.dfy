/** `POST /api/inventory`: two guards on the request body (required fields,
    then numeric fields), the insert of the values as received, and an audit
    entry written after the insert whose failure never changes the reply. */
module InventoryRoute {
  import opened Json
  import opened Http
  import opened Optional
  import opened SystemLog

  datatype ItemRequest = ItemRequest(
    unit: Value,
    description: Value,
    quantity: Value,
    reorder_threshold: Value,
    category_name: Value,
    price: Value,
    supplier_name: Value)

  /** An `item` row: the id the database assigns, then the seven request
      values exactly as received (the handler inserts them unparsed). */
  datatype ItemRow = ItemRow(
    item_id: nat,
    unit: Value,
    description: Value,
    quantity: Value,
    reorder_threshold: Value,
    category_name: Value,
    price: Value,
    supplier_name: Value)

  const RequiredError := "All fields are required"
  const NumberError := "quantity, reorder_threshold, category_name, price, and supplier_name must be valid numbers"
  const InsertError := "Failed to create item"

  /** The required-field guard: three fields tested for truthiness, four
      only for presence. */
  predicate MissingField(req: ItemRequest) {
    || !Truthy(req.unit)
    || !Truthy(req.description)
    || req.quantity == Undefined
    || req.reorder_threshold == Undefined
    || !Truthy(req.category_name)
    || req.price == Undefined
    || req.supplier_name == Undefined
  }

  /** The numeric guard: `Number(...)` of five fields is not NaN. */
  predicate AllNumeric(req: ItemRequest, numericText: string -> bool) {
    && ParsesAsNumber(req.quantity, numericText)
    && ParsesAsNumber(req.reorder_threshold, numericText)
    && ParsesAsNumber(req.price, numericText)
    && ParsesAsNumber(req.category_name, numericText)
    && ParsesAsNumber(req.supplier_name, numericText)
  }

  /** The reply of `POST`, which depends on the request and the insert
      only: not on the session and not on the audit write. */
  function PostReply(req: ItemRequest, numericText: string -> bool, insertSucceeds: bool,
                     newId: nat): (reply: Reply<ItemRow>)
    ensures MissingField(req) ==> reply == Failure(400, RequiredError)
    ensures !MissingField(req) && !AllNumeric(req, numericText) ==> reply == Failure(400, NumberError)
    ensures reply.Status() == 400 <==> MissingField(req) || !AllNumeric(req, numericText)
    ensures reply.Success? <==> !MissingField(req) && AllNumeric(req, numericText) && insertSucceeds
    ensures reply.Success? ==> reply.Status() == 201
    ensures reply.Success? ==>
      reply.data == ItemRow(newId, req.unit, req.description, req.quantity, req.reorder_threshold,
                            req.category_name, req.price, req.supplier_name)
    ensures reply.Failure? && reply.Status() != 400 ==> reply == Failure(500, InsertError)
  {
    if MissingField(req) then Failure(400, RequiredError)
    else if !AllNumeric(req, numericText) then Failure(400, NumberError)
    else if !insertSucceeds then Failure(500, InsertError)
    else
      Success(201, "Item created",
              ItemRow(newId, req.unit, req.description, req.quantity, req.reorder_threshold,
                      req.category_name, req.price, req.supplier_name))
  }

  /** The prefix of the audit text, `Item created: <description> (ID: <item_id>)`. */
  const ItemCreatedPrefix := "Item created: "

  /** A zero stock or threshold is present, so it passes the required
      guard, while an empty unit does not. */
  lemma ZeroQuantityIsPresent(req: ItemRequest)
    requires req.quantity == Num(0) && req.reorder_threshold == Num(0)
    ensures MissingField(req) <==>
      || !Truthy(req.unit) || !Truthy(req.description) || !Truthy(req.category_name)
      || req.price == Undefined || req.supplier_name == Undefined
  {
  }

  /** The `item` table and the audit trail the handler writes to. */
  class InventoryApi {
    var items: seq<ItemRow>
    const log: LogStore

    constructor (log: LogStore)
      ensures items == [] && this.log == log
    {
      items := [];
      this.log := log;
    }

    /** `POST`. The actor is computed from the session first; the audit
        entry is written only once the row exists; `logSucceeds` is the
        outcome of that write and `asText` the text the database returns
        for the stored description. */
    method Post(req: ItemRequest, sessionName: Option<string>, numericText: string -> bool,
                asText: Value -> string, insertSucceeds: bool, newId: nat, logSucceeds: bool)
      returns (reply: Reply<ItemRow>)
      modifies this, log
      ensures reply == PostReply(req, numericText, insertSucceeds, newId)
      ensures reply.Success? ==> items == old(items) + [reply.data]
      ensures reply.Failure? ==> items == old(items)
      ensures reply.Success? && logSucceeds ==>
        log.entries == old(log.entries)
                       + [LogEntry(CreatedText(ItemCreatedPrefix, asText(req.description), newId), Actor(sessionName))]
      ensures !(reply.Success? && logSucceeds) ==> log.entries == old(log.entries)
    {
      var loggedInUser := Actor(sessionName);
      reply := PostReply(req, numericText, insertSucceeds, newId);
      if reply.Success? {
        var newItem := reply.data;
        items := items + [newItem];
        log.CreateSystemLog(CreatedText(ItemCreatedPrefix, asText(newItem.description), newItem.item_id),
                            loggedInUser, logSucceeds);
      }
    }
  }
}
