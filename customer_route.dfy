/** `POST /api/customer`: one required-field guard (name, address and
    e-mail; the number is optional and its format is not checked), the
    insert, and an audit entry written after the insert whose failure never
    changes the reply. */
module CustomerRoute {
  import opened Json
  import opened Http
  import opened Optional
  import opened SystemLog

  datatype CustomerRequest = CustomerRequest(
    customer_name: Value,
    customer_address: Value,
    customer_email: Value,
    customer_number: Value)

  /** A `customer` row: the id the database assigns and the four request
      values as received. */
  datatype CustomerRow = CustomerRow(
    customer_id: nat,
    customer_name: Value,
    customer_address: Value,
    customer_email: Value,
    customer_number: Value)

  const RequiredError := "Name, address, and email are required"
  const InsertError := "Failed to create customer"

  predicate MissingField(req: CustomerRequest) {
    !Truthy(req.customer_name) || !Truthy(req.customer_address) || !Truthy(req.customer_email)
  }

  /** The reply of `POST`, which depends on the request and the insert
      only: not on the session and not on the audit write. */
  function PostReply(req: CustomerRequest, insertSucceeds: bool, newId: nat): (reply: Reply<CustomerRow>)
    ensures reply.Status() == 400 <==> MissingField(req)
    ensures MissingField(req) ==> reply == Failure(400, RequiredError)
    ensures reply.Success? <==> !MissingField(req) && insertSucceeds
    ensures reply.Success? ==> reply.Status() == 201
    ensures reply.Success? ==>
      reply.data == CustomerRow(newId, req.customer_name, req.customer_address,
                                req.customer_email, req.customer_number)
    ensures reply.Failure? && !MissingField(req) ==> reply == Failure(500, InsertError)
  {
    if MissingField(req) then Failure(400, RequiredError)
    else if !insertSucceeds then Failure(500, InsertError)
    else
      Success(201, "Customer created",
              CustomerRow(newId, req.customer_name, req.customer_address,
                          req.customer_email, req.customer_number))
  }

  /** The number plays no part in the guard: a missing or malformed number
      is stored as sent. */
  lemma NumberIsOptional(req: CustomerRequest, number: Value, insertSucceeds: bool, newId: nat)
    ensures PostReply(req.(customer_number := number), insertSucceeds, newId).Status()
            == PostReply(req, insertSucceeds, newId).Status()
    ensures !MissingField(req) && insertSucceeds ==>
      PostReply(req.(customer_number := number), insertSucceeds, newId).data.customer_number == number
  {
  }

  /** The prefix of the audit text, `Customer created: <name> (ID: <customer_id>)`. */
  const CustomerCreatedPrefix := "Customer created: "

  /** The `customer` table and the audit trail the handler writes to. */
  class CustomerApi {
    var customers: seq<CustomerRow>
    const log: LogStore

    constructor (log: LogStore)
      ensures customers == [] && this.log == log
    {
      customers := [];
      this.log := log;
    }

    /** `POST`. The actor is computed from the session first; the audit
        entry is written only once the row exists; `logSucceeds` is the
        outcome of that write and `asText` the text the database returns
        for the stored name. */
    method Post(req: CustomerRequest, sessionName: Option<string>, asText: Value -> string,
                insertSucceeds: bool, newId: nat, logSucceeds: bool)
      returns (reply: Reply<CustomerRow>)
      modifies this, log
      ensures reply == PostReply(req, insertSucceeds, newId)
      ensures reply.Success? ==> customers == old(customers) + [reply.data]
      ensures reply.Failure? ==> customers == old(customers)
      ensures reply.Success? && logSucceeds ==>
        log.entries == old(log.entries)
                       + [LogEntry(CreatedText(CustomerCreatedPrefix, asText(req.customer_name), newId), Actor(sessionName))]
      ensures !(reply.Success? && logSucceeds) ==> log.entries == old(log.entries)
    {
      var loggedInUser := Actor(sessionName);
      reply := PostReply(req, insertSucceeds, newId);
      if reply.Success? {
        var newCustomer := reply.data;
        customers := customers + [newCustomer];
        log.CreateSystemLog(CreatedText(CustomerCreatedPrefix, asText(newCustomer.customer_name), newCustomer.customer_id),
                            loggedInUser, logSucceeds);
      }
    }
  }
}
