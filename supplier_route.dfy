/** `/api/supplier`: the `POST` and `DELETE` guards, and the `PATCH`
    handler that builds an `UPDATE` statement from the fields present in the
    request, numbering the placeholders `$1, $2, …` as it goes and binding
    the id to the last one.

    The handler joins the statement's parts with single spaces, so two or
    more assignments are not separated by commas. `AsWrittenQuery` models
    that text and `AsWrittenLacksCommas` exhibits the defect;
    `CorrectedQuery` separates the assignments with `, ` as the
    `/api/supplier/<id>` route's own `UPDATE` does, and `Patch` uses it. */
module SupplierRoute {
  import opened Json
  import opened Http
  import opened Optional
  import opened Text
  import SupplierForm

  datatype SupplierRequest = SupplierRequest(
    supplier_name: Value,
    supplier_contact_person: Value,
    supplier_address: Value,
    supplier_email: Value,
    supplier_number: Value)

  /** A `supplier` row: the id the database assigns and the five request
      values as received. */
  datatype SupplierRow = SupplierRow(
    supplier_id: nat,
    supplier_name: Value,
    supplier_contact_person: Value,
    supplier_address: Value,
    supplier_email: Value,
    supplier_number: Value)

  const PostRequiredError := "Name, address, email, and number are required"
  const PostInsertError := "Failed to create supplier"
  const UpdateIdError := "id is required for update"
  const NoFieldsError := "No fields to update"
  const DeleteIdError := "id is required for deletion"
  const NotFoundError := "Supplier not found"

  // ---------------------------------------------------------------- POST

  predicate PostMissingField(req: SupplierRequest) {
    || !Truthy(req.supplier_name)
    || !Truthy(req.supplier_address)
    || !Truthy(req.supplier_email)
    || !Truthy(req.supplier_number)
  }

  function PostReply(req: SupplierRequest, insertSucceeds: bool, newId: nat): (reply: Reply<SupplierRow>)
    ensures reply.Status() == 400 <==> PostMissingField(req)
    ensures PostMissingField(req) ==> reply == Failure(400, PostRequiredError)
    ensures reply.Success? <==> !PostMissingField(req) && insertSucceeds
    ensures reply.Success? ==>
      && reply.Status() == 201
      && reply.data == SupplierRow(newId, req.supplier_name, req.supplier_contact_person,
                                   req.supplier_address, req.supplier_email, req.supplier_number)
    ensures reply.Failure? && !PostMissingField(req) ==> reply == Failure(500, PostInsertError)
  {
    if PostMissingField(req) then Failure(400, PostRequiredError)
    else if !insertSucceeds then Failure(500, PostInsertError)
    else
      Success(201, "Supplier created",
              SupplierRow(newId, req.supplier_name, req.supplier_contact_person,
                          req.supplier_address, req.supplier_email, req.supplier_number))
  }

  /** The contact person is optional for `POST`. */
  lemma ContactPersonOptional(req: SupplierRequest, person: Value, insertSucceeds: bool, newId: nat)
    ensures PostReply(req.(supplier_contact_person := person), insertSucceeds, newId).Status()
            == PostReply(req, insertSucceeds, newId).Status()
  {
  }

  /** The create dialog lets a supplier through with no number, and the
      suppliers page posts it unchanged, but `POST` refuses it. */
  lemma FormAcceptsWhatPostRefuses(s: SupplierForm.SupplierFields, insertSucceeds: bool, newId: nat)
    requires SupplierForm.SupplierErrors(s) == map[] && s.number == ""
    ensures var req := SupplierRequest(Str(s.name), Str(s.contact_person), Str(s.address),
                                       Str(s.email), Str(s.number));
            PostReply(req, insertSucceeds, newId) == Failure(400, PostRequiredError)
  {
  }

  // -------------------------------------------------------------- DELETE

  /** `DELETE`: an id is required; `deleted` stands for the rows the
      statement returns, so its length is the row count. */
  function DeleteReply(id: Value, deleted: seq<SupplierRow>): (reply: Reply<seq<SupplierRow>>)
    ensures !Truthy(id) ==> reply == Failure(400, DeleteIdError)
    ensures Truthy(id) && deleted == [] ==> reply == Failure(404, NotFoundError)
    ensures reply.Success? <==> Truthy(id) && |deleted| > 0
    ensures reply.Success? ==> reply.Status() == 200 && reply.data == deleted
  {
    if !Truthy(id) then Failure(400, DeleteIdError)
    else if |deleted| == 0 then Failure(404, NotFoundError)
    else Success(200, "Supplier deleted", deleted)
  }

  // --------------------------------------------------------------- PATCH

  /** One `column = value` pair of the update. */
  datatype Assignment = Assignment(column: string, value: Value)

  /** The five updatable columns with the request's values, in the order
      the handler tests them. */
  function Candidates(req: SupplierRequest): (c: seq<Assignment>)
    ensures |c| == 5
  {
    [ Assignment("supplier_name", req.supplier_name),
      Assignment("supplier_contact_person", req.supplier_contact_person),
      Assignment("supplier_address", req.supplier_address),
      Assignment("supplier_email", req.supplier_email),
      Assignment("supplier_number", req.supplier_number) ]
  }

  /** The candidates whose value is truthy, in their original order. */
  function Present(c: seq<Assignment>): (p: seq<Assignment>)
    ensures |p| <= |c|
  {
    if c == [] then []
    else if Truthy(c[0].value) then [c[0]] + Present(c[1..])
    else Present(c[1..])
  }

  lemma {:induction false} PresentExactlyTruthy(c: seq<Assignment>)
    ensures forall a :: a in Present(c) <==> a in c && Truthy(a.value)
  {
    if c != [] {
      PresentExactlyTruthy(c[1..]);
    }
  }

  /** Filtering keeps the candidates' order: the kept assignments of a
      concatenation are those of its first part followed by those of its
      second. */
  lemma {:induction false} PresentAppend(c: seq<Assignment>, d: seq<Assignment>)
    ensures Present(c + d) == Present(c) + Present(d)
  {
    if c == [] {
      assert c + d == d;
    } else {
      assert (c + d)[1..] == c[1..] + d;
      PresentAppend(c[1..], d);
    }
  }

  /** `<column> = $<index>`. */
  function SetClause(column: string, index: nat): string {
    column + " = $" + NatToString(index)
  }

  /** The `SET` clauses for `assignments`, numbered from `first`. */
  function SetClauses(assignments: seq<Assignment>, first: nat): (clauses: seq<string>)
    ensures |clauses| == |assignments|
  {
    if assignments == [] then []
    else [SetClause(assignments[0].column, first)] + SetClauses(assignments[1..], first + 1)
  }

  function Values(assignments: seq<Assignment>): (values: seq<Value>)
    ensures |values| == |assignments|
  {
    if assignments == [] then [] else [assignments[0].value] + Values(assignments[1..])
  }

  /** Clause k names column k and placeholder `first + k`, and parameter k
      is value k. */
  lemma {:induction false} ClauseAt(assignments: seq<Assignment>, first: nat, k: nat)
    requires k < |assignments|
    ensures SetClauses(assignments, first)[k] == SetClause(assignments[k].column, first + k)
    ensures Values(assignments)[k] == assignments[k].value
  {
    if k > 0 {
      ClauseAt(assignments[1..], first + 1, k - 1);
    }
  }

  /** `WHERE supplier_id = $<index> RETURNING *`. */
  function WhereClause(index: nat): string {
    "WHERE supplier_id = $" + NatToString(index) + " RETURNING *"
  }

  /** A statement and its parameters, `$n` standing for `params[n - 1]`. */
  datatype SqlQuery = SqlQuery(text: string, params: seq<Value>)

  const UpdateHead := "UPDATE supplier SET"

  /** The text the handler sends: `queryParts.join(' ')`. */
  function AsWrittenQuery(clauses: seq<string>, where: string): string {
    Join([UpdateHead] + clauses + [where], " ")
  }

  /** The statement as intended: the same three parts, with the
      assignments first joined by `, `. */
  function CorrectedQuery(clauses: seq<string>, where: string): string {
    Join([UpdateHead, Join(clauses, ", "), where], " ")
  }

  predicate NoComma(s: string) {
    forall k | 0 <= k < |s| :: s[k] != ','
  }

  lemma NoCommaConcat(a: string, b: string)
    requires NoComma(a) && NoComma(b)
    ensures NoComma(a + b)
  {
    forall k | 0 <= k < |a + b|
      ensures (a + b)[k] != ','
    {
      if k < |a| {
        assert (a + b)[k] == a[k];
      } else {
        assert (a + b)[k] == b[k - |a|];
      }
    }
  }

  lemma SetClauseNoComma(column: string, index: nat)
    requires NoComma(column)
    ensures NoComma(SetClause(column, index))
  {
    assert NoComma(" = $");
    NoCommaConcat(column, " = $");
    NoCommaConcat(column + " = $", NatToString(index));
  }

  lemma WhereClauseNoComma(index: nat)
    ensures NoComma(WhereClause(index))
  {
    assert NoComma("WHERE supplier_id = $");
    assert NoComma(" RETURNING *");
    NoCommaConcat("WHERE supplier_id = $", NatToString(index));
    NoCommaConcat("WHERE supplier_id = $" + NatToString(index), " RETURNING *");
  }

  lemma CandidateColumnsNoComma(req: SupplierRequest)
    ensures forall a | a in Candidates(req) :: NoComma(a.column)
  {
    assert NoComma("supplier_name");
    assert NoComma("supplier_contact_person");
    assert NoComma("supplier_address");
    assert NoComma("supplier_email");
    assert NoComma("supplier_number");
  }

  /** Clauses over comma-free columns hold no comma. */
  lemma ClausesNoComma(assignments: seq<Assignment>, first: nat)
    requires forall a | a in assignments :: NoComma(a.column)
    ensures forall s | s in SetClauses(assignments, first) :: NoComma(s)
  {
    forall s | s in SetClauses(assignments, first)
      ensures NoComma(s)
    {
      var i :| 0 <= i < |SetClauses(assignments, first)| && SetClauses(assignments, first)[i] == s;
      ClauseAt(assignments, first, i);
      assert assignments[i] in assignments;
      SetClauseNoComma(assignments[i].column, first + i);
    }
  }

  lemma PresentColumnsNoComma(req: SupplierRequest)
    ensures forall a | a in Present(Candidates(req)) :: NoComma(a.column)
  {
    PresentExactlyTruthy(Candidates(req));
    CandidateColumnsNoComma(req);
  }

  lemma UpdateHeadNoComma()
    ensures NoComma(UpdateHead)
  {
  }

  /** No part of the as-written statement holds a comma. */
  lemma AsWrittenPartsNoComma(clauses: seq<string>, where: string)
    requires forall s | s in clauses :: NoComma(s)
    requires NoComma(where)
    ensures var parts := [UpdateHead] + clauses + [where];
            forall i | 0 <= i < |parts| :: Count(parts[i], ',') == 0
  {
    UpdateHeadNoComma();
    var parts := [UpdateHead] + clauses + [where];
    forall i | 0 <= i < |parts|
      ensures Count(parts[i], ',') == 0
    {
      if i == 0 {
        assert parts[i] == UpdateHead;
      } else if i < |parts| - 1 {
        assert parts[i] == clauses[i - 1];
        assert parts[i] in clauses;
      } else {
        assert parts[i] == where;
      }
      assert NoComma(parts[i]);
      CountAbsent(parts[i], ',');
    }
  }

  /** As written, the statement holds no comma however many columns it
      sets: with two or more the assignments run together, which is not a
      valid `SET` list. */
  lemma AsWrittenLacksCommas(clauses: seq<string>, where: string)
    requires forall s | s in clauses :: NoComma(s)
    requires NoComma(where)
    ensures Count(AsWrittenQuery(clauses, where), ',') == 0
  {
    AsWrittenPartsNoComma(clauses, where);
    CountJoin([UpdateHead] + clauses + [where], " ", ',');
    CountAbsent(" ", ',');
  }

  /** The same for the statement built from a request. */
  lemma AsWrittenRequestLacksCommas(req: SupplierRequest)
    ensures var present := Present(Candidates(req));
            Count(AsWrittenQuery(SetClauses(present, 1), WhereClause(|present| + 1)), ',') == 0
  {
    var present := Present(Candidates(req));
    PresentColumnsNoComma(req);
    ClausesNoComma(present, 1);
    WhereClauseNoComma(|present| + 1);
    AsWrittenLacksCommas(SetClauses(present, 1), WhereClause(|present| + 1));
  }

  /** Two assignments: as written they are separated by a bare space, as
      intended by `, `. */
  lemma TwoFieldTexts(first: string, second: string, where: string)
    ensures AsWrittenQuery([first, second], where) == UpdateHead + " " + (first + " " + (second + " " + where))
    ensures CorrectedQuery([first, second], where) == UpdateHead + " " + ((first + ", " + second) + " " + where)
  {
    var parts := [UpdateHead] + [first, second] + [where];
    assert parts == [UpdateHead, first, second, where];
    assert parts[1..] == [first, second, where];
    JoinThree(first, second, where, " ");
    JoinTwo(first, second, ", ");
    JoinThree(UpdateHead, first + ", " + second, where, " ");
  }

  lemma ClausesCountNoComma(clauses: seq<string>)
    requires forall s | s in clauses :: NoComma(s)
    ensures forall i | 0 <= i < |clauses| :: Count(clauses[i], ',') == 0
  {
    forall i | 0 <= i < |clauses|
      ensures Count(clauses[i], ',') == 0
    {
      assert clauses[i] in clauses;
      assert NoComma(clauses[i]);
      CountAbsent(clauses[i], ',');
    }
  }

  lemma SeparatorCounts()
    ensures Count(", ", ',') == 1
    ensures Count(" ", ',') == 0
  {
  }

  /** Corrected, the statement has exactly one comma between each two
      assignments. */
  lemma CorrectedSeparatesAssignments(clauses: seq<string>, where: string)
    requires |clauses| > 0
    requires forall s | s in clauses :: NoComma(s)
    requires NoComma(where)
    ensures Count(CorrectedQuery(clauses, where), ',') == |clauses| - 1
  {
    var middle := Join(clauses, ", ");
    ClausesCountNoComma(clauses);
    CountJoin(clauses, ", ", ',');
    SeparatorCounts();
    UpdateHeadNoComma();
    CountAbsent(UpdateHead, ',');
    CountAbsent(where, ',');
    JoinThree(UpdateHead, middle, where, " ");
    CountAppend(middle, " ", ',');
    CountAppend(middle + " ", where, ',');
    CountAppend(UpdateHead, " ", ',');
    CountAppend(UpdateHead + " ", middle + " " + where, ',');
  }

  /** The same for the statement built from a request. */
  lemma CorrectedRequestSeparatesAssignments(req: SupplierRequest)
    ensures var present := Present(Candidates(req));
            |present| > 0 ==>
              Count(CorrectedQuery(SetClauses(present, 1), WhereClause(|present| + 1)), ',') == |present| - 1
  {
    var present := Present(Candidates(req));
    if |present| > 0 {
      PresentColumnsNoComma(req);
    ClausesNoComma(present, 1);
      WhereClauseNoComma(|present| + 1);
      CorrectedSeparatesAssignments(SetClauses(present, 1), WhereClause(|present| + 1));
    }
  }

  /** With a single column both texts are the same statement. */
  lemma SingleFieldAgrees(clause: string, where: string)
    ensures AsWrittenQuery([clause], where) == CorrectedQuery([clause], where)
  {
    var parts := [UpdateHead] + [clause] + [where];
    assert parts == [UpdateHead, clause, where];
    assert Join([clause], ", ") == clause;
  }

  /** `PATCH`, given the already parsed body: the id check, then one clause
      and one parameter per truthy field with a running placeholder index,
      then the "no fields" check, then the `WHERE` clause with the id as the
      last parameter. `updated` stands for the rows the statement returns. */
  method Patch(id: Value, req: SupplierRequest, updated: seq<SupplierRow>)
    returns (sent: Option<SqlQuery>, reply: Reply<SupplierRow>)
    ensures !Truthy(id) ==> sent == None && reply == Failure(400, UpdateIdError)
    ensures Truthy(id) && Present(Candidates(req)) == [] ==> sent == None && reply == Failure(400, NoFieldsError)
    ensures Truthy(id) && Present(Candidates(req)) != [] ==>
      var present := Present(Candidates(req));
      && sent == Some(SqlQuery(CorrectedQuery(SetClauses(present, 1), WhereClause(|present| + 1)),
                               Values(present) + [id]))
      && reply == (if |updated| == 0 then Failure(404, NotFoundError) else Success(200, "Supplier updated", updated[0]))
  {
    if !Truthy(id) {
      return None, Failure(400, UpdateIdError);
    }
    var clauses, updates, paramIndex := PushFields(Candidates(req));
    ghost var present := Present(Candidates(req));
    if |updates| == 0 {
      return None, Failure(400, NoFieldsError);
    }
    var where := WhereClause(paramIndex);
    paramIndex := paramIndex + 1;
    updates := updates + [id];
    sent := Some(SqlQuery(CorrectedQuery(clauses, where), updates));
    if |updated| == 0 {
      reply := Failure(404, NotFoundError);
    } else {
      reply := Success(200, "Supplier updated", updated[0]);
    }
  }

  lemma {:induction false} PresentSnoc(c: seq<Assignment>, a: Assignment)
    ensures Present(c + [a]) == Present(c) + (if Truthy(a.value) then [a] else [])
  {
    if c == [] {
      assert c + [a] == [a];
    } else {
      assert (c + [a])[1..] == c[1..] + [a];
      PresentSnoc(c[1..], a);
    }
  }

  lemma {:induction false} SetClausesSnoc(p: seq<Assignment>, first: nat, a: Assignment)
    ensures SetClauses(p + [a], first) == SetClauses(p, first) + [SetClause(a.column, first + |p|)]
  {
    if p == [] {
      assert p + [a] == [a];
    } else {
      assert (p + [a])[1..] == p[1..] + [a];
      SetClausesSnoc(p[1..], first + 1, a);
    }
  }

  lemma {:induction false} ValuesSnoc(p: seq<Assignment>, a: Assignment)
    ensures Values(p + [a]) == Values(p) + [a.value]
  {
    if p == [] {
      assert p + [a] == [a];
    } else {
      assert (p + [a])[1..] == p[1..] + [a];
      ValuesSnoc(p[1..], a);
    }
  }

  /** What one `if (field)` test contributes. */
  function Tested(a: Assignment): seq<Assignment> {
    if Truthy(a.value) then [a] else []
  }

  /** Testing one more candidate adds what that test contributes. */
  lemma PresentPrefix(c: seq<Assignment>, n: nat)
    requires n < |c|
    ensures Present(c[..n + 1]) == Present(c[..n]) + Tested(c[n])
  {
    assert c[..n + 1] == c[..n] + [c[n]];
    PresentSnoc(c[..n], c[n]);
  }

  /** The clauses, parameters and next placeholder index after the
      assignments `built` have been pushed. */
  ghost predicate Built(built: seq<Assignment>, clauses: seq<string>, updates: seq<Value>, paramIndex: nat) {
    && clauses == SetClauses(built, 1)
    && updates == Values(built)
    && paramIndex == |built| + 1
  }

  /** One `if (field) { push clause; push value }` block of the handler:
      a truthy value adds its clause with the next placeholder and its
      parameter, and advances the index. */
  method PushIfTruthy(a: Assignment, clauses: seq<string>, updates: seq<Value>, paramIndex: nat,
                      ghost built: seq<Assignment>)
    returns (clauses': seq<string>, updates': seq<Value>, paramIndex': nat)
    requires Built(built, clauses, updates, paramIndex)
    ensures Built(built + Tested(a), clauses', updates', paramIndex')
  {
    clauses', updates', paramIndex' := clauses, updates, paramIndex;
    if Truthy(a.value) {
      SetClausesSnoc(built, 1, a);
      ValuesSnoc(built, a);
      clauses' := clauses' + [SetClause(a.column, paramIndex')];
      paramIndex' := paramIndex' + 1;
      updates' := updates' + [a.value];
    } else {
      assert built + Tested(a) == built;
    }
  }

  /** The five `if (field)` blocks, in order, starting from no clauses,
      no parameters and placeholder 1. */
  method PushFields(c: seq<Assignment>) returns (clauses: seq<string>, updates: seq<Value>, paramIndex: nat)
    requires |c| == 5
    ensures Built(Present(c), clauses, updates, paramIndex)
  {
    clauses, updates, paramIndex := [], [], 1;
    ghost var built: seq<Assignment> := [];
    clauses, updates, paramIndex := PushIfTruthy(c[0], clauses, updates, paramIndex, built);
    built := built + Tested(c[0]);
    clauses, updates, paramIndex := PushIfTruthy(c[1], clauses, updates, paramIndex, built);
    built := built + Tested(c[1]);
    clauses, updates, paramIndex := PushIfTruthy(c[2], clauses, updates, paramIndex, built);
    built := built + Tested(c[2]);
    clauses, updates, paramIndex := PushIfTruthy(c[3], clauses, updates, paramIndex, built);
    built := built + Tested(c[3]);
    clauses, updates, paramIndex := PushIfTruthy(c[4], clauses, updates, paramIndex, built);
    built := built + Tested(c[4]);
    PresentOfFive(c);
  }

  /** The five tests, one after another, keep exactly the present
      assignments. */
  lemma PresentOfFive(c: seq<Assignment>)
    requires |c| == 5
    ensures Present(c) == [] + Tested(c[0]) + Tested(c[1]) + Tested(c[2]) + Tested(c[3]) + Tested(c[4])
  {
    assert c[..0] == [];
    PresentPrefix(c, 0);
    PresentPrefix(c, 1);
    PresentPrefix(c, 2);
    PresentPrefix(c, 3);
    PresentPrefix(c, 4);
    assert c[..5] == c;
  }

  /** The kept assignments of a request, in the order of its five `if`
      blocks: name, contact person, address, e-mail, number. */
  lemma PresentInSourceOrder(req: SupplierRequest)
    ensures Present(Candidates(req)) ==
      Tested(Assignment("supplier_name", req.supplier_name))
      + Tested(Assignment("supplier_contact_person", req.supplier_contact_person))
      + Tested(Assignment("supplier_address", req.supplier_address))
      + Tested(Assignment("supplier_email", req.supplier_email))
      + Tested(Assignment("supplier_number", req.supplier_number))
  {
    PresentOfFive(Candidates(req));
  }

  /** Every placeholder of a sent statement names the right parameter: the
      k-th clause sets the k-th present column to `$k+1`, bound to that
      column's value, and the id is bound to the last placeholder. */
  lemma PlaceholdersMatchParameters(id: Value, req: SupplierRequest, k: nat)
    requires k < |Present(Candidates(req))|
    ensures var present := Present(Candidates(req));
            var params := Values(present) + [id];
            && |params| == |present| + 1
            && params[|params| - 1] == id
            && SetClauses(present, 1)[k] == SetClause(present[k].column, k + 1)
            && params[k] == present[k].value
  {
    ClauseAt(Present(Candidates(req)), 1, k);
  }
}
