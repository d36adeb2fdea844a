/** The "create item" dialog: how typed input is stored in the draft item
    (three fields coerced with `Number`, the rest kept as text), the check
    `handleCreateItem` applies before handing the draft to its parent, and
    the reset that follows. */
module InventoryCreate {
  import opened Optional

  datatype ItemField = Unit | Description | Price | Quantity | ReorderThreshold | CategoryId

  /** The fields `handleInputChange` passes through `Number(value)`. */
  predicate Coerced(field: ItemField) {
    field == Quantity || field == ReorderThreshold || field == CategoryId
  }

  /** What a field of the draft holds: the typed text, a number, or the
      `NaN` that `Number` gives for text that is not numeric. */
  datatype FieldValue = Text(s: string) | Number(n: int) | NotANumber

  /** `Number(text)`, with numeric parsing left to `toNumber` (`None` is NaN). */
  function NumberOf(text: string, toNumber: string -> Option<int>): (v: FieldValue)
  {
    match toNumber(text)
    case Some(n) => Number(n)
    case None => NotANumber
  }

  /** The draft, keyed by field as the component's `newItem` record is. */
  type Draft = map<ItemField, FieldValue>

  /** The initial and reset draft: empty texts and zeros. */
  const EmptyDraft: Draft := map[
    Unit := Text(""), Description := Text(""), Price := Number(0),
    Quantity := Number(0), ReorderThreshold := Number(0), CategoryId := Number(0)]

  /** The shape every draft keeps: all six fields present, `unit` and
      `description` text, the coerced fields numbers (or NaN), and `price`
      its initial 0 or text. */
  predicate WellShaped(draft: Draft) {
    && Unit in draft && Description in draft && Price in draft
    && Quantity in draft && ReorderThreshold in draft && CategoryId in draft
    && draft[Unit].Text? && draft[Description].Text?
    && (draft[Price].Text? || draft[Price].Number?)
    && !draft[Quantity].Text? && !draft[ReorderThreshold].Text? && !draft[CategoryId].Text?
  }

  /** JavaScript `!v` on a draft field. */
  predicate Falsy(v: FieldValue) {
    match v
    case Text(s) => s == ""
    case Number(n) => n == 0
    case NotANumber => true
  }

  /** `v < 0` on a coerced field; NaN compares false. */
  predicate Negative(v: FieldValue) {
    v.Number? && v.n < 0
  }

  /** The guard of `handleCreateItem`. */
  predicate Rejected(draft: Draft)
    requires WellShaped(draft)
  {
    || Falsy(draft[Unit])
    || Falsy(draft[Description])
    || Negative(draft[Quantity])
    || Negative(draft[ReorderThreshold])
    || Negative(draft[CategoryId])
  }

  /** `price` takes no part in the guard. */
  lemma PriceIsNotChecked(draft: Draft, price: FieldValue)
    requires WellShaped(draft) && (price.Text? || price.Number?)
    ensures WellShaped(draft[Price := price])
    ensures Rejected(draft[Price := price]) <==> Rejected(draft)
  {
  }

  /** The comparisons are strict, so zeros pass, and so does NaN; a negative
      quantity, threshold or category id is rejected. */
  lemma GuardBoundaries(unit: string, description: string, n: int)
    requires unit != "" && description != "" && n < 0
    ensures var draft := EmptyDraft[Unit := Text(unit)][Description := Text(description)];
            WellShaped(draft) && !Rejected(draft)
    ensures var draft := EmptyDraft[Unit := Text(unit)][Description := Text(description)]
                                   [Quantity := NotANumber];
            WellShaped(draft) && !Rejected(draft)
    ensures var draft := EmptyDraft[Unit := Text(unit)][Description := Text(description)][Quantity := Number(n)];
            WellShaped(draft) && Rejected(draft)
    ensures var draft := EmptyDraft[Unit := Text(unit)][Description := Text(description)][ReorderThreshold := Number(n)];
            WellShaped(draft) && Rejected(draft)
    ensures var draft := EmptyDraft[Unit := Text(unit)][Description := Text(description)][CategoryId := Number(n)];
            WellShaped(draft) && Rejected(draft)
  {
  }

  /** The dialog's state: the draft, the loading flag, and the drafts handed
      to `onCreate`, oldest first. */
  class CreateItemDialog {
    var newItem: Draft
    var loading: bool
    var created: seq<Draft>

    predicate Valid()
      reads this
    {
      WellShaped(newItem)
    }

    constructor ()
      ensures Valid()
      ensures newItem == EmptyDraft && !loading && created == []
    {
      newItem := EmptyDraft;
      loading := false;
      created := [];
    }

    /** `handleInputChange`: store the typed text in the field the input
        is for, through `Number` for the three coerced fields. */
    method HandleInputChange(field: ItemField, value: string, toNumber: string -> Option<int>)
      requires Valid()
      modifies this
      ensures Valid()
      ensures newItem[field] == (if Coerced(field) then NumberOf(value, toNumber) else Text(value))
      ensures forall f: ItemField | f != field :: newItem[f] == old(newItem[f])
      ensures loading == old(loading) && created == old(created)
    {
      var v := if Coerced(field) then NumberOf(value, toNumber) else Text(value);
      newItem := newItem[field := v];
    }

    /** `handleCreateItem`: a refused draft stays as it is and nothing is
        created; an accepted one is handed to `onCreate` and the form is
        reset. The simulated delay and the alert are not modelled. */
    method HandleCreateItem()
      requires Valid()
      modifies this
      ensures Valid()
      ensures !loading
      ensures Rejected(old(newItem)) ==> newItem == old(newItem) && created == old(created)
      ensures !Rejected(old(newItem)) ==> created == old(created) + [old(newItem)] && newItem == EmptyDraft
    {
      loading := true;
      if !Rejected(newItem) {
        created := created + [newItem];
        newItem := EmptyDraft;
      }
      loading := false;
    }
  }

  /** After a successful create the form cannot be submitted again until
      `unit` and `description` are typed anew. */
  lemma ResetDraftIsRejected()
    ensures WellShaped(EmptyDraft) && Rejected(EmptyDraft)
  {
  }
}
