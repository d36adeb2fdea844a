/** The "add quantity" dialog of an inventory row: the amount to add is
    reset to 0 whenever the dialog opens, the Add button is disabled while it
    is not positive, and pressing Add sends the new absolute quantity
    (stock on hand plus the amount) for the row's item. */
module InventoryQuantity {
  import opened Optional

  /** The fields of an `item` row the dialog reads. */
  datatype Item = Item(item_id: int, quantity: int)

  /** The PATCH to `/api/update-quantity/<item_id>`: the item it targets and
      the quantity it sets. The `updated_at` stamp is a clock reading and is
      not part of the model. */
  datatype QuantityPatch = QuantityPatch(item_id: int, quantity: int)

  /** The request `handleAddQuantity` makes for an amount, if any. */
  function RestockPatch(item: Item, quantityToAdd: int): (patch: Option<QuantityPatch>)
    ensures patch.Some? <==> quantityToAdd > 0
    ensures patch.Some? ==> patch.value.item_id == item.item_id
    ensures patch.Some? ==> patch.value.quantity > item.quantity
    ensures patch.Some? ==> patch.value.quantity - item.quantity == quantityToAdd
  {
    if quantityToAdd > 0 then Some(QuantityPatch(item.item_id, item.quantity + quantityToAdd))
    else None
  }

  /** The `disabled` state of the Add button. */
  predicate AddDisabled(newQuantity: int) {
    newQuantity <= 0
  }

  /** The button is disabled exactly when pressing it would send nothing. */
  lemma DisabledIffNoRequest(item: Item, newQuantity: int)
    ensures AddDisabled(newQuantity) <==> RestockPatch(item, newQuantity) == None
  {
  }

  /** The dialog's state: the row it was opened for, the amount typed so
      far, and the PATCH requests sent, oldest first. */
  class AddQuantityDialog {
    const item: Item
    var newQuantity: int
    var patches: seq<QuantityPatch>

    constructor (item: Item)
      ensures this.item == item && newQuantity == 0 && patches == []
    {
      this.item := item;
      newQuantity := 0;
      patches := [];
    }

    /** The effect that runs when `isViewOpen` changes: opening resets the
        amount to 0, closing leaves it. */
    method ViewOpenChanged(isViewOpen: bool)
      modifies this
      ensures isViewOpen ==> newQuantity == 0
      ensures !isViewOpen ==> newQuantity == old(newQuantity)
      ensures patches == old(patches)
    {
      if isViewOpen {
        newQuantity := 0;
      }
    }

    /** The input's `onChange`: the typed text after `Number(...)`. */
    method SetNewQuantity(value: int)
      modifies this
      ensures newQuantity == value && patches == old(patches)
    {
      newQuantity := value;
    }

    /** `handleAddQuantity`: a PATCH only for a positive amount. Its outcome
        is reported by an alert and a page reload, which leave this state
        alone. */
    method HandleAddQuantity()
      modifies this
      ensures newQuantity == old(newQuantity)
      ensures old(newQuantity) > 0 ==>
                patches == old(patches) + [QuantityPatch(item.item_id, item.quantity + old(newQuantity))]
      ensures old(newQuantity) <= 0 ==> patches == old(patches)
      ensures AddDisabled(old(newQuantity)) <==> patches == old(patches)
    {
      var quantityToAdd := newQuantity;
      var patch := RestockPatch(item, quantityToAdd);
      if patch.Some? {
        patches := patches + [patch.value];
      }
    }
  }
}
