/** The "edit supplier" dialog: a copy of the supplier that is reset on
    every open, Save disabled only while loading, and a PATCH of the edited
    copy to the original supplier's id only when the error map is empty.
    Unlike the customer and category edit dialogs it keeps no pristine
    flag. */
module SupplierEdit {
  import opened SupplierForm

  /** A supplier row as the dialog holds it: the id (shown read-only) and
      the editable fields. */
  datatype Supplier = Supplier(supplier_id: int, fields: SupplierFields)

  /** A PATCH to `/api/supplier/<id>` with the edited supplier as body. */
  datatype SupplierPatch = SupplierPatch(id: int, body: Supplier)

  class EditSupplierDialog {
    const supplier: Supplier
    var editedSupplier: Supplier
    var loading: bool
    var errors: map<Field, string>
    /** The PATCH requests sent, oldest first. */
    var patches: seq<SupplierPatch>

    constructor (supplier: Supplier)
      ensures this.supplier == supplier && editedSupplier == supplier
      ensures !loading && errors == map[] && patches == []
    {
      this.supplier := supplier;
      editedSupplier := supplier;
      loading := false;
      errors := map[];
      patches := [];
    }

    /** The Save button's `disabled`. */
    predicate IsSaveDisabled()
      reads this
    {
      loading
    }

    /** The effect that runs when `isEditOpen` changes: opening restores the
        copy and empties the error map; closing keeps both. */
    method EditOpenChanged(isEditOpen: bool)
      modifies this
      ensures isEditOpen ==> editedSupplier == supplier && errors == map[]
      ensures !isEditOpen ==> editedSupplier == old(editedSupplier) && errors == old(errors)
      ensures loading == old(loading) && patches == old(patches)
    {
      if isEditOpen {
        editedSupplier := supplier;
        errors := map[];
      }
    }

    /** `handleInputChange`: store the value and set only that field's
        message to `""`. */
    method HandleInputChange(field: Field, value: string)
      modifies this
      ensures editedSupplier == Supplier(old(editedSupplier).supplier_id, Set(old(editedSupplier).fields, field, value))
      ensures errors == old(errors)[field := ""]
      ensures !Shown(errors, field)
      ensures forall f: Field | f != field :: Shown(errors, f) == Shown(old(errors), f)
      ensures loading == old(loading) && patches == old(patches)
    {
      editedSupplier := editedSupplier.(fields := Set(editedSupplier.fields, field, value));
      errors := errors[field := ""];
    }

    /** `handleEditSupplier`. With an error the map is shown, loading is
        switched off and nothing is sent; otherwise the edited copy is sent
        to the original supplier's id. The error map is not cleared on that
        path: the dialog closes and the page reloads instead. */
    method HandleEditSupplier()
      modifies this
      ensures !loading
      ensures editedSupplier == old(editedSupplier)
      ensures SupplierErrors(old(editedSupplier).fields) != map[] ==>
        errors == SupplierErrors(old(editedSupplier).fields) && patches == old(patches)
      ensures SupplierErrors(old(editedSupplier).fields) == map[] ==>
        errors == old(errors) && patches == old(patches) + [SupplierPatch(supplier.supplier_id, old(editedSupplier))]
    {
      loading := true;
      var newErrors, hasErrors := CollectSupplierErrors(editedSupplier.fields);
      if hasErrors {
        errors := newErrors;
        loading := false;
        return;
      }
      patches := patches + [SupplierPatch(supplier.supplier_id, editedSupplier)];
      loading := false;
    }
  }
}
