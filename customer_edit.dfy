/** The "edit customer" dialog: a copy of the customer that is reset on
    every open, a pristine flag that the first keystroke clears, Save
    disabled while loading or pristine, and a PATCH of the edited copy to
    the original customer's id only when the error map is empty. */
module CustomerEdit {
  import opened CustomerForm

  /** A customer row as the dialog holds it: the id (shown read-only) and
      the editable fields. */
  datatype Customer = Customer(customer_id: int, fields: CustomerFields)

  /** A PATCH to `/api/customer/<id>` with the edited customer as body. */
  datatype CustomerPatch = CustomerPatch(id: int, body: Customer)

  class EditCustomerDialog {
    const customer: Customer
    var editedCustomer: Customer
    var loading: bool
    var errors: map<Field, string>
    var isPristine: bool
    /** The PATCH requests sent, oldest first. */
    var patches: seq<CustomerPatch>

    constructor (customer: Customer)
      ensures this.customer == customer && editedCustomer == customer
      ensures !loading && errors == map[] && isPristine && patches == []
    {
      this.customer := customer;
      editedCustomer := customer;
      loading := false;
      errors := map[];
      isPristine := true;
      patches := [];
    }

    /** `isSaveDisabled`. */
    predicate IsSaveDisabled()
      reads this
    {
      loading || isPristine
    }

    /** The effect that runs when `isEditOpen` changes: opening restores the
        copy, the pristine flag and an empty error map; closing keeps all. */
    method EditOpenChanged(isEditOpen: bool)
      modifies this
      ensures isEditOpen ==> editedCustomer == customer && isPristine && errors == map[]
      ensures isEditOpen ==> IsSaveDisabled()
      ensures !isEditOpen ==>
        editedCustomer == old(editedCustomer) && isPristine == old(isPristine) && errors == old(errors)
      ensures loading == old(loading) && patches == old(patches)
    {
      if isEditOpen {
        editedCustomer := customer;
        isPristine := true;
        errors := map[];
      }
    }

    /** `handleInputChange`: store the value, leave the pristine state, and
        set only that field's message to `""`. */
    method HandleInputChange(field: Field, value: string)
      modifies this
      ensures editedCustomer == Customer(old(editedCustomer).customer_id, Set(old(editedCustomer).fields, field, value))
      ensures !isPristine
      ensures errors == old(errors)[field := ""]
      ensures !Shown(errors, field)
      ensures forall f: Field | f != field :: Shown(errors, f) == Shown(old(errors), f)
      ensures !loading ==> !IsSaveDisabled()
      ensures loading == old(loading) && patches == old(patches)
    {
      editedCustomer := editedCustomer.(fields := Set(editedCustomer.fields, field, value));
      isPristine := false;
      errors := errors[field := ""];
    }

    /** `handleEditCustomer`. With an error the map is shown and nothing is
        sent; otherwise the map is cleared and the edited copy is sent to
        the original customer's id. The reply only closes the dialog or is
        logged, so it is not modelled. */
    method HandleEditCustomer()
      modifies this
      ensures !loading
      ensures editedCustomer == old(editedCustomer) && isPristine == old(isPristine)
      ensures CustomerErrors(old(editedCustomer).fields, EditNumberFormat) != map[] ==>
        errors == CustomerErrors(old(editedCustomer).fields, EditNumberFormat) && patches == old(patches)
      ensures CustomerErrors(old(editedCustomer).fields, EditNumberFormat) == map[] ==>
        errors == map[] && patches == old(patches) + [CustomerPatch(customer.customer_id, old(editedCustomer))]
    {
      loading := true;
      var newErrors, hasErrors := CollectCustomerErrors(editedCustomer.fields, EditNumberFormat);
      if hasErrors {
        errors := newErrors;
      } else {
        errors := map[];
        patches := patches + [CustomerPatch(customer.customer_id, editedCustomer)];
      }
      loading := false;
    }
  }

  /** Both dialogs enforce the same eleven-digit rule; only the wording of
      the message differs. */
  lemma SameRuleBothDialogs(c: CustomerFields)
    ensures CustomerErrors(c, CreateNumberFormat) == map[] <==> CustomerErrors(c, EditNumberFormat) == map[]
    ensures (Number in CustomerErrors(c, CreateNumberFormat)) == (Number in CustomerErrors(c, EditNumberFormat))
  {
    NoErrorsIff(c, CreateNumberFormat);
    NoErrorsIff(c, EditNumberFormat);
    ErrorsByField(c, CreateNumberFormat);
    ErrorsByField(c, EditNumberFormat);
  }
}
