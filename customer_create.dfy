/** The "create customer" dialog: typing into a field clears that field's
    message; Create either records the error map and stops, or hands the
    customer to its parent and empties the form. */
module CustomerCreate {
  import opened CustomerForm
  import opened ContactRules

  class CreateCustomerDialog {
    var newCustomer: CustomerFields
    var loading: bool
    var errors: map<Field, string>
    /** The customers handed to `onCreate`, oldest first. */
    var created: seq<CustomerFields>

    constructor ()
      ensures newCustomer == EmptyCustomer && !loading && errors == map[] && created == []
    {
      newCustomer := EmptyCustomer;
      loading := false;
      errors := map[];
      created := [];
    }

    /** `handleInputChange`: store the value and set the field's message to
        `""`; every other field and message is kept. */
    method HandleInputChange(field: Field, value: string)
      modifies this
      ensures newCustomer == Set(old(newCustomer), field, value)
      ensures errors == old(errors)[field := ""]
      ensures !Shown(errors, field)
      ensures forall f: Field | f != field :: Shown(errors, f) == Shown(old(errors), f)
      ensures loading == old(loading) && created == old(created)
    {
      newCustomer := Set(newCustomer, field, value);
      errors := errors[field := ""];
    }

    /** `handleCreateCustomer`. With an error the map is shown and the form
        is kept; without one the map is cleared, the customer is handed to
        `onCreate` and all four fields are emptied. */
    method HandleCreateCustomer()
      modifies this
      ensures !loading
      ensures CustomerErrors(old(newCustomer), CreateNumberFormat) != map[] ==>
        && errors == CustomerErrors(old(newCustomer), CreateNumberFormat)
        && newCustomer == old(newCustomer) && created == old(created)
      ensures CustomerErrors(old(newCustomer), CreateNumberFormat) == map[] ==>
        && errors == map[]
        && created == old(created) + [old(newCustomer)]
        && newCustomer == EmptyCustomer
    {
      loading := true;
      var newErrors, hasErrors := CollectCustomerErrors(newCustomer, CreateNumberFormat);
      if hasErrors {
        errors := newErrors;
      } else {
        errors := map[];
        created := created + [newCustomer];
        newCustomer := EmptyCustomer;
      }
      loading := false;
    }
  }

  /** A customer reaches `onCreate` only with every field filled in, a
      well-formed e-mail and an eleven-digit number, so the emptied form
      cannot be submitted again as it is. */
  lemma CreatedCustomersAreComplete(c: CustomerFields)
    requires CustomerErrors(c, CreateNumberFormat) == map[]
    ensures c.name != "" && c.address != "" && IsValidEmail(c.email) && IsPhoneNumber(c.number)
    ensures CustomerErrors(EmptyCustomer, CreateNumberFormat) != map[]
  {
    NoErrorsIff(c, CreateNumberFormat);
    NoErrorsIff(EmptyCustomer, CreateNumberFormat);
  }
}
