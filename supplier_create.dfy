/** The "create supplier" dialog: typing into a field clears that field's
    message; Create either records the error map and stops, or hands the
    supplier to its parent and empties all five fields. */
module SupplierCreate {
  import opened SupplierForm
  import opened ContactRules

  class CreateSupplierDialog {
    var newSupplier: SupplierFields
    var loading: bool
    var errors: map<Field, string>
    /** The suppliers handed to `onCreate`, oldest first. */
    var created: seq<SupplierFields>

    constructor ()
      ensures newSupplier == EmptySupplier && !loading && errors == map[] && created == []
    {
      newSupplier := EmptySupplier;
      loading := false;
      errors := map[];
      created := [];
    }

    /** `handleInputChange`: store the value and set the field's message to
        `""`; every other field and message is kept. */
    method HandleInputChange(field: Field, value: string)
      modifies this
      ensures newSupplier == Set(old(newSupplier), field, value)
      ensures errors == old(errors)[field := ""]
      ensures !Shown(errors, field)
      ensures forall f: Field | f != field :: Shown(errors, f) == Shown(old(errors), f)
      ensures loading == old(loading) && created == old(created)
    {
      newSupplier := Set(newSupplier, field, value);
      errors := errors[field := ""];
    }

    /** `handleCreateSupplier`. With an error the map is shown, loading is
        switched off and the form is kept; without one the map is cleared,
        the supplier is handed to `onCreate` and the form is emptied. */
    method HandleCreateSupplier()
      modifies this
      ensures !loading
      ensures SupplierErrors(old(newSupplier)) != map[] ==>
        && errors == SupplierErrors(old(newSupplier))
        && newSupplier == old(newSupplier) && created == old(created)
      ensures SupplierErrors(old(newSupplier)) == map[] ==>
        && errors == map[]
        && created == old(created) + [old(newSupplier)]
        && newSupplier == EmptySupplier
    {
      loading := true;
      var newErrors, hasErrors := CollectSupplierErrors(newSupplier);
      if hasErrors {
        errors := newErrors;
        loading := false;
        return;
      }
      errors := map[];
      created := created + [newSupplier];
      newSupplier := EmptySupplier;
      loading := false;
    }
  }

  /** A supplier without a number can be created; the emptied form cannot
      be submitted again as it is. */
  lemma NumberMayBeLeftEmpty(s: SupplierFields)
    requires s.name != "" && s.address != "" && IsValidEmail(s.email) && s.number == ""
    ensures SupplierErrors(s) == map[]
    ensures SupplierErrors(EmptySupplier) != map[]
  {
    NoErrorsIff(s);
    NoErrorsIff(EmptySupplier);
  }
}
