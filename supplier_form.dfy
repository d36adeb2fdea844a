/** The checks the supplier create and edit dialogs run before saving: name,
    address and e-mail are required, a non-empty e-mail must match the
    e-mail pattern, the number is optional but when given must be eleven
    digits, and the contact person is not checked at all. */
module SupplierForm {
  import opened Optional
  import opened ContactRules
  import opened FormErrors

  datatype Field = Name | ContactPerson | Address | Email | Number

  /** The editable fields of a supplier record. */
  datatype SupplierFields = SupplierFields(
    name: string,
    contact_person: string,
    address: string,
    email: string,
    number: string)

  const EmptySupplier := SupplierFields("", "", "", "", "")

  function Get(s: SupplierFields, f: Field): string {
    match f
    case Name => s.name
    case ContactPerson => s.contact_person
    case Address => s.address
    case Email => s.email
    case Number => s.number
  }

  /** `{ ...prev, [id]: value }`. */
  function Set(s: SupplierFields, f: Field, value: string): (r: SupplierFields)
    ensures Get(r, f) == value
    ensures forall g: Field | g != f :: Get(r, g) == Get(s, g)
  {
    match f
    case Name => s.(name := value)
    case ContactPerson => s.(contact_person := value)
    case Address => s.(address := value)
    case Email => s.(email := value)
    case Number => s.(number := value)
  }

  const NameRequired := "Please enter supplier name."
  const AddressRequired := "Please enter supplier address."
  const EmailRequired := "Please enter supplier email."
  const EmailFormat := "Please enter a valid email address."
  const NumberFormat := "Phone number must contain 11 numeric digits."

  /** The message a field ends up with, if any. */
  function FieldError(s: SupplierFields, f: Field): Option<string> {
    match f
    case Name => if s.name == "" then Some(NameRequired) else None
    case ContactPerson => None
    case Address => if s.address == "" then Some(AddressRequired) else None
    case Email =>
      if s.email == "" then Some(EmailRequired)
      else if !IsValidEmail(s.email) then Some(EmailFormat)
      else None
    case Number => if s.number != "" && !IsPhoneNumber(s.number) then Some(NumberFormat) else None
  }

  /** The error map: one entry per field that has a message. */
  function SupplierErrors(s: SupplierFields): map<Field, string> {
    map f | f in {Name, ContactPerson, Address, Email, Number} && FieldError(s, f).Some? ::
      FieldError(s, f).value
  }

  /** The first three checks of the validation block: each empty required
      field records its message. */
  method CollectRequired(s: SupplierFields) returns (newErrors: map<Field, string>, hasErrors: bool)
    ensures (Name in newErrors <==> s.name == "") && (Name in newErrors ==> newErrors[Name] == NameRequired)
    ensures (Address in newErrors <==> s.address == "") && (Address in newErrors ==> newErrors[Address] == AddressRequired)
    ensures (Email in newErrors <==> s.email == "") && (Email in newErrors ==> newErrors[Email] == EmailRequired)
    ensures ContactPerson !in newErrors && Number !in newErrors
    ensures hasErrors <==> newErrors != map[]
  {
    newErrors := map[];
    hasErrors := false;
    newErrors, hasErrors := Record(newErrors, hasErrors, s.name == "", Name, NameRequired);
    newErrors, hasErrors := Record(newErrors, hasErrors, s.address == "", Address, AddressRequired);
    newErrors, hasErrors := Record(newErrors, hasErrors, s.email == "", Email, EmailRequired);
  }

  /** The validation block of `handleCreateSupplier` and
      `handleEditSupplier`: three required checks, then the two format
      checks guarded by non-emptiness. */
  method CollectSupplierErrors(s: SupplierFields) returns (newErrors: map<Field, string>, hasErrors: bool)
    ensures newErrors == SupplierErrors(s)
    ensures hasErrors <==> newErrors != map[]
  {
    var emailValid := IsValidEmail(s.email);
    var numberValid := IsPhoneNumber(s.number);
    newErrors, hasErrors := CollectRequired(s);
    newErrors, hasErrors := Record(newErrors, hasErrors, s.email != "" && !emailValid, Email, EmailFormat);
    newErrors, hasErrors := Record(newErrors, hasErrors, s.number != "" && !numberValid, Number, NumberFormat);
    ErrorsFromChecks(s, newErrors, emailValid, numberValid);
  }

  /** The map the checks leave behind, described field by field, is the
      error map. */
  lemma ErrorsFromChecks(s: SupplierFields, m: map<Field, string>, emailValid: bool, numberValid: bool)
    requires emailValid == IsValidEmail(s.email) && numberValid == IsPhoneNumber(s.number)
    requires (Name in m <==> s.name == "") && (Name in m ==> m[Name] == NameRequired)
    requires (Address in m <==> s.address == "") && (Address in m ==> m[Address] == AddressRequired)
    requires ContactPerson !in m
    requires Email in m <==> s.email == "" || !emailValid
    requires Email in m ==> m[Email] == if s.email == "" then EmailRequired else EmailFormat
    requires (Number in m <==> s.number != "" && !numberValid) && (Number in m ==> m[Number] == NumberFormat)
    ensures m == SupplierErrors(s)
  {
    ErrorsByField(s);
    forall f: Field
      ensures f in m <==> FieldError(s, f).Some?
      ensures f in m ==> m[f] == FieldError(s, f).value
    {
      match f
      case Name =>
      case ContactPerson =>
      case Address =>
      case Email =>
      case Number =>
    }
  }

  /** The map holds a field exactly when the field has a message, and then
      holds that message. */
  lemma ErrorsByField(s: SupplierFields)
    ensures forall f: Field :: f in SupplierErrors(s) <==> FieldError(s, f).Some?
    ensures forall f: Field | f in SupplierErrors(s) :: SupplierErrors(s)[f] == FieldError(s, f).value
  {
    forall f: Field
      ensures f in SupplierErrors(s) <==> FieldError(s, f).Some?
    {
      match f
      case Name =>
      case ContactPerson =>
      case Address =>
      case Email =>
      case Number =>
    }
  }

  /** A supplier is saved exactly when name and address are filled, the
      e-mail matches the pattern, and the number is empty or eleven digits. */
  lemma NoErrorsIff(s: SupplierFields)
    ensures SupplierErrors(s) == map[] <==>
      s.name != "" && s.address != "" && IsValidEmail(s.email) && (s.number == "" || IsPhoneNumber(s.number))
  {
    ErrorsByField(s);
    EmptyIsNotEmail();
    if SupplierErrors(s) == map[] {
      assert FieldError(s, Name).None?;
      assert FieldError(s, Address).None?;
      assert FieldError(s, Email).None?;
      assert FieldError(s, Number).None?;
    } else {
      var f :| f in SupplierErrors(s);
      assert FieldError(s, f).Some?;
    }
  }

  /** The contact person never has a message and never affects the others. */
  lemma ContactPersonUnchecked(s: SupplierFields, person: string)
    ensures ContactPerson !in SupplierErrors(s)
    ensures SupplierErrors(s.(contact_person := person)) == SupplierErrors(s)
  {
    ErrorsByField(s);
    ErrorsByField(s.(contact_person := person));
    var t := s.(contact_person := person);
    forall f: Field
      ensures FieldError(t, f) == FieldError(s, f)
    {
    }
  }

  /** What the dialog renders under a field: a message that is not empty. */
  predicate Shown(errors: map<Field, string>, f: Field) {
    f in errors && errors[f] != ""
  }
}
