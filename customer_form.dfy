/** The checks the customer create and edit dialogs run before saving: each
    of the four fields is required, a non-empty e-mail must match the e-mail
    pattern and a non-empty number must be eleven digits. The result is an
    error map with at most one message per field; the dialogs save only when
    it is empty. The two dialogs differ only in the wording of the number
    format message. */
module CustomerForm {
  import opened Optional
  import opened ContactRules
  import opened FormErrors

  datatype Field = Name | Address | Email | Number

  /** The editable fields of a customer record. */
  datatype CustomerFields = CustomerFields(name: string, address: string, email: string, number: string)

  const EmptyCustomer := CustomerFields("", "", "", "")

  function Get(c: CustomerFields, f: Field): string {
    match f
    case Name => c.name
    case Address => c.address
    case Email => c.email
    case Number => c.number
  }

  /** `{ ...prev, [id]: value }`. */
  function Set(c: CustomerFields, f: Field, value: string): (r: CustomerFields)
    ensures Get(r, f) == value
    ensures forall g: Field | g != f :: Get(r, g) == Get(c, g)
  {
    match f
    case Name => c.(name := value)
    case Address => c.(address := value)
    case Email => c.(email := value)
    case Number => c.(number := value)
  }

  const NameRequired := "Please enter customer name."
  const AddressRequired := "Please enter customer address."
  const EmailRequired := "Please enter customer email."
  const NumberRequired := "Please enter customer number."
  const EmailFormat := "Please enter a valid email address."
  /** The create dialog's number format message. */
  const CreateNumberFormat := "Phone number must contain 11 numeric digits."
  /** The edit dialog's number format message, for the same eleven-digit rule. */
  const EditNumberFormat := "Phone number must contain only numeric characters."

  /** The message a field ends up with, if any: the required message when
      it is empty, else the format message when it is malformed. */
  function FieldError(c: CustomerFields, f: Field, numberFormat: string): Option<string> {
    match f
    case Name => if c.name == "" then Some(NameRequired) else None
    case Address => if c.address == "" then Some(AddressRequired) else None
    case Email =>
      if c.email == "" then Some(EmailRequired)
      else if !IsValidEmail(c.email) then Some(EmailFormat)
      else None
    case Number =>
      if c.number == "" then Some(NumberRequired)
      else if !IsPhoneNumber(c.number) then Some(numberFormat)
      else None
  }

  /** The error map: one entry per field that has a message. */
  function CustomerErrors(c: CustomerFields, numberFormat: string): map<Field, string> {
    map f | f in {Name, Address, Email, Number} && FieldError(c, f, numberFormat).Some? ::
      FieldError(c, f, numberFormat).value
  }

  /** The first four checks of the validation block: each empty field
      records its required message. */
  method CollectRequired(c: CustomerFields) returns (newErrors: map<Field, string>, hasErrors: bool)
    ensures (Name in newErrors <==> c.name == "") && (Name in newErrors ==> newErrors[Name] == NameRequired)
    ensures (Address in newErrors <==> c.address == "") && (Address in newErrors ==> newErrors[Address] == AddressRequired)
    ensures (Email in newErrors <==> c.email == "") && (Email in newErrors ==> newErrors[Email] == EmailRequired)
    ensures (Number in newErrors <==> c.number == "") && (Number in newErrors ==> newErrors[Number] == NumberRequired)
    ensures hasErrors <==> newErrors != map[]
  {
    newErrors := map[];
    hasErrors := false;
    newErrors, hasErrors := Record(newErrors, hasErrors, c.name == "", Name, NameRequired);
    newErrors, hasErrors := Record(newErrors, hasErrors, c.address == "", Address, AddressRequired);
    newErrors, hasErrors := Record(newErrors, hasErrors, c.email == "", Email, EmailRequired);
    newErrors, hasErrors := Record(newErrors, hasErrors, c.number == "", Number, NumberRequired);
  }

  /** The validation block of `handleCreateCustomer` and
      `handleEditCustomer`: four required checks, then the two format checks
      guarded by non-emptiness, each recording its message and raising
      `hasErrors`. */
  method CollectCustomerErrors(c: CustomerFields, numberFormat: string)
    returns (newErrors: map<Field, string>, hasErrors: bool)
    ensures newErrors == CustomerErrors(c, numberFormat)
    ensures hasErrors <==> newErrors != map[]
  {
    var emailValid := IsValidEmail(c.email);
    var numberValid := IsPhoneNumber(c.number);
    newErrors, hasErrors := CollectRequired(c);
    newErrors, hasErrors := Record(newErrors, hasErrors, c.email != "" && !emailValid, Email, EmailFormat);
    newErrors, hasErrors := Record(newErrors, hasErrors, c.number != "" && !numberValid, Number, numberFormat);
    ErrorsFromChecks(c, numberFormat, newErrors, emailValid, numberValid);
  }

  /** The map the checks leave behind, described field by field, is the
      error map. */
  lemma ErrorsFromChecks(c: CustomerFields, numberFormat: string, m: map<Field, string>,
                         emailValid: bool, numberValid: bool)
    requires emailValid == IsValidEmail(c.email) && numberValid == IsPhoneNumber(c.number)
    requires (Name in m <==> c.name == "") && (Name in m ==> m[Name] == NameRequired)
    requires (Address in m <==> c.address == "") && (Address in m ==> m[Address] == AddressRequired)
    requires Email in m <==> c.email == "" || !emailValid
    requires Email in m ==> m[Email] == if c.email == "" then EmailRequired else EmailFormat
    requires Number in m <==> c.number == "" || !numberValid
    requires Number in m ==> m[Number] == if c.number == "" then NumberRequired else numberFormat
    ensures m == CustomerErrors(c, numberFormat)
  {
    ErrorsByField(c, numberFormat);
    forall f: Field
      ensures f in m <==> FieldError(c, f, numberFormat).Some?
      ensures f in m ==> m[f] == FieldError(c, f, numberFormat).value
    {
      match f
      case Name =>
      case Address =>
      case Email =>
      case Number =>
    }
  }

  /** The map holds a field exactly when the field has a message, and then
      holds that message. */
  lemma ErrorsByField(c: CustomerFields, numberFormat: string)
    ensures forall f: Field :: f in CustomerErrors(c, numberFormat) <==> FieldError(c, f, numberFormat).Some?
    ensures forall f: Field | f in CustomerErrors(c, numberFormat) ::
      CustomerErrors(c, numberFormat)[f] == FieldError(c, f, numberFormat).value
  {
    forall f: Field
      ensures f in CustomerErrors(c, numberFormat) <==> FieldError(c, f, numberFormat).Some?
    {
      match f
      case Name =>
      case Address =>
      case Email =>
      case Number =>
    }
  }

  /** A customer is saved exactly when all four fields are filled, the
      e-mail matches the pattern and the number is eleven digits. */
  lemma NoErrorsIff(c: CustomerFields, numberFormat: string)
    ensures CustomerErrors(c, numberFormat) == map[] <==>
      c.name != "" && c.address != "" && IsValidEmail(c.email) && IsPhoneNumber(c.number)
  {
    ErrorsByField(c, numberFormat);
    EmptyIsNotEmail();
    if CustomerErrors(c, numberFormat) == map[] {
      assert FieldError(c, Name, numberFormat).None?;
      assert FieldError(c, Address, numberFormat).None?;
      assert FieldError(c, Email, numberFormat).None?;
      assert FieldError(c, Number, numberFormat).None?;
    } else {
      var f :| f in CustomerErrors(c, numberFormat);
      assert FieldError(c, f, numberFormat).Some?;
    }
  }

  /** The format message of a field appears only for a non-empty value, and
      the required message only for an empty one. */
  lemma RequiredAndFormatExclusive(c: CustomerFields, numberFormat: string)
    requires numberFormat != NumberRequired
    ensures var errs := CustomerErrors(c, numberFormat);
            && (Email in errs && errs[Email] == EmailRequired <==> c.email == "")
            && (Email in errs && errs[Email] == EmailFormat <==> c.email != "" && !EmailPattern(c.email))
            && (Number in errs && errs[Number] == NumberRequired <==> c.number == "")
            && (Number in errs && errs[Number] == numberFormat <==> c.number != "" && !IsPhoneNumber(c.number))
  {
    ErrorsByField(c, numberFormat);
    IsValidEmailCorrect(c.email);
  }

  /** What the dialog renders under a field: a message that is not empty.
      An input change stores `""`, which renders nothing. */
  predicate Shown(errors: map<Field, string>, f: Field) {
    f in errors && errors[f] != ""
  }
}
