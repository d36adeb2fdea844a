/** The shape every dialog's validation block shares: a map from input id to
    message, filled one check at a time, and a flag raised with it. */
module FormErrors {

  /** One `if (…) { newErrors.<field> = <message>; hasErrors = true; }`
      block: a failed check records its message under its field, replacing
      any earlier one, and raises the flag. The flag stays exactly "the map
      is not empty". */
  method Record<F>(errors: map<F, string>, hasErrors: bool, failed: bool, f: F, message: string)
    returns (errors': map<F, string>, hasErrors': bool)
    requires hasErrors <==> errors != map[]
    ensures errors' == if failed then errors[f := message] else errors
    ensures hasErrors' == (hasErrors || failed)
    ensures hasErrors' <==> errors' != map[]
  {
    errors', hasErrors' := errors, hasErrors;
    if failed {
      errors' := errors'[f := message];
      hasErrors' := true;
      assert f in errors';
    }
  }
}
