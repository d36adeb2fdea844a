/** The one check the category create and edit dialogs run before saving:
    the name must not be empty. Both dialogs key their error map by the
    input's id, and the name input is the only one that reports changes. */
module CategoryForm {

  /** The inputs whose changes the dialogs record: only the name (the edit
      dialog's id input is read-only). */
  datatype Field = CategoryName

  const NameRequired := "Please enter category name."

  /** The error map the check produces for a name. */
  function CategoryErrors(name: string): (errors: map<Field, string>)
    ensures CategoryName in errors <==> name == ""
    ensures errors == map[] <==> name != ""
    ensures CategoryName in errors ==> errors[CategoryName] == NameRequired
  {
    if name == "" then map[CategoryName := NameRequired] else map[]
  }

  /** The validation block of `handleCreateCategory` and
      `handleEditCategory`. */
  method CollectCategoryErrors(name: string) returns (newErrors: map<Field, string>, hasErrors: bool)
    ensures newErrors == CategoryErrors(name)
    ensures hasErrors <==> name == ""
  {
    newErrors := map[];
    hasErrors := false;
    if name == "" {
      newErrors := newErrors[CategoryName := NameRequired];
      hasErrors := true;
    }
  }

  /** What the dialogs render under the name: a message that is not empty. */
  predicate Shown(errors: map<Field, string>, f: Field) {
    f in errors && errors[f] != ""
  }
}
