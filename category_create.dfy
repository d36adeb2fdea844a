/** The "create category" dialog: typing into the name clears its message;
    Create either records the error map and stops, or hands the name to its
    parent and empties the input. */
module CategoryCreate {
  import opened CategoryForm

  /** What the dialog hands to `onCreate`: a category without id or
      timestamps. */
  datatype NewCategory = NewCategory(category_name: string)

  const EmptyCategory := NewCategory("")

  class CreateCategoryDialog {
    var newCategory: NewCategory
    var loading: bool
    var errors: map<Field, string>
    /** The categories handed to `onCreate`, oldest first. */
    var created: seq<NewCategory>

    /** Every category handed on has a name. */
    ghost predicate Valid()
      reads this
    {
      forall i | 0 <= i < |created| :: created[i].category_name != ""
    }

    constructor ()
      ensures newCategory == EmptyCategory && !loading && errors == map[] && created == []
      ensures Valid()
    {
      newCategory := EmptyCategory;
      loading := false;
      errors := map[];
      created := [];
    }

    /** `handleInputChange`: store the value and set the name's message to
        `""`. */
    method HandleInputChange(field: Field, value: string)
      requires Valid()
      modifies this
      ensures Valid()
      ensures newCategory == NewCategory(value)
      ensures errors == old(errors)[field := ""]
      ensures !Shown(errors, field)
      ensures loading == old(loading) && created == old(created)
    {
      match field
      case CategoryName => newCategory := newCategory.(category_name := value);
      errors := errors[field := ""];
    }

    /** `handleCreateCategory`. With an empty name the message is shown,
        loading is switched off and the input is kept; otherwise the map is
        cleared, the entered name is handed to `onCreate` and the input is
        emptied. */
    method HandleCreateCategory()
      requires Valid()
      modifies this
      ensures Valid()
      ensures !loading
      ensures old(newCategory).category_name == "" ==>
        && errors == CategoryErrors(old(newCategory).category_name)
        && newCategory == old(newCategory) && created == old(created)
      ensures old(newCategory).category_name != "" ==>
        && errors == map[]
        && created == old(created) + [old(newCategory)]
        && newCategory == EmptyCategory
    {
      loading := true;
      var newErrors, hasErrors := CollectCategoryErrors(newCategory.category_name);
      if hasErrors {
        errors := newErrors;
        loading := false;
        return;
      }
      errors := map[];
      created := created + [newCategory];
      newCategory := EmptyCategory;
      loading := false;
    }
  }
}
