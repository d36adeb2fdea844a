/** The "edit category" dialog: a copy of the category that is reset on
    every open, a pristine flag that the first keystroke clears, Save
    disabled while loading or pristine, and a PATCH of the edited copy to
    the original category's id only when the name is not empty. */
module CategoryEdit {
  import opened CategoryForm

  /** A category as the dialog holds it; the timestamps play no part. */
  datatype Category = Category(category_id: int, category_name: string)

  /** A PATCH to `/api/categories/<id>` with the edited category as body. */
  datatype CategoryPatch = CategoryPatch(id: int, body: Category)

  class EditCategoryDialog {
    const category: Category
    var editedCategory: Category
    var loading: bool
    var errors: map<Field, string>
    var isPristine: bool
    /** The PATCH requests sent, oldest first. */
    var patches: seq<CategoryPatch>

    /** The id input is read-only, so the copy always carries the original
        id, and every request goes to that id with that id in its body. */
    ghost predicate Valid()
      reads this
    {
      && editedCategory.category_id == category.category_id
      && forall i | 0 <= i < |patches| ::
           patches[i].id == category.category_id && patches[i].body.category_id == category.category_id
           && patches[i].body.category_name != ""
    }

    constructor (category: Category)
      ensures this.category == category && editedCategory == category
      ensures !loading && errors == map[] && isPristine && patches == []
      ensures Valid()
    {
      this.category := category;
      editedCategory := category;
      loading := false;
      errors := map[];
      isPristine := true;
      patches := [];
    }

    /** `isSaveDisabled`. */
    predicate IsSaveDisabled()
      reads this
    {
      loading || isPristine
    }

    /** The effect that runs when `isEditOpen` changes: opening restores the
        copy, the pristine flag and an empty error map; closing keeps all. */
    method EditOpenChanged(isEditOpen: bool)
      requires Valid()
      modifies this
      ensures Valid()
      ensures isEditOpen ==> editedCategory == category && isPristine && errors == map[]
      ensures isEditOpen ==> IsSaveDisabled()
      ensures !isEditOpen ==>
        editedCategory == old(editedCategory) && isPristine == old(isPristine) && errors == old(errors)
      ensures loading == old(loading) && patches == old(patches)
    {
      if isEditOpen {
        editedCategory := category;
        isPristine := true;
        errors := map[];
      }
    }

    /** `handleInputChange`: store the name, leave the pristine state, and
        set the name's message to `""`. */
    method HandleInputChange(field: Field, value: string)
      requires Valid()
      modifies this
      ensures Valid()
      ensures editedCategory == Category(category.category_id, value)
      ensures !isPristine
      ensures errors == old(errors)[field := ""]
      ensures !Shown(errors, field)
      ensures !loading ==> !IsSaveDisabled()
      ensures loading == old(loading) && patches == old(patches)
    {
      match field
      case CategoryName => editedCategory := editedCategory.(category_name := value);
      isPristine := false;
      errors := errors[field := ""];
    }

    /** `handleEditCategory`. With an empty name the message is shown and
        nothing is sent; otherwise the map is cleared and the edited copy
        is sent to the original category's id. The reply only closes the
        dialog or is reported, so it is not modelled. */
    method HandleEditCategory()
      requires Valid()
      modifies this
      ensures Valid()
      ensures !loading
      ensures editedCategory == old(editedCategory) && isPristine == old(isPristine)
      ensures old(editedCategory).category_name == "" ==>
        errors == CategoryErrors(old(editedCategory).category_name) && patches == old(patches)
      ensures old(editedCategory).category_name != "" ==>
        errors == map[] && patches == old(patches) + [CategoryPatch(category.category_id, old(editedCategory))]
    {
      loading := true;
      var newErrors, hasErrors := CollectCategoryErrors(editedCategory.category_name);
      if hasErrors {
        errors := newErrors;
        loading := false;
        return;
      }
      errors := map[];
      patches := patches + [CategoryPatch(category.category_id, editedCategory)];
      loading := false;
    }
  }
}
