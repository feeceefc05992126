/** The categories page: form validation, the list updates after a create, an
    edit or a delete, and the form's field and error bookkeeping. */
module CategoriesPage {
  import opened Wrappers
  import opened Text
  import opened Records
  import opened SeqFilter

  datatype CategoryForm = CategoryForm(name: string, color: string)

  /** The `formErrors` object: a message per field, `None` when absent or cleared. */
  datatype CategoryErrors = CategoryErrors(name: Option<string>, color: Option<string>)

  datatype FormField = NameField | ColorField

  /** The store call a submit or a delete makes. */
  datatype CategoryRequest = UpdateCategory(id: int, form: CategoryForm) | CreateCategory(form: CategoryForm) | RemoveCategory(id: int)

  const DefaultColor := "#8B5CF6"
  const EmptyForm := CategoryForm("", DefaultColor)
  const NoErrors := CategoryErrors(None, None)

  /** `validateForm()`: the errors it records. */
  function Validate(form: CategoryForm): (e: CategoryErrors)
    ensures e.name.Some? <==> Trim(form.name) == ""
    ensures e.color.Some? <==> form.color == ""
  {
    CategoryErrors(
      if Trim(form.name) == "" then Some("Category name is required") else None,
      if form.color == "" then Some("Color is required") else None)
  }

  /** The form is accepted exactly when the name has a non-blank character and a
      colour is chosen. */
  lemma ValidIffFilled(form: CategoryForm)
    ensures Validate(form) == NoErrors <==>
              (exists i :: 0 <= i < |form.name| && !IsSpace(form.name[i])) && form.color != ""
  {
    TrimEmptyIffBlank(form.name);
  }

  /** `prev.map(cat => cat.Id === id ? updated : cat)`. */
  function ReplaceById(cats: seq<Category>, id: int, updated: Category): seq<Category>
  {
    seq(|cats|, i requires 0 <= i < |cats| => if cats[i].Id == id then updated else cats[i])
  }

  /** Only the entries with the edited Id change; the others keep their places. */
  lemma ReplaceByIdOnlyThatId(cats: seq<Category>, id: int, updated: Category)
    ensures |ReplaceById(cats, id, updated)| == |cats|
    ensures forall i :: 0 <= i < |cats| && cats[i].Id != id ==> ReplaceById(cats, id, updated)[i] == cats[i]
    ensures forall i :: 0 <= i < |cats| && cats[i].Id == id ==> ReplaceById(cats, id, updated)[i] == updated
    ensures updated.Id == id ==> forall i :: 0 <= i < |cats| ==> ReplaceById(cats, id, updated)[i].Id == cats[i].Id
    ensures updated.Id == id ==> forall c: Category :: c.Id != id ==> (c in ReplaceById(cats, id, updated) <==> c in cats)
  {
    var r := ReplaceById(cats, id, updated);
    forall c: Category | c.Id != id && updated.Id == id ensures c in r <==> c in cats {
      if c in cats {
        var i :| 0 <= i < |cats| && cats[i] == c;
        assert r[i] == c;
      }
      if c in r {
        var i :| 0 <= i < |r| && r[i] == c;
        assert cats[i] == c;
      }
    }
  }

  function OtherId(id: int): Category -> bool
  {
    (c: Category) => c.Id != id
  }

  /** `prev.filter(cat => cat.Id !== id)` drops exactly the entries with that Id. */
  lemma RemoveByIdExact(cats: seq<Category>, id: int)
    ensures forall c: Category :: c in Where(cats, OtherId(id)) <==> c in cats && c.Id != id
    ensures IsSubsequence(Where(cats, OtherId(id)), cats)
    ensures (forall i :: 0 <= i < |cats| ==> cats[i].Id != id) ==> Where(cats, OtherId(id)) == cats
  {
    WhereMembership(cats, OtherId(id));
    WhereIsSubsequence(cats, OtherId(id));
    if forall i :: 0 <= i < |cats| ==> cats[i].Id != id {
      WhereAllPass(cats, OtherId(id));
    }
  }

  class CategoriesPageState {
    var categories: seq<Category>
    var tasks: seq<Task>
    var showForm: bool
    var editing: Option<Category>
    var form: CategoryForm
    var errors: CategoryErrors
    var isSubmitting: bool

    /** The page after `loadData`. */
    constructor (loadedCategories: seq<Category>, loadedTasks: seq<Task>)
      ensures categories == loadedCategories && tasks == loadedTasks
      ensures !showForm && editing.None? && form == EmptyForm && errors == NoErrors && !isSubmitting
    {
      categories, tasks := loadedCategories, loadedTasks;
      showForm, editing, form, errors, isSubmitting := false, None, EmptyForm, NoErrors, false;
    }

    /** `handleSubmit`: validate; then update the edited category or create a
        new one, `answer` being how the store call settles. */
    method HandleSubmit(answer: Outcome<Category>) returns (request: Option<CategoryRequest>)
      modifies this`categories, this`showForm, this`editing, this`form, this`errors, this`isSubmitting
      ensures errors == Validate(old(form))
      ensures request.Some? <==> Validate(old(form)) == NoErrors
      ensures request.None? ==> isSubmitting == old(isSubmitting)
      ensures request.Some? ==> !isSubmitting
      ensures request.Some? ==> request.value == if old(editing).Some? then UpdateCategory(old(editing).value.Id, old(form))
                                                 else CreateCategory(old(form))
      ensures request.Some? && answer.Ok? ==>
                && categories == (if old(editing).Some? then ReplaceById(old(categories), old(editing).value.Id, answer.value)
                                  else [answer.value] + old(categories))
                && editing.None? && form == EmptyForm && !showForm
      ensures request.None? || answer.Err? ==>
                categories == old(categories) && form == old(form) && editing == old(editing) && showForm == old(showForm)
    {
      errors := Validate(form);
      if errors.name.Some? || errors.color.Some? {
        return None;
      }
      assert errors == NoErrors;
      var saved := Save(answer);
      request := Some(saved);
    }

    /** The part of `handleSubmit` after validation passes: the store call, and on
        success the list update and the form reset. */
    method Save(answer: Outcome<Category>) returns (request: CategoryRequest)
      modifies this`categories, this`showForm, this`editing, this`form, this`isSubmitting
      ensures !isSubmitting
      ensures request == if old(editing).Some? then UpdateCategory(old(editing).value.Id, old(form))
                         else CreateCategory(old(form))
      ensures answer.Ok? ==>
                && categories == (if old(editing).Some? then ReplaceById(old(categories), old(editing).value.Id, answer.value)
                                  else [answer.value] + old(categories))
                && editing.None? && form == EmptyForm && !showForm
      ensures answer.Err? ==>
                categories == old(categories) && form == old(form) && editing == old(editing) && showForm == old(showForm)
    {
      isSubmitting := true;
      if editing.Some? {
        request := UpdateCategory(editing.value.Id, form);
        if answer.Ok? {
          categories := ReplaceById(categories, editing.value.Id, answer.value);
        }
      } else {
        request := CreateCategory(form);
        if answer.Ok? {
          categories := [answer.value] + categories;
        }
      }
      if answer.Ok? {
        editing := None;
        form := EmptyForm;
        showForm := false;
      }
      isSubmitting := false;
    }

    /** `handleEdit(category)`: opens the form on that category's values. */
    method HandleEdit(c: Category)
      modifies this`editing, this`form, this`showForm, this`errors
      ensures editing == Some(c) && form == CategoryForm(c.Name, c.color) && showForm && errors == NoErrors
    {
      editing, form, showForm, errors := Some(c), CategoryForm(c.Name, c.color), true, NoErrors;
    }

    /** `handleDelete(category)`: refused while tasks use the category, then asks
        for confirmation; `answer` is how the removal settles. */
    method HandleDelete(c: Category, confirmed: bool, answer: Outcome<()>) returns (request: Option<CategoryRequest>)
      modifies this`categories
      ensures var inUse := CategoryTaskCount(tasks, c.Id) > 0;
              && (request.Some? <==> !inUse && confirmed)
              && (request.Some? ==> request.value == RemoveCategory(c.Id))
              && categories == if request.Some? && answer.Ok? then Where(old(categories), OtherId(c.Id)) else old(categories)
    {
      var taskCount := CategoryTaskCount(tasks, c.Id);
      if taskCount > 0 {
        return None;
      }
      if !confirmed {
        return None;
      }
      request := Some(RemoveCategory(c.Id));
      if answer.Ok? {
        categories := Where(categories, OtherId(c.Id));
      }
    }

    /** `handleCancel()`. */
    method HandleCancel()
      modifies this`showForm, this`editing, this`form, this`errors
      ensures !showForm && editing.None? && form == EmptyForm && errors == NoErrors
    {
      showForm, editing, form, errors := false, None, EmptyForm, NoErrors;
    }

    /** `handleFormChange(field, value)`: sets that field and clears only its error. */
    method HandleFormChange(field: FormField, value: string)
      modifies this`form, this`errors
      ensures field.NameField? ==> form == old(form).(name := value) && errors == old(errors).(name := None)
      ensures field.ColorField? ==> form == old(form).(color := value) && errors == old(errors).(color := None)
    {
      match field
      case NameField =>
        form := form.(name := value);
        if errors.name.Some? {
          errors := errors.(name := None);
        }
      case ColorField =>
        form := form.(color := value);
        if errors.color.Some? {
          errors := errors.(color := None);
        }
    }
  }
}
