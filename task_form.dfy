/** The new-task form: its fields and errors, validation, the reset after a
    successful submit, and the default category chosen when categories load.
    `today` is the `yyyy-MM-dd` rendering of the current date. */
module TaskForm {
  import opened Wrappers
  import opened Text
  import opened Records

  /** `formData`; `categoryId` is `None` for the empty choice `""`. */
  datatype TaskFormData = TaskFormData(title: string, dueDate: string, priority: string, categoryId: Option<int>)

  datatype TaskErrors = TaskErrors(title: Option<string>, dueDate: Option<string>)

  /** The text fields `handleChange` can set. */
  datatype TextField = TitleField | DueDateField | PriorityField

  const NoTaskErrors := TaskErrors(None, None)

  /** The first category's id, or the empty choice. */
  function FirstCategory(categories: seq<Category>): (r: Option<int>)
    ensures r.Some? <==> |categories| > 0
    ensures r.Some? ==> r.value == categories[0].Id
  {
    if |categories| > 0 then Some(categories[0].Id) else None
  }

  /** The fields a blank form starts with. */
  function BlankForm(today: string, categories: seq<Category>): (f: TaskFormData)
    ensures f.title == "" && f.dueDate == today && f.priority == "Medium"
    ensures f.categoryId == FirstCategory(categories)
  {
    TaskFormData("", today, "Medium", FirstCategory(categories))
  }

  /** `validateForm()`: the errors it records. */
  function Validate(form: TaskFormData): (e: TaskErrors)
    ensures e.title.Some? <==> Trim(form.title) == ""
    ensures e.dueDate.Some? <==> form.dueDate == ""
  {
    TaskErrors(
      if Trim(form.title) == "" then Some("Task title is required") else None,
      if form.dueDate == "" then Some("Due date is required") else None)
  }

  /** The form is accepted exactly when the title has a non-blank character and a
      due date is given. */
  lemma ValidIffFilled(form: TaskFormData)
    ensures Validate(form) == NoTaskErrors <==>
              (exists i :: 0 <= i < |form.title| && !IsSpace(form.title[i])) && form.dueDate != ""
  {
    TrimEmptyIffBlank(form.title);
  }

  /** The category choice after loading as written: the test reads the choice the
      mount-time closure captured, and the update overwrites the current one. */
  function LoadedChoiceAsWritten(captured: Option<int>, current: Option<int>, data: seq<Category>): Option<int>
  {
    if |data| > 0 && captured.None? then Some(data[0].Id) else current
  }

  /** The evidently intended rule: default to the first category only while no
      category is chosen. */
  function LoadedChoice(current: Option<int>, data: seq<Category>): (r: Option<int>)
    ensures current.Some? ==> r == current
    ensures current.None? ==> r == FirstCategory(data)
  {
    if |data| > 0 && current.None? then Some(data[0].Id) else current
  }

  /** A choice made while a load is still in flight is lost as written: with the
      loaded list `[3, 7]` and 7 chosen, the completing load selects 3. */
  lemma LoadedChoiceAsWrittenOverwrites()
    ensures var data := [Category(3, "Work", "#3B82F6"), Category(7, "Home", "#10B981")];
            LoadedChoiceAsWritten(None, Some(7), data) == Some(3) && LoadedChoice(Some(7), data) == Some(7)
  {
  }

  /** As written, the captured choice is always the mount-time empty one, so any
      current choice is replaced whenever categories exist. */
  lemma LoadedChoiceAsWrittenIgnoresCurrent(current: Option<int>, data: seq<Category>)
    requires |data| > 0
    ensures LoadedChoiceAsWritten(None, current, data) == Some(data[0].Id)
    ensures LoadedChoiceAsWritten(None, current, data) == LoadedChoice(current, data) <==> current.None? || current == Some(data[0].Id)
  {
  }

  class TaskFormState {
    var form: TaskFormData
    var categories: seq<Category>
    var errors: TaskErrors
    var isSubmitting: bool
    /** The `formData` of the first render, which the mount effect's closure keeps. */
    const mounted: TaskFormData

    constructor (today: string)
      ensures form == BlankForm(today, []) && mounted == form
      ensures categories == [] && errors == NoTaskErrors && !isSubmitting
    {
      form := BlankForm(today, []);
      mounted := BlankForm(today, []);
      categories := [];
      errors := NoTaskErrors;
      isSubmitting := false;
    }

    /** `loadCategories()` as written; a failed load changes nothing. */
    method LoadCategoriesAsWritten(answer: Outcome<seq<Category>>)
      modifies this`categories, this`form
      ensures answer.Ok? ==> categories == answer.value
                             && form == old(form).(categoryId := LoadedChoiceAsWritten(mounted.categoryId, old(form).categoryId, answer.value))
      ensures answer.Err? ==> categories == old(categories) && form == old(form)
    {
      if answer.Err? {
        return;
      }
      var data := answer.value;
      categories := data;
      if |data| > 0 && mounted.categoryId.None? {
        form := form.(categoryId := Some(data[0].Id));
      }
    }

    /** `loadCategories()` with the default applied to the current choice. */
    method LoadCategories(answer: Outcome<seq<Category>>)
      modifies this`categories, this`form
      ensures answer.Ok? ==> categories == answer.value
                             && form == old(form).(categoryId := LoadedChoice(old(form).categoryId, answer.value))
      ensures answer.Err? ==> categories == old(categories) && form == old(form)
    {
      if answer.Err? {
        return;
      }
      var data := answer.value;
      categories := data;
      if |data| > 0 && form.categoryId.None? {
        form := form.(categoryId := Some(data[0].Id));
      }
    }

    /** `handleChange(field, value)` for a text field: sets it and clears only its error. */
    method HandleChange(field: TextField, value: string)
      modifies this`form, this`errors
      ensures field.TitleField? ==> form == old(form).(title := value) && errors == old(errors).(title := None)
      ensures field.DueDateField? ==> form == old(form).(dueDate := value) && errors == old(errors).(dueDate := None)
      ensures field.PriorityField? ==> form == old(form).(priority := value) && errors == old(errors)
    {
      match field
      case TitleField =>
        form := form.(title := value);
        if errors.title.Some? {
          errors := errors.(title := None);
        }
      case DueDateField =>
        form := form.(dueDate := value);
        if errors.dueDate.Some? {
          errors := errors.(dueDate := None);
        }
      case PriorityField =>
        form := form.(priority := value);
    }

    /** `handleChange("categoryId", value)`: the category field has no error entry. */
    method HandleCategoryChange(value: Option<int>)
      modifies this`form
      ensures form == old(form).(categoryId := value)
    {
      form := form.(categoryId := value);
    }

    /** `handleSubmit`: validate, hand the fields to `onSubmit`, and reset the form
        only when that settles without throwing. */
    method HandleSubmit(answer: Outcome<()>, today: string) returns (submitted: Option<TaskFormData>)
      modifies this`form, this`errors, this`isSubmitting
      ensures errors == Validate(old(form))
      ensures submitted.Some? <==> Validate(old(form)) == NoTaskErrors
      ensures submitted.Some? ==> submitted.value == old(form) && !isSubmitting
      ensures submitted.None? ==> isSubmitting == old(isSubmitting)
      ensures form == if submitted.Some? && answer.Ok? then BlankForm(today, categories) else old(form)
    {
      errors := Validate(form);
      if errors.title.Some? || errors.dueDate.Some? {
        return None;
      }
      assert errors == NoTaskErrors;
      isSubmitting := true;
      submitted := Some(form);
      if answer.Ok? {
        form := BlankForm(today, categories);
      }
      isSubmitting := false;
    }
  }
}
