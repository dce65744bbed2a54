/**
 * The task dialog (client/src/components/TaskDialog.tsx): the form's
 * validation rules, the defaults it derives from an impact area, the payload
 * it posts, and its `isSubmitting` flag.
 */
module TaskDialog {
  import opened Wrappers
  import opened Text
  import opened Schema

  datatype TaskForm = TaskForm(title: string, description: string, assignee: string, dueDate: string)

  const TitleTooShort: string := "Title must be at least 5 characters"
  const DescriptionTooShort: string := "Description must be at least 10 characters"
  const AssigneeMissing: string := "Please select an assignee"
  const DueDateMissing: string := "Please select a due date"

  /** `formSchema`: minimum lengths 5, 10, 1 and 1. */
  predicate FormValid(v: TaskForm) {
    |v.title| >= 5 && |v.description| >= 10 && |v.assignee| >= 1 && |v.dueDate| >= 1
  }

  /** The messages the resolver reports, one per failing field, in field order. */
  function FormErrors(v: TaskForm): (errors: seq<string>)
    ensures errors == [] <==> FormValid(v)
    ensures TitleTooShort in errors <==> |v.title| < 5
    ensures DescriptionTooShort in errors <==> |v.description| < 10
    ensures AssigneeMissing in errors <==> |v.assignee| < 1
    ensures DueDateMissing in errors <==> |v.dueDate| < 1
    ensures |errors| <= 4
  {
    MessagesDistinct();
    (if |v.title| < 5 then [TitleTooShort] else [])
    + (if |v.description| < 10 then [DescriptionTooShort] else [])
    + (if |v.assignee| < 1 then [AssigneeMissing] else [])
    + (if |v.dueDate| < 1 then [DueDateMissing] else [])
  }

  lemma MessagesDistinct()
    ensures TitleTooShort != DescriptionTooShort && TitleTooShort != AssigneeMissing && TitleTooShort != DueDateMissing
    ensures DescriptionTooShort != AssigneeMissing && DescriptionTooShort != DueDateMissing
    ensures AssigneeMissing != DueDateMissing
  {
    assert TitleTooShort[0] == 'T' && DescriptionTooShort[0] == 'D' && AssigneeMissing[0] == 'P' && DueDateMissing[0] == 'P';
    assert AssigneeMissing[|AssigneeMissing| - 1] == 'e' && DueDateMissing[|DueDateMissing| - 1] == 'e';
    assert AssigneeMissing[|AssigneeMissing| - 2] == 'e' && DueDateMissing[|DueDateMissing| - 2] == 't';
  }

  /**
   * `defaultValues`: from an area, "Review impact on <name>", its conflict
   * or else its recommendation, and its contact's email; the due date is
   * always empty.
   */
  function DefaultValues(area: Option<ImpactArea>): (v: TaskForm)
    ensures area.None? ==> v == TaskForm("", "", "", "")
    ensures area.Some? ==> v.title == "Review impact on " + area.value.name
    ensures area.Some? && Truthy(area.value.conflict) ==> v.description == area.value.conflict.value
    ensures area.Some? && !Truthy(area.value.conflict) ==> v.description == OptOrElse(area.value.recommendation, "")
    ensures area.Some? ==> v.assignee == area.value.contact.email
    ensures v.dueDate == ""
  {
    match area
    case None => TaskForm("", "", "", "")
    case Some(a) =>
      TaskForm("Review impact on " + a.name, OptOrElse(a.conflict, OptOrElse(a.recommendation, "")), OrElse(a.contact.email, ""), "")
  }

  /** The defaults never pass validation: the due date is always left empty. */
  lemma DefaultsNeverValid(area: Option<ImpactArea>)
    ensures !FormValid(DefaultValues(area))
    ensures FormErrors(DefaultValues(area)) != [] && DueDateMissing in FormErrors(DefaultValues(area))
  {
  }

  /** The JSON body `onSubmit` posts to `/api/tasks`: `{ ...values, documentId }`. */
  datatype TaskPayload = TaskPayload(documentId: int, title: string, description: string, assignee: string, dueDate: string)

  function SubmitPayload(values: TaskForm, documentId: int): (p: TaskPayload)
    ensures p.documentId == documentId
    ensures TaskForm(p.title, p.description, p.assignee, p.dueDate) == values
  {
    TaskPayload(documentId, values.title, values.description, values.assignee, values.dueDate)
  }

  class TaskDialogState {
    const documentId: int
    var isSubmitting: bool

    constructor (documentId: int)
      ensures this.documentId == documentId && !isSubmitting
    {
      this.documentId := documentId;
      isSubmitting := false;
    }

    /** The start of `onSubmit`: mark submitting and build the request body. */
    method BeginSubmit(values: TaskForm) returns (payload: TaskPayload)
      modifies this
      ensures isSubmitting
      ensures payload == SubmitPayload(values, documentId)
    {
      isSubmitting := true;
      payload := SubmitPayload(values, documentId);
    }

    /** The `finally` of `onSubmit`: the flag is cleared whatever the POST did; the dialog closes only on success. */
    method EndSubmit(postSucceeded: bool) returns (closeDialog: bool)
      modifies this
      ensures !isSubmitting
      ensures closeDialog == postSucceeded
    {
      closeDialog := postSucceeded;
      isSubmitting := false;
    }

    /** `onSubmit(values)` with the POST's outcome given. */
    method OnSubmit(values: TaskForm, postSucceeded: bool) returns (payload: TaskPayload, closeDialog: bool)
      modifies this
      ensures payload == SubmitPayload(values, documentId)
      ensures !isSubmitting && closeDialog == postSucceeded
    {
      payload := BeginSubmit(values);
      closeDialog := EndSubmit(postSucceeded);
    }
  }
}
