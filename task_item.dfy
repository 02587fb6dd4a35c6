/** The edit mode of one rendered task: the `isEditing` and `editText`
    state cells of `TaskItem` and the handlers that step them. The `task`
    prop is passed to each handler as it stands when the event fires. */
module TaskItem {
  import opened Wrappers
  import opened Text
  import opened App

  /** A call `onEdit(id, text)` issued to the collection. */
  datatype EditRequest = EditRequest(id: string, text: string)

  /** What saving a draft issues: an edit carrying the trimmed draft when
      that is non-empty and differs from the current text, else nothing. */
  function SaveOutcome(task: Task, draft: string): (r: Option<EditRequest>)
    ensures r.Some? <==> !Blank(draft) && Trim(draft) != task.text
    ensures r.Some? ==> r.value == EditRequest(task.id, Trim(draft))
  {
    var trimmed := Trim(draft);
    if trimmed != "" && trimmed != task.text then Some(EditRequest(task.id, trimmed)) else None
  }

  /** An issued edit targets the task, changes its text, and carries text
      that is non-empty with no leading or trailing whitespace. */
  lemma SaveIssuesCleanEdit(task: Task, draft: string)
    ensures SaveOutcome(task, draft).Some? ==>
      var e := SaveOutcome(task, draft).value;
      && e.id == task.id
      && e.text != task.text
      && e.text != []
      && Trimmed(e.text)
      && Trim(e.text) == e.text
  {
    TrimIdempotent(draft);
  }

  /** Saving the text the task already has (a clean one) issues nothing,
      and so does saving a blank draft. */
  lemma SaveWithoutChangeIssuesNothing(task: Task, draft: string)
    requires Blank(draft) || (Trimmed(task.text) && draft == task.text)
    ensures SaveOutcome(task, draft) == None
  {
  }

  class ItemEditor {
    var isEditing: bool
    var editText: string

    /** Mounting: not editing, the draft initialised from the task. */
    constructor (task: Task)
      ensures !isEditing && editText == task.text
    {
      isEditing := false;
      editText := task.text;
    }

    /** `handleEditStart`: the draft is reset to the current text. */
    method HandleEditStart(task: Task)
      modifies this
      ensures isEditing && editText == task.text
    {
      editText := task.text;
      isEditing := true;
    }

    /** The edit field's `onChange`: the draft follows what was typed. */
    method HandleChange(value: string)
      modifies this
      ensures editText == value && isEditing == old(isEditing)
    {
      editText := value;
    }

    /** `handleEditSave` (also the edit field's `onBlur`): issues at most
      one edit and always leaves edit mode; the draft itself is kept. */
    method HandleEditSave(task: Task) returns (edit: Option<EditRequest>)
      modifies this
      ensures edit == SaveOutcome(task, old(editText))
      ensures !isEditing && editText == old(editText)
    {
      edit := SaveOutcome(task, editText);
      isEditing := false;
    }

    /** `handleEditCancel`: the draft is reset and edit mode is left;
      nothing is issued. */
    method HandleEditCancel(task: Task)
      modifies this
      ensures !isEditing && editText == task.text
    {
      editText := task.text;
      isEditing := false;
    }

    /** `handleKeyDown`: Enter saves, Escape cancels, any other key does
      nothing. */
    method HandleKeyDown(task: Task, key: string) returns (edit: Option<EditRequest>)
      modifies this
      ensures key == "Enter" ==>
        edit == SaveOutcome(task, old(editText)) && !isEditing && editText == old(editText)
      ensures key != "Enter" && key == "Escape" ==>
        edit == None && !isEditing && editText == task.text
      ensures key != "Enter" && key != "Escape" ==>
        edit == None && isEditing == old(isEditing) && editText == old(editText)
    {
      if key == "Enter" {
        edit := HandleEditSave(task);
      } else if key == "Escape" {
        HandleEditCancel(task);
        edit := None;
      } else {
        edit := None;
      }
    }
  }
}
