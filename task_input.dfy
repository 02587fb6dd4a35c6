/** The add form: the `text` state cell of `TaskInput`, its submit handler
    and the enable rule of its submit button. */
module TaskInput {
  import opened Wrappers
  import opened Text

  /** What submitting `text` forwards to `onAddTask`: the trimmed text, or
      nothing when that is empty. */
  function SubmitOutcome(text: string): (r: Option<string>)
    ensures r.Some? <==> !Blank(text)
    ensures r.Some? ==> r.value == Trim(text) && r.value != [] && Trimmed(r.value)
  {
    var trimmed := Trim(text);
    if trimmed == "" then None else Some(trimmed)
  }

  /** `disabled={!text.trim()}`, negated. */
  function SubmitEnabled(text: string): (enabled: bool)
    ensures enabled <==> !Blank(text)
  {
    Trim(text) != ""
  }

  /** The button is enabled exactly when a submit would add a task, and the
      empty initial text leaves it disabled. */
  lemma EnabledExactlyWhenSubmitAdds(text: string)
    ensures SubmitEnabled(text) <==> SubmitOutcome(text).Some?
    ensures !SubmitEnabled("")
  {
  }

  class InputForm {
    var text: string

    /** Mounting: an empty field, so the button starts disabled. */
    constructor ()
      ensures text == "" && !SubmitEnabled(text)
    {
      text := "";
    }

    /** The field's `onChange`. */
    method HandleChange(value: string)
      modifies this
      ensures text == value
    {
      text := value;
    }

    /** `handleSubmit`: a blank field issues nothing and stays as it is;
      otherwise the trimmed text is forwarded and the field is cleared. */
    method HandleSubmit() returns (added: Option<string>)
      modifies this
      ensures added == SubmitOutcome(old(text))
      ensures added.None? ==> text == old(text)
      ensures added.Some? ==> text == ""
    {
      added := SubmitOutcome(text);
      if added.Some? {
        text := "";
      }
    }
  }
}
