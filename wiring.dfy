/** How `App` wires the two components to the collection: the add form's
    output feeds `handleAddTask` and an item's issued edit feeds
    `handleEditTask`. Together they keep every stored text clean. */
module Wiring {
  import opened Text
  import opened App
  import opened TaskInput
  import opened TaskItem

  /** A successful submit appends a task whose text is the trimmed input,
      and a list of clean texts stays clean. */
  lemma AddFromInputKeepsTextsClean(tasks: seq<Task>, raw: string, id: string, now: int)
    requires CleanTexts(tasks)
    requires SubmitOutcome(raw).Some?
    ensures var r := Add(tasks, id, SubmitOutcome(raw).value, now);
      && r[|tasks|].text == Trim(raw)
      && CleanTexts(r)
  {
  }

  /** An edit issued by an item keeps a list of clean texts clean. */
  lemma EditFromItemKeepsTextsClean(tasks: seq<Task>, task: Task, draft: string)
    requires CleanTexts(tasks)
    requires SaveOutcome(task, draft).Some?
    ensures var e := SaveOutcome(task, draft).value;
      CleanTexts(Edit(tasks, e.id, e.text))
  {
  }

  /** An edit issued by the item showing `tasks[k]` really changes that
      task's text to the trimmed draft, so it is never a no-op. */
  lemma IssuedEditChangesTask(tasks: seq<Task>, k: nat, draft: string)
    requires k < |tasks|
    ensures SaveOutcome(tasks[k], draft).Some? ==>
      var e := SaveOutcome(tasks[k], draft).value;
      && Edit(tasks, e.id, e.text)[k].text == Trim(draft)
      && Edit(tasks, e.id, e.text) != tasks
  {
    if SaveOutcome(tasks[k], draft).Some? {
      var e := SaveOutcome(tasks[k], draft).value;
      assert Edit(tasks, e.id, e.text)[k].text != tasks[k].text;
    }
  }
}
