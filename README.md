# Task list core — a Dafny model

This project models the logic of a small React to-do application: the
task collection held by `App` (add, toggle, edit, delete, clear completed,
delete all behind a confirmation, mark all completed, the filter, the
filtered view and the two counters, and the initial load), the edit mode of
one rendered task (`TaskItem`), and the add form (`TaskInput`). Together
they form the whole create and edit path from raw keyboard input to a
change of the stored list.

Layout, one module per file:

- `wrappers.dfy` — `Option` and `Result`.
- `seqs.dfy` — `Map` and `Filter`, the order-preserving counterparts of
  `Array.prototype.map` and `Array.prototype.filter`, with their laws
  (subsequence, concatenation, identity, idempotence, partition).
- `text.dfy` — `String.prototype.trim` over the ECMAScript WhiteSpace and
  LineTerminator characters.
- `app.dfy` — the `Task` record, one pure function per handler, the derived
  view and counters, `Load`, their properties, and the `TaskStore` class
  holding the `tasks` and `filter` state cells plus a ghost copy of what
  the persistence effect last wrote.
- `task_item.dfy` — `SaveOutcome` and the `ItemEditor` class over
  `isEditing` and `editText`.
- `task_input.dfy` — `SubmitOutcome`, `SubmitEnabled` and the `InputForm`
  class over `text`.
- `wiring.dfy` — how `App` connects the components to the collection:
  both entry paths keep every stored text non-empty and trimmed.

Impure inputs are parameters: the new id (`crypto.randomUUID()`), the
creation time (`Date.now()`), the answer of `window.confirm`, the stored
string, and the JSON parser. Freshness of the generated id is a
precondition of `TaskStore.HandleAddTask`; the source trusts the generator
for it and never checks.

The model follows the code as written; in particular:

- Loading does not recover from a malformed stored value: `JSON.parse`
  throws and nothing catches it, so `Load` returns `Failure(ParseError)`.
  Only an absent or empty stored value gives the empty list.
- `handleAddTask` does not check the text; the trim and non-empty check
  live only in `TaskInput`. `Add` accepts any text, and `wiring.dfy` proves
  that the wired path keeps texts clean.
- `handleEditTask` has no "same text" guard; that guard is in `TaskItem`'s
  save. Editing to the current text still yields an equal list
  (`App.EditSameText`).
- The filter is any string. `"active"` and `"completed"` select; every
  other value, `"all"` included, shows the whole list.

## Model

| member | source | states |
|---|---|---|
| Seqs.Map | src/App.jsx:46-48 | `map` gives one result per element, at the same position |
| Seqs.Filter | src/App.jsx:63 | `filter` keeps exactly the elements that satisfy the predicate; it never grows the list |
| Text.Trim | src/components/TaskInput.jsx:17 | `trim` gives a string with no leading or trailing whitespace; it is empty exactly when the input is all whitespace |
| Text.TrimIsInfix | src/components/TaskItem.jsx:25 | `trim` removes only whitespace, and only from the two ends: the result is a contiguous piece of the input |
| Text.TrimOfTrimmed | src/components/TaskItem.jsx:25 | trimming a string that is already trimmed gives it back unchanged |
| Text.TrimIdempotent | src/components/TaskInput.jsx:17 | trimming twice is trimming once |
| App.Add | src/App.jsx:33-40 | length grows by one; the earlier tasks are kept in order; the new last task has the given id, text and time and is not completed |
| App.AddCounts | src/App.jsx:40 | adding raises the active count by one and leaves the completed count alone |
| App.AddKeepsUniqueIds | src/App.jsx:35-40 | a fresh id keeps ids unique |
| App.Toggle | src/App.jsx:44-49 | length, order, ids, texts and times are kept; `completed` changes exactly on the tasks with the id |
| App.ToggleTwice | src/App.jsx:44-49 | toggling the same id twice restores the list |
| App.ToggleUnknownId | src/App.jsx:44-49 | toggling an unknown id changes nothing |
| App.Edit | src/App.jsx:53-58 | length, order, ids, flags and times are kept; the text becomes the new text exactly on the tasks with the id |
| App.EditUnknownId | src/App.jsx:53-58 | editing an unknown id changes nothing |
| App.EditSameText | src/App.jsx:53-58 | editing to the text the task already has gives an equal list |
| App.EditIdempotent | src/App.jsx:53-58 | repeating an edit changes nothing more |
| App.MapsKeepUniqueIds | src/App.jsx:44-58 | toggle, edit and mark-all keep ids unique |
| App.Delete | src/App.jsx:62-63 | no task with the id is left, every other task is kept, nothing is added |
| App.DeleteProperties | src/App.jsx:62-63 | the survivors keep their relative order; together with the removed tasks they hold every task exactly as often as the old list; a second delete is a no-op; an unknown id is a no-op; ids stay unique |
| App.DeletePresentUnique | src/App.jsx:62-63 | with unique ids, deleting a present id removes exactly one task |
| App.ClearCompleted | src/App.jsx:67-68 | exactly the incomplete tasks are kept |
| App.ClearCompletedProperties | src/App.jsx:67-68 | the result is the order-preserving subsequence of incomplete tasks; together with the completed tasks it holds every task exactly as often as the old list; afterwards the completed count is 0 and the active count is unchanged; with no completed task the list is unchanged |
| App.DeleteAll | src/App.jsx:72-75 | confirmed gives the empty list, declined leaves the list as it is |
| App.MarkAllCompleted | src/App.jsx:79-82 | length, order and every other field are kept; every task is completed |
| App.MarkAllCompletedProperties | src/App.jsx:79-82 | afterwards the active count is 0 and the completed count is the length; applying it twice equals applying it once |
| App.FilteredTasks | src/App.jsx:93-102 | the view only holds tasks of the list, all incomplete under `"active"` and all completed under `"completed"` |
| App.FilteredViews | src/App.jsx:93-102 | the `"active"` view is the order-preserving filter of incomplete tasks, `"completed"` that of completed tasks, any other filter the whole list |
| App.ActiveCount | src/App.jsx:105 | the active count never exceeds the list length |
| App.CompletedCount | src/App.jsx:106 | the completed count never exceeds the list length |
| App.CountsPartition | src/App.jsx:105-106 | active count plus completed count is the list length; each count is the length of its view |
| App.TwoTaskScenario | src/App.jsx:40-106 | after adding "buy milk" and "walk dog" and toggling the first, each view holds one task and each counter is 1 |
| App.Load | src/App.jsx:17-20 | an absent or empty stored value gives `[]`; a value the parser rejects is an error, not an empty list; otherwise the parsed list |
| App.TaskStore.constructor | src/App.jsx:17-21 | when the initial load succeeds, the store starts with the list `Load` gives for the stored value, filter `"all"`, and that list persisted |
| App.TaskStore.HandleAddTask | src/App.jsx:33-41 | the new list is `Add` of the old one, the filter is unchanged, the persisted copy follows, ids stay unique |
| App.TaskStore.HandleToggleTask | src/App.jsx:44-50 | the new list is `Toggle` of the old one; filter unchanged; persisted copy follows; ids stay unique |
| App.TaskStore.HandleEditTask | src/App.jsx:53-59 | the new list is `Edit` of the old one; filter unchanged; persisted copy follows; ids stay unique |
| App.TaskStore.HandleDeleteTask | src/App.jsx:62-64 | the new list is `Delete` of the old one; filter unchanged; persisted copy follows; ids stay unique |
| App.TaskStore.HandleClearCompleted | src/App.jsx:67-69 | the new list is `ClearCompleted` of the old one; no completed task remains; the active count is unchanged |
| App.TaskStore.HandleDeleteAll | src/App.jsx:72-76 | confirmed empties the list; declined leaves the list and its persisted copy alone |
| App.TaskStore.HandleMarkAllCompleted | src/App.jsx:79-83 | the new list is `MarkAllCompleted` of the old one; no active task remains |
| App.TaskStore.HandleFilterChange | src/App.jsx:86-88 | the filter becomes the new value; the list and its persisted copy are untouched |
| App.TaskStore.Derived | src/App.jsx:93-106 | the view is an order-preserving subsequence of the list and the counters add up to its length |
| TaskItem.SaveOutcome | src/components/TaskItem.jsx:24-28 | an edit is issued exactly when the draft is not all whitespace and its trimmed form differs from the current text; it carries the task's id and the trimmed draft |
| TaskItem.SaveIssuesCleanEdit | src/components/TaskItem.jsx:25-27 | an issued edit targets the task, changes its text, and carries non-empty text with no surrounding whitespace |
| TaskItem.SaveWithoutChangeIssuesNothing | src/components/TaskItem.jsx:26 | saving a blank draft, or the task's own clean text, issues nothing |
| TaskItem.ItemEditor.constructor | src/components/TaskItem.jsx:14-15 | an item starts outside edit mode with the draft equal to the task's text |
| TaskItem.ItemEditor.HandleEditStart | src/components/TaskItem.jsx:18-21 | starting an edit resets the draft to the task's text and enters edit mode |
| TaskItem.ItemEditor.HandleChange | src/components/TaskItem.jsx:63 | typing replaces the draft and does not change the mode |
| TaskItem.ItemEditor.HandleEditSave | src/components/TaskItem.jsx:24-30 | the issued edit is `SaveOutcome` of the draft; edit mode is always left; the draft is kept |
| TaskItem.ItemEditor.HandleEditCancel | src/components/TaskItem.jsx:33-36 | cancel resets the draft to the task's text and leaves edit mode |
| TaskItem.ItemEditor.HandleKeyDown | src/components/TaskItem.jsx:39-45 | Enter behaves exactly as save, Escape exactly as cancel, any other key changes nothing and issues nothing |
| TaskInput.SubmitOutcome | src/components/TaskInput.jsx:17-25 | a submit forwards text exactly when the field is not all whitespace, and what it forwards is the trimmed field: non-empty, no surrounding whitespace |
| TaskInput.SubmitEnabled | src/components/TaskInput.jsx:45 | the button is enabled exactly when the field is not all whitespace |
| TaskInput.EnabledExactlyWhenSubmitAdds | src/components/TaskInput.jsx:11-45 | the button is enabled exactly when a submit would add a task; the empty initial field leaves it disabled |
| TaskInput.InputForm.constructor | src/components/TaskInput.jsx:11 | the field starts empty, so the button starts disabled |
| TaskInput.InputForm.HandleChange | src/components/TaskInput.jsx:39 | typing replaces the field |
| TaskInput.InputForm.HandleSubmit | src/components/TaskInput.jsx:14-29 | the forwarded text is `SubmitOutcome` of the field; a rejected submit leaves the field alone; a successful one clears it |
| Wiring.AddFromInputKeepsTextsClean | src/App.jsx:120 | adding what the form forwards appends the trimmed input and keeps every stored text non-empty and trimmed |
| Wiring.EditFromItemKeepsTextsClean | src/components/TaskItem.jsx:27 | applying an edit an item issues keeps every stored text non-empty and trimmed |
| Wiring.IssuedEditChangesTask | src/components/TaskItem.jsx:26-27 | an edit issued for a listed task sets its text to the trimmed draft, so it always changes the list |

## Left out

- Persistence: `localStorage.getItem`/`setItem` and `JSON.stringify` are browser I/O and a foreign serialiser. The persisted copy is a ghost field kept equal to `tasks`; the serialise/parse round trip is not modelled.
- App.Load: the parser is a parameter whose `None` stands for `JSON.parse` throwing. A stored value that parses to something other than a list of tasks (a number, an object) is not modelled; the source would carry it into `tasks` and fail later.
- Id generation and the clock: `crypto.randomUUID()` and `Date.now()` are parameters; uniqueness of ids is an assumption on the generator, stated as the precondition of `TaskStore.HandleAddTask`.
- The confirmation prompt: `window.confirm` and its message are the boolean argument of `DeleteAll`.
- React machinery: `useState`, `useEffect`, render timing, `e.preventDefault()` and event objects. The `task` prop of an item is passed to each handler as it stands when the event fires; the editor's handlers are reachable only in the mode the markup shows them in, which the model does not enforce.
- The toggle and delete buttons of an item call `onToggle`/`onDelete` directly; they are the store's handlers and have no item-side logic.
- Presentational files and markup: `src/components/FilterBar.jsx`, `src/components/TaskList.jsx`, all JSX, class names and labels, and the rule that the filter bar is shown only for a non-empty list.
- Characters: strings are sequences of Unicode scalar values; JavaScript's UTF-16 code units and lone surrogates are not modelled (none of them is whitespace, so trimming is unaffected).
