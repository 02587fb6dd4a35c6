/** The task collection of `App`: the task record, the whole-list
    transformations behind each handler, the derived filtered view and
    counters, the initial load, and the store that holds the `tasks` and
    `filter` state cells. */
module App {
  import opened Wrappers
  import opened Seqs
  import opened Text

  /** One to-do item. `id` comes from `crypto.randomUUID()` and
      `createdAt` from `Date.now()` (milliseconds); both are supplied by
      the caller. */
  datatype Task = Task(id: string, text: string, completed: bool, createdAt: int)

  /** The filter values the view distinguishes; `"all"` is the initial one
      and, like any other string, selects the whole list. */
  const FilterAll: string := "all"
  const FilterActive: string := "active"
  const FilterCompleted: string := "completed"

  predicate IsActive(t: Task) { !t.completed }

  predicate IsCompleted(t: Task) { t.completed }

  /** Some task carries `id`. */
  predicate HasId(tasks: seq<Task>, id: string) {
    exists i :: 0 <= i < |tasks| && tasks[i].id == id
  }

  /** No two tasks share an id (what the random generator is trusted for). */
  predicate UniqueIds(tasks: seq<Task>) {
    forall i, j :: 0 <= i < j < |tasks| ==> tasks[i].id != tasks[j].id
  }

  /** Every text is non-empty and carries no surrounding whitespace: what
      the input form and the item editor let through. */
  predicate CleanTexts(tasks: seq<Task>) {
    forall i :: 0 <= i < |tasks| ==> tasks[i].text != [] && Trimmed(tasks[i].text)
  }

  // ---------------------------------------------------------------------
  // Whole-list transformations, one per handler

  /** `[...prevTasks, newTask]` with a fresh, incomplete task. */
  function Add(tasks: seq<Task>, id: string, text: string, createdAt: int): (r: seq<Task>)
    ensures |r| == |tasks| + 1
    ensures r[..|tasks|] == tasks
    ensures r[|tasks|].id == id && r[|tasks|].text == text
    ensures !r[|tasks|].completed && r[|tasks|].createdAt == createdAt
  {
    tasks + [Task(id, text, false, createdAt)]
  }

  /** The per-task callback of the toggle handler. */
  function Toggler(id: string): Task -> Task {
    (t: Task) => if t.id == id then t.(completed := !t.completed) else t
  }

  /** `prevTasks.map(...)` flipping `completed` on the tasks with `id`. */
  function Toggle(tasks: seq<Task>, id: string): (r: seq<Task>)
    ensures |r| == |tasks|
    ensures forall i :: 0 <= i < |tasks| ==>
      && r[i].id == tasks[i].id
      && r[i].text == tasks[i].text
      && r[i].createdAt == tasks[i].createdAt
      && (r[i].completed != tasks[i].completed <==> tasks[i].id == id)
  {
    Map(Toggler(id), tasks)
  }

  /** The per-task callback of the edit handler. */
  function Editor(id: string, newText: string): Task -> Task {
    (t: Task) => if t.id == id then t.(text := newText) else t
  }

  /** `prevTasks.map(...)` replacing the text of the tasks with `id`. */
  function Edit(tasks: seq<Task>, id: string, newText: string): (r: seq<Task>)
    ensures |r| == |tasks|
    ensures forall i :: 0 <= i < |tasks| ==>
      && r[i].id == tasks[i].id
      && r[i].completed == tasks[i].completed
      && r[i].createdAt == tasks[i].createdAt
      && r[i].text == (if tasks[i].id == id then newText else tasks[i].text)
  {
    Map(Editor(id, newText), tasks)
  }

  /** The filter callback of the delete handler. */
  function OtherThan(id: string): Task -> bool {
    (t: Task) => t.id != id
  }

  /** The tasks a delete of `id` removes. */
  function WithId(id: string): Task -> bool {
    (t: Task) => t.id == id
  }

  /** `prevTasks.filter(task => task.id !== id)`. */
  function Delete(tasks: seq<Task>, id: string): (r: seq<Task>)
    ensures |r| <= |tasks|
    ensures forall i :: 0 <= i < |r| ==> r[i].id != id && r[i] in tasks
    ensures forall i :: 0 <= i < |tasks| && tasks[i].id != id ==> tasks[i] in r
  {
    Filter(OtherThan(id), tasks)
  }

  /** `prevTasks.filter(task => !task.completed)`. */
  function ClearCompleted(tasks: seq<Task>): (r: seq<Task>)
    ensures |r| <= |tasks|
    ensures forall i :: 0 <= i < |r| ==> !r[i].completed && r[i] in tasks
    ensures forall i :: 0 <= i < |tasks| && !tasks[i].completed ==> tasks[i] in r
  {
    Filter(IsActive, tasks)
  }

  /** The delete-all handler; `confirmed` is the answer of `window.confirm`. */
  function DeleteAll(tasks: seq<Task>, confirmed: bool): (r: seq<Task>)
    ensures confirmed ==> r == []
    ensures !confirmed ==> r == tasks
  {
    if confirmed then [] else tasks
  }

  /** The per-task callback of the mark-all handler. */
  function MarkDone(t: Task): Task {
    t.(completed := true)
  }

  /** `prevTasks.map(task => ({...task, completed: true}))`. */
  function MarkAllCompleted(tasks: seq<Task>): (r: seq<Task>)
    ensures |r| == |tasks|
    ensures forall i :: 0 <= i < |tasks| ==>
      && r[i].completed
      && r[i] == tasks[i].(completed := true)
  {
    Map(MarkDone, tasks)
  }

  // ---------------------------------------------------------------------
  // Derived state

  /** The switch inside `filteredTasks`: whether `filter` shows `t`. */
  function Shows(filter: string): Task -> bool {
    (t: Task) =>
      if filter == FilterActive then !t.completed
      else if filter == FilterCompleted then t.completed
      else true
  }

  /** `filteredTasks`: the tasks shown under `filter`. */
  function FilteredTasks(tasks: seq<Task>, filter: string): (r: seq<Task>)
    ensures |r| <= |tasks|
    ensures filter == FilterActive ==> forall i :: 0 <= i < |r| ==> !r[i].completed
    ensures filter == FilterCompleted ==> forall i :: 0 <= i < |r| ==> r[i].completed
    ensures forall i :: 0 <= i < |r| ==> r[i] in tasks
  {
    Filter(Shows(filter), tasks)
  }

  /** `activeCount`: how many tasks are not completed. */
  function ActiveCount(tasks: seq<Task>): (n: nat)
    ensures n <= |tasks|
  {
    |Filter(IsActive, tasks)|
  }

  /** `completedCount`: how many tasks are completed. */
  function CompletedCount(tasks: seq<Task>): (n: nat)
    ensures n <= |tasks|
  {
    |Filter(IsCompleted, tasks)|
  }

  // ---------------------------------------------------------------------
  // Initial load

  /** `JSON.parse` throwing on the stored value. */
  datatype LoadError = ParseError

  /** The lazy initialiser of `tasks`: an absent or empty stored value
      (both falsy) gives `[]`; anything else goes to `parse`, which stands
      for `JSON.parse` and yields `None` where that throws. The throw is
      not caught, so a malformed value is an error, not an empty list. */
  function Load(stored: Option<string>, parse: string -> Option<seq<Task>>): (r: Result<seq<Task>, LoadError>)
    ensures (stored == None || stored == Some("")) ==> r == Success([])
    ensures stored.Some? && stored.value != "" && parse(stored.value).None? ==> r == Failure(ParseError)
    ensures stored.Some? && stored.value != "" && parse(stored.value).Some? ==>
      r == Success(parse(stored.value).value)
  {
    match stored
    case None => Success([])
    case Some(s) =>
      if s == "" then Success([])
      else match parse(s)
        case None => Failure(ParseError)
        case Some(tasks) => Success(tasks)
  }

  // ---------------------------------------------------------------------
  // Properties of the transformations

  /** Adding appends one incomplete task: one more active task, as many
      completed ones as before. */
  lemma AddCounts(tasks: seq<Task>, id: string, text: string, createdAt: int)
    ensures ActiveCount(Add(tasks, id, text, createdAt)) == ActiveCount(tasks) + 1
    ensures CompletedCount(Add(tasks, id, text, createdAt)) == CompletedCount(tasks)
  {
    var t := Task(id, text, false, createdAt);
    FilterAppend(IsActive, tasks, [t]);
    FilterAppend(IsCompleted, tasks, [t]);
  }

  /** A fresh id keeps the ids unique. */
  lemma AddKeepsUniqueIds(tasks: seq<Task>, id: string, text: string, createdAt: int)
    requires UniqueIds(tasks) && !HasId(tasks, id)
    ensures UniqueIds(Add(tasks, id, text, createdAt))
  {
  }

  /** Toggling the same id twice restores the list. */
  lemma ToggleTwice(tasks: seq<Task>, id: string)
    ensures Toggle(Toggle(tasks, id), id) == tasks
  {
  }

  /** Toggling an id no task carries changes nothing. */
  lemma ToggleUnknownId(tasks: seq<Task>, id: string)
    requires !HasId(tasks, id)
    ensures Toggle(tasks, id) == tasks
  {
  }

  /** Editing an id no task carries changes nothing. */
  lemma EditUnknownId(tasks: seq<Task>, id: string, newText: string)
    requires !HasId(tasks, id)
    ensures Edit(tasks, id, newText) == tasks
  {
  }

  /** Editing to the text the task already has changes nothing. */
  lemma EditSameText(tasks: seq<Task>, id: string, newText: string)
    requires forall i :: 0 <= i < |tasks| && tasks[i].id == id ==> tasks[i].text == newText
    ensures Edit(tasks, id, newText) == tasks
  {
  }

  /** Repeating an edit changes nothing more. */
  lemma EditIdempotent(tasks: seq<Task>, id: string, newText: string)
    ensures Edit(Edit(tasks, id, newText), id, newText) == Edit(tasks, id, newText)
  {
  }

  /** Toggle, edit and mark-all keep every id at its position, so they
      keep the ids unique. */
  lemma MapsKeepUniqueIds(tasks: seq<Task>, id: string, newText: string)
    requires UniqueIds(tasks)
    ensures UniqueIds(Toggle(tasks, id))
    ensures UniqueIds(Edit(tasks, id, newText))
    ensures UniqueIds(MarkAllCompleted(tasks))
  {
  }

  /** Removing tasks keeps the ids unique. */
  lemma {:induction false} FilterKeepsUniqueIds(p: Task -> bool, tasks: seq<Task>)
    requires UniqueIds(tasks)
    ensures UniqueIds(Filter(p, tasks))
    decreases |tasks|
  {
    if tasks != [] {
      var rest := Filter(p, tasks[1..]);
      FilterKeepsUniqueIds(p, tasks[1..]);
      if p(tasks[0]) {
        var r := Filter(p, tasks);
        assert r == [tasks[0]] + rest;
        forall j | 0 < j < |r| ensures r[0].id != r[j].id {
          assert r[j] == rest[j - 1];
          assert rest[j - 1] in tasks[1..];
        }
      }
    }
  }

  /** Delete keeps the other tasks in their order and removes only those
      with `id`, each copy accounted for; deleting again, or deleting an
      unknown id, is a no-op. */
  lemma DeleteProperties(tasks: seq<Task>, id: string)
    ensures IsSubsequence(Delete(tasks, id), tasks)
    ensures Delete(Delete(tasks, id), id) == Delete(tasks, id)
    ensures !HasId(tasks, id) ==> Delete(tasks, id) == tasks
    ensures UniqueIds(tasks) ==> UniqueIds(Delete(tasks, id))
    ensures multiset(Delete(tasks, id)) + multiset(Filter(WithId(id), tasks)) == multiset(tasks)
  {
    FilterPartition(OtherThan(id), WithId(id), tasks);
    FilterIsSubsequence(OtherThan(id), tasks);
    FilterIdempotent(OtherThan(id), tasks);
    if !HasId(tasks, id) {
      FilterKeepsAll(OtherThan(id), tasks);
    }
    if UniqueIds(tasks) {
      FilterKeepsUniqueIds(OtherThan(id), tasks);
    }
  }

  /** With unique ids, deleting a present id removes exactly one task. */
  lemma {:induction false} DeletePresentUnique(tasks: seq<Task>, id: string)
    requires UniqueIds(tasks) && HasId(tasks, id)
    ensures |Delete(tasks, id)| == |tasks| - 1
    decreases |tasks|
  {
    var rest := tasks[1..];
    if tasks[0].id == id {
      assert !HasId(rest, id) by {
        forall i | 0 <= i < |rest| ensures rest[i].id != id {
          assert rest[i] == tasks[i + 1];
        }
      }
      FilterKeepsAll(OtherThan(id), rest);
    } else {
      assert HasId(rest, id) by {
        var k :| 0 <= k < |tasks| && tasks[k].id == id;
        assert rest[k - 1] == tasks[k];
      }
      assert UniqueIds(rest) by {
        forall i, j | 0 <= i < j < |rest| ensures rest[i].id != rest[j].id {
          assert rest[i] == tasks[i + 1] && rest[j] == tasks[j + 1];
        }
      }
      DeletePresentUnique(rest, id);
    }
  }

  /** Clear-completed yields exactly the incomplete tasks in their order,
      and together with the completed ones they make up the old list: no
      completed task is left and the active count is unchanged. When no
      task was completed the list stays as it is. */
  lemma ClearCompletedProperties(tasks: seq<Task>)
    ensures IsSubsequence(ClearCompleted(tasks), tasks)
    ensures CompletedCount(ClearCompleted(tasks)) == 0
    ensures ActiveCount(ClearCompleted(tasks)) == ActiveCount(tasks)
    ensures multiset(ClearCompleted(tasks)) + multiset(Filter(IsCompleted, tasks)) == multiset(tasks)
    ensures UniqueIds(tasks) ==> UniqueIds(ClearCompleted(tasks))
    ensures CompletedCount(tasks) == 0 ==> ClearCompleted(tasks) == tasks
  {
    var r := ClearCompleted(tasks);
    FilterIsSubsequence(IsActive, tasks);
    FilterIdempotent(IsActive, tasks);
    FilterPartition(IsActive, IsCompleted, r);
    if UniqueIds(tasks) {
      FilterKeepsUniqueIds(IsActive, tasks);
    }
    FilterPartition(IsActive, IsCompleted, tasks);
    if CompletedCount(tasks) == 0 {
      FilterKeepsAll(IsActive, tasks);
    }
  }

  /** Mark-all leaves no active task, so every task counts as completed;
      applying it twice is applying it once. */
  lemma MarkAllCompletedProperties(tasks: seq<Task>)
    ensures ActiveCount(MarkAllCompleted(tasks)) == 0
    ensures CompletedCount(MarkAllCompleted(tasks)) == |tasks|
    ensures MarkAllCompleted(MarkAllCompleted(tasks)) == MarkAllCompleted(tasks)
  {
    var r := MarkAllCompleted(tasks);
    FilterKeepsAll(IsCompleted, r);
    FilterPartition(IsActive, IsCompleted, r);
  }

  /** The view under `"active"` is the order-preserving subsequence of
      incomplete tasks, under `"completed"` that of completed tasks, and
      under any other filter the whole list. */
  lemma FilteredViews(tasks: seq<Task>, filter: string)
    ensures FilteredTasks(tasks, FilterActive) == Filter(IsActive, tasks)
    ensures FilteredTasks(tasks, FilterCompleted) == Filter(IsCompleted, tasks)
    ensures filter != FilterActive && filter != FilterCompleted ==> FilteredTasks(tasks, filter) == tasks
    ensures IsSubsequence(FilteredTasks(tasks, filter), tasks)
  {
  }

  /** The two counters split the list, and each is the length of its view. */
  lemma CountsPartition(tasks: seq<Task>)
    ensures ActiveCount(tasks) + CompletedCount(tasks) == |tasks|
    ensures |FilteredTasks(tasks, FilterActive)| == ActiveCount(tasks)
    ensures |FilteredTasks(tasks, FilterCompleted)| == CompletedCount(tasks)
  {
    FilterPartition(IsActive, IsCompleted, tasks);
    FilteredViews(tasks, FilterAll);
  }

  /** Two adds and a toggle: "walk dog" is the only active task and
      "buy milk" the only completed one. */
  lemma TwoTaskScenario(milk: string, dog: string, t1: int, t2: int)
    requires milk != dog
    ensures var tasks := Toggle(Add(Add([], milk, "buy milk", t1), dog, "walk dog", t2), milk);
      && FilteredTasks(tasks, FilterActive) == [Task(dog, "walk dog", false, t2)]
      && FilteredTasks(tasks, FilterCompleted) == [Task(milk, "buy milk", true, t1)]
      && ActiveCount(tasks) == 1 && CompletedCount(tasks) == 1
  {
    var tasks := Toggle(Add(Add([], milk, "buy milk", t1), dog, "walk dog", t2), milk);
    assert tasks == [Task(milk, "buy milk", true, t1), Task(dog, "walk dog", false, t2)];
    FilteredViews(tasks, FilterAll);
    assert tasks[1..] == [Task(dog, "walk dog", false, t2)];
  }

  // ---------------------------------------------------------------------
  // The stateful shell: the `tasks` and `filter` cells of `App`

  /** Holds the two state cells. `persisted` is the copy the
      `localStorage` effect writes after every change of `tasks`. */
  class TaskStore {
    var tasks: seq<Task>
    var filter: string
    ghost var persisted: seq<Task>

    ghost predicate Valid()
      reads this
    {
      persisted == tasks
    }

    /** Mounting: `tasks` is what `Load` gives for the stored value (when
      that throws, there is no store), the filter starts at `"all"`, and
      the persistence effect writes the loaded list back. */
    constructor (stored: Option<string>, parse: string -> Option<seq<Task>>)
      requires Load(stored, parse).Success?
      ensures Valid()
      ensures tasks == Load(stored, parse).value && filter == FilterAll
    {
      var loaded := Load(stored, parse).value;
      tasks := loaded;
      filter := FilterAll;
      persisted := loaded;
    }

    method HandleAddTask(text: string, id: string, now: int)
      requires Valid()
      requires !HasId(tasks, id)
      modifies this
      ensures Valid()
      ensures tasks == Add(old(tasks), id, text, now) && filter == old(filter)
      ensures UniqueIds(old(tasks)) ==> UniqueIds(tasks)
    {
      if UniqueIds(tasks) {
        AddKeepsUniqueIds(tasks, id, text, now);
      }
      tasks := Add(tasks, id, text, now);
      persisted := tasks;
    }

    method HandleToggleTask(id: string)
      requires Valid()
      modifies this
      ensures Valid()
      ensures tasks == Toggle(old(tasks), id) && filter == old(filter)
      ensures UniqueIds(old(tasks)) ==> UniqueIds(tasks)
    {
      tasks := Toggle(tasks, id);
      persisted := tasks;
    }

    method HandleEditTask(id: string, newText: string)
      requires Valid()
      modifies this
      ensures Valid()
      ensures tasks == Edit(old(tasks), id, newText) && filter == old(filter)
      ensures UniqueIds(old(tasks)) ==> UniqueIds(tasks)
    {
      tasks := Edit(tasks, id, newText);
      persisted := tasks;
    }

    method HandleDeleteTask(id: string)
      requires Valid()
      modifies this
      ensures Valid()
      ensures tasks == Delete(old(tasks), id) && filter == old(filter)
      ensures UniqueIds(old(tasks)) ==> UniqueIds(tasks)
    {
      DeleteProperties(tasks, id);
      tasks := Delete(tasks, id);
      persisted := tasks;
    }

    method HandleClearCompleted()
      requires Valid()
      modifies this
      ensures Valid()
      ensures tasks == ClearCompleted(old(tasks)) && filter == old(filter)
      ensures UniqueIds(old(tasks)) ==> UniqueIds(tasks)
      ensures CompletedCount(tasks) == 0 && ActiveCount(tasks) == ActiveCount(old(tasks))
    {
      ClearCompletedProperties(tasks);
      tasks := ClearCompleted(tasks);
      persisted := tasks;
    }

    /** `confirmed` is what `window.confirm` answered; declining leaves
      both the list and its persisted copy alone. */
    method HandleDeleteAll(confirmed: bool)
      requires Valid()
      modifies this
      ensures Valid()
      ensures tasks == DeleteAll(old(tasks), confirmed) && filter == old(filter)
      ensures !confirmed ==> persisted == old(persisted)
    {
      if confirmed {
        tasks := [];
        persisted := tasks;
      }
    }

    method HandleMarkAllCompleted()
      requires Valid()
      modifies this
      ensures Valid()
      ensures tasks == MarkAllCompleted(old(tasks)) && filter == old(filter)
      ensures UniqueIds(old(tasks)) ==> UniqueIds(tasks)
      ensures ActiveCount(tasks) == 0
    {
      MarkAllCompletedProperties(tasks);
      tasks := MarkAllCompleted(tasks);
      persisted := tasks;
    }

    /** Changing the filter never touches the list or its persisted copy. */
    method HandleFilterChange(newFilter: string)
      requires Valid()
      modifies this
      ensures Valid()
      ensures filter == newFilter
      ensures tasks == old(tasks) && persisted == old(persisted)
    {
      filter := newFilter;
    }

    /** What a render derives: the filtered view and the two counters. */
    method Derived() returns (view: seq<Task>, activeCount: nat, completedCount: nat)
      ensures view == FilteredTasks(tasks, filter)
      ensures IsSubsequence(view, tasks)
      ensures activeCount == ActiveCount(tasks) && completedCount == CompletedCount(tasks)
      ensures activeCount + completedCount == |tasks|
    {
      FilteredViews(tasks, filter);
      CountsPartition(tasks);
      view := FilteredTasks(tasks, filter);
      activeCount := ActiveCount(tasks);
      completedCount := CompletedCount(tasks);
    }
  }
}
