/**
 * The web to-do page: the task list held in component state, the new-task
 * form, the search box, the status filter and the priority order. Task ids
 * come from `Date.now()`, given here as a parameter; the success and error
 * notifications, the delayed AI suggestion and the canned starting tasks
 * are left out.
 */
module TodoPage {
  import opened Shared
  import JsText
  import Lists

  /** The three values the priority select offers. */
  datatype Priority = Low | Medium | High

  datatype Subtask = Subtask(id: int, title: string, completed: bool)

  datatype Task = Task(id: int, title: string, description: string, priority: Priority, category: string,
                       dueDate: string, estimatedTime: string, completed: bool, subtasks: seq<Subtask>,
                       tags: seq<string>)

  /**
   * The tags field of the form: the empty array the form starts with and is
   * reset to, or the text typed into the tags input.
   */
  datatype TagsField = Untyped | Typed(text: string)

  datatype Draft = Draft(title: string, description: string, priority: Priority, category: string,
                         dueDate: string, estimatedTime: string, tags: TagsField)

  /** The form as the page starts and as it is reset after an add. */
  const EmptyDraft := Draft("", "", Medium, "General", "", "", Untyped)

  /** The text inputs of the form. */
  datatype Field = Title | Description | Category | DueDate | EstimatedTime | Tags

  /** `setNewTodo({ ...newTodo, [field]: value })` for one text input. */
  function SetField(d: Draft, field: Field, value: string): (r: Draft)
    ensures field == Title ==> r == d.(title := value)
    ensures field == Description ==> r == d.(description := value)
    ensures field == Category ==> r == d.(category := value)
    ensures field == DueDate ==> r == d.(dueDate := value)
    ensures field == EstimatedTime ==> r == d.(estimatedTime := value)
    ensures field == Tags ==> r == d.(tags := Typed(value))
  {
    match field
    case Title => d.(title := value)
    case Description => d.(description := value)
    case Category => d.(category := value)
    case DueDate => d.(dueDate := value)
    case EstimatedTime => d.(estimatedTime := value)
    case Tags => d.(tags := Typed(value))
  }

  /**
   * `handleAddTodo`'s task: `{ id: Date.now(), ...newTodo, completed: false,
   * subtasks: [], tags: newTodo.tags.split(',').map(tag => tag.trim()) }`.
   * Arrays have no `split`, so while the tags field still holds the empty
   * array building the task throws, and the result is `None`.
   */
  function BuildTask(d: Draft, now: int): (r: Option<Task>)
    ensures r.Some? <==> d.tags.Typed?
    ensures r.Some? ==> (r.value.id == now && !r.value.completed && r.value.subtasks == []
      && r.value.title == d.title && r.value.description == d.description && r.value.priority == d.priority
      && r.value.category == d.category && r.value.dueDate == d.dueDate && r.value.estimatedTime == d.estimatedTime
      && r.value.tags == JsText.SplitTrim(d.tags.text, ','))
  {
    match d.tags
    case Untyped => None
    case Typed(text) =>
      Some(Task(now, d.title, d.description, d.priority, d.category, d.dueDate, d.estimatedTime, false, [],
                JsText.SplitTrim(text, ',')))
  }

  /** A form whose tags input was never typed into cannot be added, however the other fields are filled. */
  lemma UntypedTagsRejected(d: Draft, now: int)
    requires d.tags == Untyped
    ensures BuildTask(d, now) == None
    ensures BuildTask(EmptyDraft, now) == None
  {
  }

  /** The task the form evidently means to build: no typed tags give no tags. */
  function IntendedTask(d: Draft, now: int): (t: Task)
    ensures d.tags.Typed? ==> Some(t) == BuildTask(d, now)
    ensures d.tags.Untyped? ==> t == BuildTask(d.(tags := Typed("")), now).value.(tags := [])
  {
    var text := match d.tags case Untyped => "" case Typed(s) => s;
    var tags := if d.tags.Untyped? then [] else JsText.SplitTrim(text, ',');
    Task(now, d.title, d.description, d.priority, d.category, d.dueDate, d.estimatedTime, false, [], tags)
  }

  function HasId(id: int): Task -> bool {
    (t: Task) => t.id == id
  }

  function NotId(id: int): Task -> bool {
    (t: Task) => t.id != id
  }

  /** `{ ...todo, completed: !todo.completed }`. */
  function FlipCompleted(t: Task): Task {
    t.(completed := !t.completed)
  }

  /** The task with the subtask of that id flipped, the other subtasks kept. */
  function FlipSubtask(subtaskId: int): Task -> Task {
    (t: Task) => t.(subtasks := Lists.MapWhere(t.subtasks, (s: Subtask) => s.id == subtaskId,
                                                (s: Subtask) => s.(completed := !s.completed)))
  }

  /** Toggling the same task twice restores the list. */
  lemma ToggleTwice(todos: seq<Task>, id: int)
    ensures Lists.MapWhere(Lists.MapWhere(todos, HasId(id), FlipCompleted), HasId(id), FlipCompleted) == todos
  {
    Lists.MapWhereTwice(todos, HasId(id), FlipCompleted);
  }

  /** Toggling the same subtask twice restores the list. */
  lemma ToggleSubtaskTwice(todos: seq<Task>, id: int, subtaskId: int)
    ensures Lists.MapWhere(Lists.MapWhere(todos, HasId(id), FlipSubtask(subtaskId)), HasId(id), FlipSubtask(subtaskId)) == todos
  {
    var isSub := (s: Subtask) => s.id == subtaskId;
    var flip := (s: Subtask) => s.(completed := !s.completed);
    forall t: Task | HasId(id)(t)
      ensures HasId(id)(FlipSubtask(subtaskId)(t)) && FlipSubtask(subtaskId)(FlipSubtask(subtaskId)(t)) == t
    {
      Lists.MapWhereTwice(t.subtasks, isSub, flip);
    }
    Lists.MapWhereTwice(todos, HasId(id), FlipSubtask(subtaskId));
  }

  /** The status filter: 'active', 'completed' and 'high' narrow the list; 'all' and any other value keep everything. */
  predicate StatusShows(filter: string, t: Task) {
    if filter == "all" then true
    else if filter == "active" then !t.completed
    else if filter == "completed" then t.completed
    else if filter == "high" then t.priority == High
    else true
  }

  /** The search: the lowercased title includes the lowercased query. */
  predicate SearchShows(search: string, t: Task) {
    JsText.Contains(JsText.ToLower(t.title), JsText.ToLower(search))
  }

  function Shows(search: string, filter: string): Task -> bool {
    (t: Task) => SearchShows(search, t) && StatusShows(filter, t)
  }

  /**
   * The `filter` half of `filteredTodos`: the tasks that pass both the
   * search and the status filter, in list order.
   */
  function FilteredTodos(todos: seq<Task>, search: string, filter: string): (r: seq<Task>)
    ensures forall i :: 0 <= i < |r| ==> r[i] in todos && SearchShows(search, r[i]) && StatusShows(filter, r[i])
    ensures forall i :: 0 <= i < |todos| && SearchShows(search, todos[i]) && StatusShows(filter, todos[i]) ==> todos[i] in r
  {
    Lists.FilterMultiset(todos, Shows(search, filter));
    var r := Lists.Filter(todos, Shows(search, filter));
    assert forall i :: 0 <= i < |r| ==> r[i] in multiset(todos);
    r
  }

  /** With an empty search and the 'all' filter, or a filter the page does not know, every task is shown in order. */
  lemma EmptySearchShowsAll(todos: seq<Task>, filter: string)
    requires filter !in {"active", "completed", "high"}
    ensures FilteredTodos(todos, "", filter) == todos
  {
    forall i | 0 <= i < |todos|
      ensures Shows("", filter)(todos[i])
    {
      JsText.ContainsEmpty(JsText.ToLower(todos[i].title));
    }
    Lists.FilterAllPass(todos, Shows("", filter));
  }

  /** `priorityOrder`: High first, then Medium, then Low. */
  function Rank(t: Task): int {
    match t.priority
    case High => 0
    case Medium => 1
    case Low => 2
  }

  /**
   * The 'priority' sort: the same tasks, every High task before every
   * Medium one and every Medium before every Low one, and tasks of equal
   * priority in the order they came in (the array sort is stable).
   */
  function PrioritySorted(ts: seq<Task>): (r: seq<Task>)
    ensures multiset(r) == multiset(ts)
    ensures forall i, j :: 0 <= i < j < |r| && r[j].priority == High ==> r[i].priority == High
    ensures forall i, j :: 0 <= i < j < |r| && r[i].priority == Low ==> r[j].priority == Low
    ensures forall k :: Lists.Filter(r, Lists.KeyIs(Rank, k)) == Lists.Filter(ts, Lists.KeyIs(Rank, k))
  {
    var r := Lists.SortBy(ts, Rank);
    forall k
      ensures Lists.Filter(r, Lists.KeyIs(Rank, k)) == Lists.Filter(ts, Lists.KeyIs(Rank, k))
    {
      Lists.SortByStable(ts, Rank, k);
    }
    assert Lists.SortedBy(r, Rank);
    forall i, j | 0 <= i < j < |r|
      ensures (r[j].priority == High ==> r[i].priority == High) && (r[i].priority == Low ==> r[j].priority == Low)
    {
      assert Rank(r[i]) <= Rank(r[j]);
    }
    r
  }

  class TodoListPage {
    var todos: seq<Task>
    var newTodo: Draft
    var filter: string
    var searchQuery: string
    var showNewTodoModal: bool
    var selectedTodo: Option<Task>

    /** The given starting tasks, an empty form, the 'all' filter, no search and no modal. */
    constructor (initial: seq<Task>)
      ensures todos == initial && newTodo == EmptyDraft && filter == "all" && searchQuery == ""
      ensures !showNewTodoModal && selectedTodo.None?
    {
      todos := initial;
      newTodo := EmptyDraft;
      filter := "all";
      searchQuery := "";
      showNewTodoModal := false;
      selectedTodo := None;
    }

    /** One text input of the form. */
    method InputChange(field: Field, value: string)
      modifies this
      ensures newTodo == SetField(old(newTodo), field, value)
      ensures todos == old(todos) && filter == old(filter) && searchQuery == old(searchQuery)
      ensures showNewTodoModal == old(showNewTodoModal) && selectedTodo == old(selectedTodo)
    {
      newTodo := SetField(newTodo, field, value);
    }

    /** The priority select. */
    method PriorityChange(p: Priority)
      modifies this
      ensures newTodo == old(newTodo).(priority := p)
      ensures todos == old(todos) && filter == old(filter) && searchQuery == old(searchQuery)
      ensures showNewTodoModal == old(showNewTodoModal) && selectedTodo == old(selectedTodo)
    {
      newTodo := newTodo.(priority := p);
    }

    /**
     * `handleAddTodo`: the built task is appended last, the form reset and
     * the modal closed. When building throws, the handler reports failure
     * and nothing changes. Either way the tasks already listed, the one
     * being edited among them, stay as they were.
     */
    method AddTodo(now: int) returns (added: bool)
      modifies this
      ensures added <==> old(newTodo).tags.Typed?
      ensures added ==> (todos == old(todos) + [BuildTask(old(newTodo), now).value]
        && newTodo == EmptyDraft && !showNewTodoModal)
      ensures !added ==> todos == old(todos) && newTodo == old(newTodo) && showNewTodoModal == old(showNewTodoModal)
      ensures |todos| >= |old(todos)| && todos[..|old(todos)|] == old(todos)
      ensures filter == old(filter) && searchQuery == old(searchQuery) && selectedTodo == old(selectedTodo)
    {
      var task := BuildTask(newTodo, now);
      if task.None? {
        added := false;
        return;
      }
      todos := todos + [task.value];
      newTodo := EmptyDraft;
      showNewTodoModal := false;
      added := true;
    }

    /** `handleToggleComplete`: every task with the id flips, the others are kept. */
    method ToggleComplete(id: int)
      modifies this
      ensures todos == Lists.MapWhere(old(todos), HasId(id), FlipCompleted)
      ensures forall i :: 0 <= i < |todos| ==>
        todos[i] == if old(todos)[i].id == id then old(todos)[i].(completed := !old(todos)[i].completed) else old(todos)[i]
      ensures newTodo == old(newTodo) && filter == old(filter) && searchQuery == old(searchQuery)
      ensures showNewTodoModal == old(showNewTodoModal) && selectedTodo == old(selectedTodo)
    {
      todos := Lists.MapWhere(todos, HasId(id), FlipCompleted);
    }

    /** `handleToggleSubtask`: in the tasks with the id, the subtasks with the subtask id flip; nothing else changes. */
    method ToggleSubtask(id: int, subtaskId: int)
      modifies this
      ensures todos == Lists.MapWhere(old(todos), HasId(id), FlipSubtask(subtaskId))
      ensures forall i :: 0 <= i < |todos| ==>
        var t := old(todos)[i];
        if t.id != id then todos[i] == t
        else (todos[i].(subtasks := t.subtasks) == t && |todos[i].subtasks| == |t.subtasks|
          && forall j :: 0 <= j < |t.subtasks| ==>
               todos[i].subtasks[j] == if t.subtasks[j].id == subtaskId then t.subtasks[j].(completed := !t.subtasks[j].completed) else t.subtasks[j])
      ensures newTodo == old(newTodo) && filter == old(filter) && searchQuery == old(searchQuery)
      ensures showNewTodoModal == old(showNewTodoModal) && selectedTodo == old(selectedTodo)
    {
      todos := Lists.MapWhere(todos, HasId(id), FlipSubtask(subtaskId));
    }

    /** `handleDeleteTodo`: the tasks with the id are gone, every other task is kept in order. */
    method DeleteTodo(id: int)
      modifies this
      ensures todos == Lists.Filter(old(todos), NotId(id))
      ensures forall i :: 0 <= i < |todos| ==> todos[i].id != id
      ensures forall i :: 0 <= i < |old(todos)| && old(todos)[i].id != id ==> old(todos)[i] in todos
      ensures |todos| == |old(todos)| - Lists.Count(old(todos), HasId(id))
      ensures newTodo == old(newTodo) && filter == old(filter) && searchQuery == old(searchQuery)
      ensures showNewTodoModal == old(showNewTodoModal) && selectedTodo == old(selectedTodo)
    {
      Lists.FilterMultiset(todos, NotId(id));
      Lists.FilterLength(todos, NotId(id));
      CountComplement(todos, id);
      todos := Lists.Filter(todos, NotId(id));
    }

    /** `handleEditTodo`: the task is selected and the form opened; the form still edits the new-task draft. */
    method EditTodo(t: Task)
      modifies this
      ensures selectedTodo == Some(t) && showNewTodoModal
      ensures todos == old(todos) && newTodo == old(newTodo) && filter == old(filter) && searchQuery == old(searchQuery)
    {
      selectedTodo := Some(t);
      showNewTodoModal := true;
    }

    /** The Cancel button: the modal closes and the selection is dropped. */
    method CancelModal()
      modifies this
      ensures !showNewTodoModal && selectedTodo.None?
      ensures todos == old(todos) && newTodo == old(newTodo) && filter == old(filter) && searchQuery == old(searchQuery)
    {
      showNewTodoModal := false;
      selectedTodo := None;
    }

    method SetFilter(f: string)
      modifies this
      ensures filter == f
      ensures todos == old(todos) && newTodo == old(newTodo) && searchQuery == old(searchQuery)
      ensures showNewTodoModal == old(showNewTodoModal) && selectedTodo == old(selectedTodo)
    {
      filter := f;
    }

    method SetSearch(q: string)
      modifies this
      ensures searchQuery == q
      ensures todos == old(todos) && newTodo == old(newTodo) && filter == old(filter)
      ensures showNewTodoModal == old(showNewTodoModal) && selectedTodo == old(selectedTodo)
    {
      searchQuery := q;
    }
  }

  /** Every task either has the id or not, so the kept and the removed tasks add up to the list. */
  lemma {:induction false} CountComplement(todos: seq<Task>, id: int)
    ensures Lists.Count(todos, NotId(id)) + Lists.Count(todos, HasId(id)) == |todos|
  {
    if todos != [] {
      CountComplement(todos[1..], id);
    }
  }
}
