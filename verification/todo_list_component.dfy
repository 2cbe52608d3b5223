/**
 * The shared to-do list component: a new-todo form, an edit form for one
 * todo at a time, and the filtered view of the store's todos. Its handlers
 * dispatch to the todo slice, modelled here as the store object they
 * update. `Date.now()` and the `window.confirm` answer are parameters; the
 * `alert` on a blank title is left out, as it changes no state.
 */
module TodoListComponent {
  import opened JsObject
  import JsText
  import Lists
  import TodoSlice

  /** The form state both forms start from and are reset to. */
  const EmptyForm: Object := map["title" := Str(""), "description" := Str(""), "priority" := Str("medium"), "dueDate" := Str("")]

  /**
   * `!form.title.trim()` is false: the title is a string that is not blank.
   * A title that is not a string makes `.trim()` throw, which stops the
   * handler just as a blank one does.
   */
  predicate TitleOk(form: Object) {
    var t := Get(form, "title");
    t.Str? && JsText.Trim(t.s) != ""
  }

  /**
   * `form.tags ? form.tags.split(',').map(tag => tag.trim()) : []`. Form
   * inputs hold strings, so a truthy tags field is a non-empty string.
   */
  function TagsOf(form: Object): (r: Value)
    ensures !Truthy(Get(form, "tags")) ==> r == Arr([])
    ensures Get(form, "tags").Str? && Truthy(Get(form, "tags")) ==> r == Strs(JsText.SplitTrim(Get(form, "tags").s, ','))
    ensures r.Arr?
  {
    match Get(form, "tags")
    case Str(s) => if s != "" then Strs(JsText.SplitTrim(s, ',')) else Arr([])
    case _ => Arr([])
  }

  /** `{ id: Date.now().toString(), ...newTodo, completed: false, tags }`. */
  function NewTodo(form: Object, now: int): (todo: Object)
    ensures Get(todo, "completed") == Bool(false) && Get(todo, "tags") == TagsOf(form)
    ensures "id" !in form ==> Get(todo, "id") == Str(JsText.IntToString(now))
    ensures forall k :: k in form && k != "completed" && k != "tags" ==> Get(todo, k) == form[k]
    ensures todo.Keys == form.Keys + {"id", "completed", "tags"}
  {
    Spread(Spread(map["id" := Str(JsText.IntToString(now))], form), map["completed" := Bool(false), "tags" := TagsOf(form)])
  }

  /** `startEditing`: the todo's title and priority, and its description and due date or ''. */
  function EditForm(todo: Object): (form: Object)
    ensures form.Keys == EmptyForm.Keys
    ensures form["title"] == Get(todo, "title") && form["priority"] == Get(todo, "priority")
    ensures form["description"] == Or(Get(todo, "description"), Str(""))
    ensures form["dueDate"] == Or(Get(todo, "dueDate"), Str(""))
  {
    map["title" := Get(todo, "title"), "description" := Or(Get(todo, "description"), Str("")),
        "priority" := Get(todo, "priority"), "dueDate" := Or(Get(todo, "dueDate"), Str(""))]
  }

  /** `saveEditedTodo`'s update: `{ id, ...editFormData, tags }`. */
  function EditedTodo(id: Value, form: Object): (updates: Object)
    ensures Get(updates, "tags") == TagsOf(form)
    ensures "id" !in form ==> Get(updates, "id") == id
    ensures forall k :: k in form && k != "tags" ==> Get(updates, k) == form[k]
  {
    Spread(Spread(map["id" := id], form), map["tags" := TagsOf(form)])
  }

  /** The edit form has no tags field, so saving an edit always sends `tags: []`, whatever tags the todo had. */
  lemma EditClearsTags(todo: Object, id: Value, name: string, value: string)
    requires name != "tags"
    ensures Get(EditedTodo(id, EditForm(todo)), "tags") == Arr([])
    ensures Get(EditedTodo(id, EditForm(todo)[name := Str(value)]), "tags") == Arr([])
  {
  }

  /** Whether a todo shows under the list filter. */
  function Shows(filter: Value): Object -> bool {
    (todo: Object) =>
      if filter == Str("completed") then Truthy(Get(todo, "completed"))
      else if filter == Str("active") then !Truthy(Get(todo, "completed"))
      else true
  }

  /** `filteredTodos`. */
  function FilteredTodos(todos: seq<Object>, filter: Value): (r: seq<Object>)
    ensures filter != Str("completed") && filter != Str("active") ==> r == todos
    ensures forall i :: 0 <= i < |r| ==> r[i] in todos
    ensures filter == Str("completed") ==> forall i :: 0 <= i < |r| ==> Truthy(Get(r[i], "completed"))
    ensures filter == Str("active") ==> forall i :: 0 <= i < |r| ==> !Truthy(Get(r[i], "completed"))
    ensures filter == Str("completed") ==> forall i :: 0 <= i < |todos| && Truthy(Get(todos[i], "completed")) ==> todos[i] in r
    ensures filter == Str("active") ==> forall i :: 0 <= i < |todos| && !Truthy(Get(todos[i], "completed")) ==> todos[i] in r
  {
    Lists.FilterMultiset(todos, Shows(filter));
    if filter != Str("completed") && filter != Str("active") then
      Lists.FilterAllPass(todos, Shows(filter));
      Lists.Filter(todos, Shows(filter))
    else
      var r := Lists.Filter(todos, Shows(filter));
      assert forall i :: 0 <= i < |r| ==> r[i] in multiset(todos);
      r
  }

  /** Every todo is shown under exactly one of 'active' and 'completed'. */
  lemma {:induction false} ActiveAndCompletedPartition(todos: seq<Object>)
    ensures |FilteredTodos(todos, Str("active"))| + |FilteredTodos(todos, Str("completed"))| == |todos|
  {
    if todos != [] {
      ActiveAndCompletedPartition(todos[1..]);
    }
  }

  class TodoListView {
    const store: TodoSlice.TodoState
    var newTodo: Object
    var editingTodoId: Value
    var editFormData: Object

    /** Every field of the new-todo form holds a string, as its inputs set, and there is a title. */
    ghost predicate Valid()
      reads this
    {
      "title" in newTodo && forall k :: k in newTodo ==> newTodo[k].Str?
    }

    constructor (store: TodoSlice.TodoState)
      ensures Valid() && this.store == store
      ensures newTodo == EmptyForm && editingTodoId == Null && editFormData == EmptyForm
    {
      this.store := store;
      newTodo := EmptyForm;
      editingTodoId := Null;
      editFormData := EmptyForm;
    }

    /** `handleInputChange`. */
    method InputChange(name: string, value: string)
      requires Valid()
      modifies this
      ensures Valid() && newTodo == old(newTodo)[name := Str(value)]
      ensures editingTodoId == old(editingTodoId) && editFormData == old(editFormData)
    {
      newTodo := newTodo[name := Str(value)];
    }

    /** `handleEditInputChange`. */
    method EditInputChange(name: string, value: string)
      requires Valid()
      modifies this
      ensures Valid() && editFormData == old(editFormData)[name := Str(value)]
      ensures newTodo == old(newTodo) && editingTodoId == old(editingTodoId)
    {
      editFormData := editFormData[name := Str(value)];
    }

    /** `handleSubmit`: a todo built from the form is appended to the store and the form is reset, unless the title is blank. */
    method Submit(now: int)
      requires Valid()
      modifies this, store
      ensures Valid()
      ensures TitleOk(old(newTodo)) ==> store.todos == old(store.todos) + [NewTodo(old(newTodo), now)] && newTodo == EmptyForm
      ensures !TitleOk(old(newTodo)) ==> store.todos == old(store.todos) && newTodo == old(newTodo)
      ensures store.loading == old(store.loading) && store.error == old(store.error)
      ensures store.filter == old(store.filter) && store.aiSuggestions == old(store.aiSuggestions)
      ensures editingTodoId == old(editingTodoId) && editFormData == old(editFormData)
    {
      if !TitleOk(newTodo) {
        return;
      }
      var todo := NewTodo(newTodo, now);
      store.AddTodo(todo);
      ResetForm();
    }

    /** The new-todo form back to its empty state. */
    method ResetForm()
      modifies this
      ensures Valid() && newTodo == EmptyForm
      ensures editingTodoId == old(editingTodoId) && editFormData == old(editFormData)
    {
      newTodo := EmptyForm;
    }

    method StartEditing(todo: Object)
      requires Valid()
      modifies this
      ensures Valid() && editingTodoId == Get(todo, "id") && editFormData == EditForm(todo)
      ensures newTodo == old(newTodo)
    {
      editingTodoId := Get(todo, "id");
      editFormData := EditForm(todo);
    }

    method CancelEditing()
      requires Valid()
      modifies this
      ensures Valid() && editingTodoId == Null && editFormData == EmptyForm
      ensures newTodo == old(newTodo)
    {
      editingTodoId := Null;
      editFormData := EmptyForm;
    }

    /** `saveEditedTodo`: unless the title is blank, the edit form is merged into the todo and editing ends. */
    method SaveEditedTodo(id: Value)
      requires Valid()
      modifies this, store
      ensures Valid()
      ensures TitleOk(old(editFormData)) ==>
        store.todos == Lists.UpdateFirst(old(store.todos), HasId(id), SpreadWith(EditedTodo(id, old(editFormData))))
        && editingTodoId == Null && editFormData == EmptyForm
      ensures !TitleOk(old(editFormData)) ==>
        store.todos == old(store.todos) && editingTodoId == old(editingTodoId) && editFormData == old(editFormData)
      ensures store.loading == old(store.loading) && store.error == old(store.error)
      ensures store.filter == old(store.filter) && store.aiSuggestions == old(store.aiSuggestions)
      ensures newTodo == old(newTodo)
    {
      if !TitleOk(editFormData) {
        return;
      }
      store.UpdateTodo(id, EditedTodo(id, editFormData));
      CancelEditing();
    }

    method ToggleComplete(id: Value)
      requires Valid()
      modifies store
      ensures store.todos == Lists.UpdateFirst(old(store.todos), HasId(id), TodoSlice.ToggleCompleted)
      ensures store.loading == old(store.loading) && store.error == old(store.error)
      ensures store.filter == old(store.filter) && store.aiSuggestions == old(store.aiSuggestions)
    {
      store.ToggleTodoComplete(id);
    }

    /** `removeTodo`: deletes only once the user confirms. */
    method RemoveTodo(id: Value, confirmed: bool)
      requires Valid()
      modifies store
      ensures store.todos == if confirmed then Lists.Filter(old(store.todos), NotId(id)) else old(store.todos)
      ensures store.loading == old(store.loading) && store.error == old(store.error)
      ensures store.filter == old(store.filter) && store.aiSuggestions == old(store.aiSuggestions)
    {
      if confirmed {
        store.DeleteTodo(id);
      }
    }

    method ChangeFilter(newFilter: Value)
      requires Valid()
      modifies store
      ensures store.filter == newFilter && store.todos == old(store.todos)
      ensures store.loading == old(store.loading) && store.error == old(store.error) && store.aiSuggestions == old(store.aiSuggestions)
    {
      store.SetFilter(newFilter);
    }
  }

  /** Saving an edit started from a stored todo replaces that todo's tags with an empty list. */
  lemma SavedEditLosesTags(todos: seq<Object>, todo: Object)
    requires var k := Lists.FirstIndex(todos, HasId(Get(todo, "id"))); k >= 0
    ensures var id := Get(todo, "id");
      var k := Lists.FirstIndex(todos, HasId(id));
      Get(Lists.UpdateFirst(todos, HasId(id), SpreadWith(EditedTodo(id, EditForm(todo))))[k], "tags") == Arr([])
  {
  }
}
