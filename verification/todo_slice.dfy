/**
 * The todo slice of the client store: the todo list with its loading flag
 * and error, the list filter, and the AI suggestions that can be applied to
 * a todo. Each reducer is a method updating the slice in place, as the
 * reducers mutate their Immer draft.
 */
module TodoSlice {
  import opened JsObject
  import Lists

  /** An AI suggestion: its id and the fields it would merge into a todo. */
  datatype Suggestion = Suggestion(id: Value, changes: Object)

  function SuggestionIs(id: Value): Suggestion -> bool {
    (s: Suggestion) => s.id == id
  }

  function SuggestionIsNot(id: Value): Suggestion -> bool {
    (s: Suggestion) => s.id != id
  }

  /** `todo.completed = !todo.completed`. */
  function ToggleCompleted(todo: Object): (r: Object)
    ensures Get(r, "completed") == Bool(!Truthy(Get(todo, "completed")))
    ensures forall k :: k in todo && k != "completed" ==> k in r && r[k] == todo[k]
    ensures r.Keys == todo.Keys + {"completed"}
  {
    todo["completed" := Bool(!Truthy(Get(todo, "completed")))]
  }

  /** On a todo whose `completed` is a boolean, the toggle undoes itself. */
  lemma ToggleCompletedTwice(todo: Object)
    requires Get(todo, "completed").Bool?
    ensures ToggleCompleted(ToggleCompleted(todo)) == todo
  {
  }

  /** `applyAiSuggestion` on the two lists, as a value: the todos and the suggestions afterwards. */
  function ApplySuggestion(todos: seq<Object>, suggestions: seq<Suggestion>, suggestionId: Value, todoId: Value):
    (r: (seq<Object>, seq<Suggestion>))
    ensures Lists.FirstIndex(suggestions, SuggestionIs(suggestionId)) < 0 ==> r == (todos, suggestions)
    ensures var k := Lists.FirstIndex(suggestions, SuggestionIs(suggestionId));
      k >= 0 ==>
        r.0 == Lists.UpdateFirst(todos, HasId(todoId), SpreadWith(suggestions[k].changes))
        && r.1 == Lists.Filter(suggestions, SuggestionIsNot(suggestionId))
  {
    var k := Lists.FirstIndex(suggestions, SuggestionIs(suggestionId));
    if k < 0 then (todos, suggestions)
    else (Lists.UpdateFirst(todos, HasId(todoId), SpreadWith(suggestions[k].changes)),
          Lists.Filter(suggestions, SuggestionIsNot(suggestionId)))
  }

  /** An applied suggestion is gone afterwards, whether or not the todo existed. */
  lemma AppliedSuggestionRemoved(todos: seq<Object>, suggestions: seq<Suggestion>, suggestionId: Value, todoId: Value)
    ensures var r := ApplySuggestion(todos, suggestions, suggestionId, todoId);
      forall i :: 0 <= i < |r.1| ==> r.1[i].id != suggestionId
  {
  }

  /** Applying a suggestion to a todo that is not there only drops the suggestion. */
  lemma SuggestionForMissingTodo(todos: seq<Object>, suggestions: seq<Suggestion>, suggestionId: Value, todoId: Value)
    requires forall j :: 0 <= j < |todos| ==> Get(todos[j], "id") != todoId
    ensures ApplySuggestion(todos, suggestions, suggestionId, todoId).0 == todos
  {
    var k := Lists.FirstIndex(suggestions, SuggestionIs(suggestionId));
    if k >= 0 {
      Lists.UpdateFirstNoMatch(todos, HasId(todoId), SpreadWith(suggestions[k].changes));
    }
  }

  /** Deleting a todo removes every todo with that id and keeps the others in their order. */
  lemma DeleteKeepsOthers(todos: seq<Object>, id: Value)
    ensures forall i :: 0 <= i < |Lists.Filter(todos, NotId(id))| ==> Get(Lists.Filter(todos, NotId(id))[i], "id") != id
    ensures forall j :: 0 <= j < |todos| && Get(todos[j], "id") != id ==> todos[j] in Lists.Filter(todos, NotId(id))
    ensures forall a, b :: Lists.Filter(a + b, NotId(id)) == Lists.Filter(a, NotId(id)) + Lists.Filter(b, NotId(id))
  {
    Lists.FilterMultiset(todos, NotId(id));
    forall a, b {
      Lists.FilterAppend(a, b, NotId(id));
    }
  }

  /** Updating with an id no todo has changes nothing; otherwise only the first todo with the id changes. */
  lemma UpdateTouchesFirstMatchOnly(todos: seq<Object>, id: Value, updates: Object)
    ensures var r := Lists.UpdateFirst(todos, HasId(id), SpreadWith(updates));
      (forall j :: 0 <= j < |todos| ==> Get(todos[j], "id") != id) ==> r == todos
    ensures var r := Lists.UpdateFirst(todos, HasId(id), SpreadWith(updates));
      var k := Lists.FirstIndex(todos, HasId(id));
      k >= 0 ==> r == todos[k := Spread(todos[k], updates)]
  {
  }

  class TodoState {
    var todos: seq<Object>
    var loading: bool
    var error: Value
    var filter: Value
    var aiSuggestions: seq<Suggestion>

    /** The initial state: no todos, not loading, no error, filter 'all'. */
    constructor ()
      ensures todos == [] && !loading && error == Null && filter == Str("all") && aiSuggestions == []
    {
      todos := [];
      loading := false;
      error := Null;
      filter := Str("all");
      aiSuggestions := [];
    }

    method FetchTodosStart()
      modifies this
      ensures loading && error == Null
      ensures todos == old(todos) && filter == old(filter) && aiSuggestions == old(aiSuggestions)
    {
      loading := true;
      error := Null;
    }

    method FetchTodosSuccess(payload: seq<Object>)
      modifies this
      ensures !loading && todos == payload
      ensures error == old(error) && filter == old(filter) && aiSuggestions == old(aiSuggestions)
    {
      loading := false;
      todos := payload;
    }

    method FetchTodosFailure(payload: Value)
      modifies this
      ensures !loading && error == payload
      ensures todos == old(todos) && filter == old(filter) && aiSuggestions == old(aiSuggestions)
    {
      loading := false;
      error := payload;
    }

    /** `addTodo`: the new todo goes last and the others stay as they were. */
    method AddTodo(todo: Object)
      modifies this
      ensures todos == old(todos) + [todo]
      ensures loading == old(loading) && error == old(error) && filter == old(filter) && aiSuggestions == old(aiSuggestions)
    {
      todos := todos + [todo];
    }

    /** `updateTodo`: the updates are merged into the first todo with the id, if there is one. */
    method UpdateTodo(id: Value, updates: Object)
      modifies this
      ensures todos == Lists.UpdateFirst(old(todos), HasId(id), SpreadWith(updates))
      ensures loading == old(loading) && error == old(error) && filter == old(filter) && aiSuggestions == old(aiSuggestions)
    {
      var i := Lists.FirstIndex(todos, HasId(id));
      if i != -1 {
        todos := todos[i := Spread(todos[i], updates)];
      }
    }

    /** `deleteTodo`: keeps the todos whose id differs. */
    method DeleteTodo(id: Value)
      modifies this
      ensures todos == Lists.Filter(old(todos), NotId(id))
      ensures loading == old(loading) && error == old(error) && filter == old(filter) && aiSuggestions == old(aiSuggestions)
    {
      todos := Lists.Filter(todos, NotId(id));
    }

    /** `toggleTodoComplete`: flips `completed` on the first todo with the id. */
    method ToggleTodoComplete(id: Value)
      modifies this
      ensures todos == Lists.UpdateFirst(old(todos), HasId(id), ToggleCompleted)
      ensures loading == old(loading) && error == old(error) && filter == old(filter) && aiSuggestions == old(aiSuggestions)
    {
      var i := Lists.FirstIndex(todos, HasId(id));
      if i != -1 {
        todos := todos[i := ToggleCompleted(todos[i])];
      }
    }

    method SetFilter(payload: Value)
      modifies this
      ensures filter == payload
      ensures todos == old(todos) && loading == old(loading) && error == old(error) && aiSuggestions == old(aiSuggestions)
    {
      filter := payload;
    }

    method ReceiveAiSuggestions(payload: seq<Suggestion>)
      modifies this
      ensures aiSuggestions == payload
      ensures todos == old(todos) && loading == old(loading) && error == old(error) && filter == old(filter)
    {
      aiSuggestions := payload;
    }

    /** `applyAiSuggestion`: merge the suggestion's changes into the todo, then drop the suggestion. */
    method ApplyAiSuggestion(suggestionId: Value, todoId: Value)
      modifies this
      ensures (todos, aiSuggestions) == ApplySuggestion(old(todos), old(aiSuggestions), suggestionId, todoId)
      ensures loading == old(loading) && error == old(error) && filter == old(filter)
    {
      var k := Lists.FirstIndex(aiSuggestions, SuggestionIs(suggestionId));
      if k != -1 {
        var suggestion := aiSuggestions[k];
        var i := Lists.FirstIndex(todos, HasId(todoId));
        if i != -1 {
          todos := todos[i := Spread(todos[i], suggestion.changes)];
        }
        aiSuggestions := Lists.Filter(aiSuggestions, SuggestionIsNot(suggestionId));
      }
    }
  }

  /** Toggling the same todo twice restores the list, provided `completed` is a boolean there. */
  lemma ToggleTodoTwice(todos: seq<Object>, id: Value)
    requires forall j :: 0 <= j < |todos| ==> Get(todos[j], "completed").Bool?
    ensures Lists.UpdateFirst(Lists.UpdateFirst(todos, HasId(id), ToggleCompleted), HasId(id), ToggleCompleted) == todos
  {
    var k := Lists.FirstIndex(todos, HasId(id));
    if k >= 0 {
      var once := Lists.UpdateFirst(todos, HasId(id), ToggleCompleted);
      Lists.FirstIndexAt(once, HasId(id), k);
      ToggleCompletedTwice(todos[k]);
    }
  }
}
