/**
 * The mobile to-do screen: a list of todos and one text input. Adding
 * appends the input as typed (untrimmed) unless it is blank; a todo is
 * toggled or removed by id. The id is the clock's `Date.now().toString()`,
 * given as a parameter.
 */
module TodoListScreen {
  import JsText
  import Lists

  datatype Todo = Todo(id: string, text: string, completed: bool)

  function HasId(id: string): Todo -> bool {
    (t: Todo) => t.id == id
  }

  function NotId(id: string): Todo -> bool {
    (t: Todo) => t.id != id
  }

  /** `{ ...todo, completed: !todo.completed }`. */
  function Flip(t: Todo): (r: Todo)
    ensures r.id == t.id && r.text == t.text && r.completed == !t.completed
  {
    t.(completed := !t.completed)
  }

  /** Toggling the same id twice restores the list. */
  lemma ToggleTwice(todos: seq<Todo>, id: string)
    ensures Lists.MapWhere(Lists.MapWhere(todos, HasId(id), Flip), HasId(id), Flip) == todos
  {
    Lists.MapWhereTwice(todos, HasId(id), Flip);
  }

  /** Removing the id of a todo just added, with a fresh id, gives the list from before the add. */
  lemma RemoveUndoesAdd(todos: seq<Todo>, t: Todo)
    requires forall i :: 0 <= i < |todos| ==> todos[i].id != t.id
    ensures Lists.Filter(todos + [t], NotId(t.id)) == todos
  {
    Lists.FilterDropsLast(todos, t, NotId(t.id));
  }

  class TodoListView {
    var todos: seq<Todo>
    var input: string

    constructor ()
      ensures todos == [] && input == ""
    {
      todos := [];
      input := "";
    }

    method SetInput(text: string)
      modifies this
      ensures input == text && todos == old(todos)
    {
      input := text;
    }

    /** `addTodo`: a blank input adds nothing; otherwise the typed text is appended, not completed, and the input cleared. */
    method AddTodo(id: string)
      modifies this
      ensures JsText.AllSpace(old(input)) ==> todos == old(todos) && input == old(input)
      ensures !JsText.AllSpace(old(input)) ==> todos == old(todos) + [Todo(id, old(input), false)] && input == ""
    {
      JsText.TrimEmptyIffBlank(input);
      if JsText.Trim(input) == "" {
        return;
      }
      todos := todos + [Todo(id, input, false)];
      input := "";
    }

    /** `toggleTodo`: every todo with the id flips; every other todo is untouched. */
    method ToggleTodo(id: string)
      modifies this
      ensures todos == Lists.MapWhere(old(todos), HasId(id), Flip)
      ensures forall i :: 0 <= i < |todos| ==>
        todos[i] == if old(todos)[i].id == id then Flip(old(todos)[i]) else old(todos)[i]
      ensures input == old(input)
    {
      todos := Lists.MapWhere(todos, HasId(id), Flip);
    }

    /** `removeTodo`: the todos with the id are gone, and the rest are kept in order. */
    method RemoveTodo(id: string)
      modifies this
      ensures todos == Lists.Filter(old(todos), NotId(id))
      ensures forall i :: 0 <= i < |todos| ==> todos[i].id != id
      ensures forall i :: 0 <= i < |old(todos)| && old(todos)[i].id != id ==> old(todos)[i] in todos
      ensures |todos| == Lists.Count(old(todos), NotId(id))
      ensures input == old(input)
    {
      Lists.FilterMultiset(todos, NotId(id));
      Lists.FilterLength(todos, NotId(id));
      todos := Lists.Filter(todos, NotId(id));
    }
  }
}
