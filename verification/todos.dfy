/** The todo list of the playground page: an ordered list of todos with
    append, toggle-by-index and delete-by-index, plus the scenario that
    exercises them. Re-rendering, saving to `localStorage` and the
    creation timestamp are not modelled; the `Date.now()` id is a
    parameter. */
module Todos {
  import opened JsStrings
  import opened JsValues

  datatype Todo = Todo(id: int, text: string, completed: bool)

  /** The todo list and the text box it is fed from. */
  datatype Page = Page(todos: seq<Todo>, input: string)

  /** `addTodoItem(text)`: one new, not completed todo with exactly that
      text at the end; the todos already there are unchanged. */
  function AddTodoItem(todos: seq<Todo>, id: int, text: string): (r: seq<Todo>)
    ensures |r| == |todos| + 1
    ensures r[..|todos|] == todos
    ensures r[|todos|] == Todo(id, text, false)
  {
    todos + [Todo(id, text, false)]
  }

  /** `addTodo()`: the box's text is trimmed; if nothing is left, nothing
      happens (the box keeps its white space); otherwise one todo holding
      the trimmed text is appended and the box is emptied. */
  function AddTodo(page: Page, id: int): (r: Page)
    ensures AllWhiteSpace(page.input) ==> r == page
    ensures !AllWhiteSpace(page.input) ==>
              && |r.todos| == |page.todos| + 1
              && r.todos[..|page.todos|] == page.todos
              && r.todos[|page.todos|] == Todo(id, Trim(page.input), false)
              && r.todos[|page.todos|].text != ""
              && !IsWhiteSpace(r.todos[|page.todos|].text[0])
              && r.input == ""
  {
    var text := Trim(page.input);
    TrimEmptyIffWhiteSpace(page.input);
    TrimHasNoOuterWhiteSpace(page.input);
    if text != "" then Page(AddTodoItem(page.todos, id, text), "") else page
  }

  predicate InRange(todos: seq<Todo>, index: int) {
    0 <= index < |todos|
  }

  /** `toggleTodo(index)`: for an index in range, flips that todo's
      `completed` and nothing else; an index out of range (negative or past
      the end) changes nothing. */
  function ToggleTodo(todos: seq<Todo>, index: int): (r: seq<Todo>)
    ensures |r| == |todos|
    ensures forall j :: 0 <= j < |todos| && j != index ==> r[j] == todos[j]
    ensures InRange(todos, index) ==>
              && r[index].id == todos[index].id
              && r[index].text == todos[index].text
              && r[index].completed == !todos[index].completed
    ensures !InRange(todos, index) ==> r == todos
  {
    if 0 <= index && index < |todos| then
      todos[index := todos[index].(completed := !todos[index].completed)]
    else
      todos
  }

  /** Toggling the same index twice gives back the list it started from. */
  lemma ToggleTwice(todos: seq<Todo>, index: int)
    ensures ToggleTodo(ToggleTodo(todos, index), index) == todos
  {
  }

  /** `deleteTodo(index)`: for an index in range, `splice(index, 1)`
      removes exactly that todo, the ones before it stay where they are and
      the ones after it move down by one; an index out of range changes
      nothing. */
  function DeleteTodo(todos: seq<Todo>, index: int): (r: seq<Todo>)
    ensures InRange(todos, index) ==>
              && |r| == |todos| - 1
              && (forall j :: 0 <= j < index ==> r[j] == todos[j])
              && (forall j :: index <= j < |r| ==> r[j] == todos[j + 1])
    ensures !InRange(todos, index) ==> r == todos
  {
    if 0 <= index && index < |todos| then todos[..index] + todos[index + 1..] else todos
  }

  /** Deleting takes away one occurrence of the deleted todo and keeps all
      the others. */
  lemma DeleteRemovesOne(todos: seq<Todo>, index: int)
    requires InRange(todos, index)
    ensures multiset(DeleteTodo(todos, index)) + multiset{todos[index]} == multiset(todos)
  {
    assert todos == todos[..index] + [todos[index]] + todos[index + 1..];
  }

  /** Adding then deleting the new last todo gives back the list. */
  lemma DeleteUndoesAdd(todos: seq<Todo>, id: int, text: string)
    ensures DeleteTodo(AddTodoItem(todos, id, text), |todos|) == todos
  {
  }

  /** What `testTodoFunctionality` leaves behind: the list and the lines it
      prints. */
  datatype Report = Report(todos: seq<Todo>, lines: seq<string>)

  /** `testTodoFunctionality()`, run on whatever list the page holds: add
      "Test Todo 1" and "Test Todo 2", toggle index 0, delete index 1,
      reporting as it goes. */
  function TodoFunctionality(todos: seq<Todo>, id1: int, id2: int): (r: Report)
    ensures |r.todos| == |todos| + 1
  {
    var added := AddTodoItem(AddTodoItem(todos, id1, "Test Todo 1"), id2, "Test Todo 2");
    var header := ["Added 2 test todos", "Todo list length: " + IntToString(|added|)];
    var (toggled, lines) :=
      if |added| > 0 then
        var t := ToggleTodo(added, 0);
        (t, header + ["Toggled first todo completion",
                     "First todo completed: " + Display(Bool(t[0].completed))])
      else (added, header);
    if |toggled| > 1 then
      var d := DeleteTodo(toggled, 1);
      Report(d, lines + ["Deleted second todo", "Todo list length after deletion: " + IntToString(|d|)])
    else
      Report(toggled, lines)
  }

  /** From an empty list the scenario leaves one todo, the first one added,
      completed, and prints the lengths 2 and 1. */
  lemma TodoFunctionalityFromEmpty(id1: int, id2: int)
    ensures TodoFunctionality([], id1, id2)
            == Report([Todo(id1, "Test Todo 1", true)],
                      ["Added 2 test todos", "Todo list length: 2",
                       "Toggled first todo completion", "First todo completed: true",
                       "Deleted second todo", "Todo list length after deletion: 1"])
  {
    var added := AddTodoItem(AddTodoItem([], id1, "Test Todo 1"), id2, "Test Todo 2");
    assert added == [Todo(id1, "Test Todo 1", false), Todo(id2, "Test Todo 2", false)];
    var t := ToggleTodo(added, 0);
    assert t == [Todo(id1, "Test Todo 1", true), Todo(id2, "Test Todo 2", false)];
    assert DeleteTodo(t, 1) == [Todo(id1, "Test Todo 1", true)];
    assert IntToString(2) == "2" && IntToString(1) == "1";
    assert "Todo list length: " + IntToString(|added|) == "Todo list length: 2";
    assert "First todo completed: " + Display(Bool(t[0].completed)) == "First todo completed: true";
    assert "Todo list length after deletion: " + IntToString(|DeleteTodo(t, 1)|)
        == "Todo list length after deletion: 1";
  }

  /** On a page that already holds two or more todos the scenario toggles
      and deletes todos that were already there: the first one is flipped,
      the second one is gone, and both new todos sit at the end. */
  lemma TodoFunctionalityOnExistingList(todos: seq<Todo>, id1: int, id2: int)
    requires |todos| >= 2
    ensures TodoFunctionality(todos, id1, id2).todos
            == [todos[0].(completed := !todos[0].completed)] + todos[2..]
               + [Todo(id1, "Test Todo 1", false), Todo(id2, "Test Todo 2", false)]
  {
    var news := [Todo(id1, "Test Todo 1", false), Todo(id2, "Test Todo 2", false)];
    var added := AddTodoItem(AddTodoItem(todos, id1, "Test Todo 1"), id2, "Test Todo 2");
    assert added == todos + news;
    var t := ToggleTodo(added, 0);
    assert t == added[0 := todos[0].(completed := !todos[0].completed)];
    assert t[..1] == [todos[0].(completed := !todos[0].completed)];
    assert t[2..] == todos[2..] + news;
  }

  /** On a page holding exactly one todo the scenario toggles that todo and
      then deletes the first todo it added itself: the existing todo,
      flipped, and "Test Todo 2" remain. */
  lemma TodoFunctionalityOnSingleton(t0: Todo, id1: int, id2: int)
    ensures TodoFunctionality([t0], id1, id2).todos
            == [t0.(completed := !t0.completed), Todo(id2, "Test Todo 2", false)]
  {
    var added := AddTodoItem(AddTodoItem([t0], id1, "Test Todo 1"), id2, "Test Todo 2");
    assert added == [t0, Todo(id1, "Test Todo 1", false), Todo(id2, "Test Todo 2", false)];
    var t := ToggleTodo(added, 0);
    assert t == [t0.(completed := !t0.completed), Todo(id1, "Test Todo 1", false), Todo(id2, "Test Todo 2", false)];
  }

  /** Whatever the page held, both guarded blocks of the scenario run, since
      the list has at least two todos after the two additions: it prints six
      lines, reporting the length before and after the deletion and the
      flipped state of the first todo. */
  lemma TodoFunctionalityLines(todos: seq<Todo>, id1: int, id2: int)
    ensures TodoFunctionality(todos, id1, id2).lines
            == ["Added 2 test todos",
                "Todo list length: " + IntToString(|todos| + 2),
                "Toggled first todo completion",
                "First todo completed: " + Display(Bool(if todos == [] then true else !todos[0].completed)),
                "Deleted second todo",
                "Todo list length after deletion: " + IntToString(|todos| + 1)]
  {
    var added := AddTodoItem(AddTodoItem(todos, id1, "Test Todo 1"), id2, "Test Todo 2");
    assert added[0] == if todos == [] then Todo(id1, "Test Todo 1", false) else todos[0];
  }
}
