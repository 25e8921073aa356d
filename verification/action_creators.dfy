/** The action creators. The id counter, a module-level mutable variable in the
    application, is threaded through explicitly: each id-drawing creator takes the current
    counter value and returns the advanced one. */
module ActionCreators {
  import TodoState

  /** The counter's value before the first action is created. */
  const FirstTodoId: nat := 0

  /** An add action carrying the current counter value as its id (a post-increment), paired
      with the counter advanced by one. */
  function AddTodo(nextTodoId: nat, text: string): (r: (TodoState.Action, nat))
    ensures r.0.AddTodo? && r.0.id == nextTodoId && r.0.text == text
    ensures r.1 == nextTodoId + 1
  {
    (TodoState.AddTodo(nextTodoId, text), nextTodoId + 1)
  }

  /** A toggle action for the given id; the counter is not involved. */
  function ToggleTodo(id: int): (r: TodoState.Action)
    ensures r.ToggleTodo? && r.id == id
  {
    TodoState.ToggleTodo(id)
  }

  /** A filter action carrying the given filter as it is. */
  function SetVisibilityFilter(filter: string): (r: TodoState.Action)
    ensures r.SetVisibilityFilter? && r.filter == filter
  {
    TodoState.SetVisibilityFilter(filter)
  }

  /** Successive calls of `AddTodo`, one per text, threading the counter from call to call. */
  function AddTodos(nextTodoId: nat, texts: seq<string>): (r: (seq<TodoState.Action>, nat))
    decreases |texts|
    ensures |r.0| == |texts|
    ensures r.1 == nextTodoId + |texts|
    ensures forall i :: 0 <= i < |texts| ==> r.0[i] == TodoState.AddTodo(nextTodoId + i, texts[i])
  {
    if texts == [] then ([], nextTodoId)
    else
      var (first, next) := AddTodo(nextTodoId, texts[0]);
      var (rest, last) := AddTodos(next, texts[1..]);
      ([first] + rest, last)
  }

  /** Ids drawn from a fresh counter start at 0 and strictly increase, by one per call. */
  lemma IdsStartAtZeroAndIncrease(texts: seq<string>)
    ensures var actions := AddTodos(FirstTodoId, texts).0;
      && (|texts| > 0 ==> actions[0].id == 0)
      && (forall i :: 0 < i < |texts| ==> actions[i].id == actions[i - 1].id + 1)
      && forall i, j :: 0 <= i < j < |texts| ==> actions[i].id < actions[j].id
  {
  }
}
