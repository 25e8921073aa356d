/** The pure reducers of the todo application: one per item, one for the list, one for the
    visibility filter, and their field-wise combination into the root reducer. */
module Reducers {
  import opened Optional
  import opened TodoState

  /** The per-item reducer. `state` is `None` when the list reducer builds a new item; a
      toggle reads the prior item's id, so it needs one. */
  function TodoReducer(state: Option<Todo>, action: Action): (r: Option<Todo>)
    requires action.ToggleTodo? ==> state.Some?
    ensures action.AddTodo? ==> r == Some(Todo(action.id, action.text, false))
    ensures action.ToggleTodo? ==>
      && r.Some?
      && r.value.id == state.value.id
      && r.value.text == state.value.text
      && (r.value.completed != state.value.completed <==> state.value.id == action.id)
    ensures action.ToggleTodo? && state.value.id != action.id ==> r == state
    ensures action.SetVisibilityFilter? || action.Other? ==> r == state
  {
    match action
    case AddTodo(id, text) => Some(Todo(id, text, false))
    case ToggleTodo(id) =>
      var t := state.value;
      if t.id != id then state else Some(t.(completed := !t.completed))
    case _ => state
  }

  /** The item reducer applied to every element of `s`, in order. */
  function MapTodo(s: seq<Todo>, action: Action): (r: seq<Todo>)
    ensures |r| == |s|
    ensures forall i :: 0 <= i < |s| ==> Some(r[i]) == TodoReducer(Some(s[i]), action)
  {
    if s == [] then [] else [TodoReducer(Some(s[0]), action).value] + MapTodo(s[1..], action)
  }

  /** The list reducer: an add appends one fresh item, a toggle maps the item reducer over
      the list, any other action leaves the list as it was. */
  function TodosReducer(state: seq<Todo>, action: Action): (r: seq<Todo>)
    ensures action.AddTodo? ==>
      && |r| == |state| + 1
      && r[..|state|] == state
      && r[|state|] == Todo(action.id, action.text, false)
    ensures action.ToggleTodo? ==>
      && |r| == |state|
      && forall i :: 0 <= i < |state| ==>
           && r[i].id == state[i].id
           && r[i].text == state[i].text
           && r[i].completed == (if state[i].id == action.id then !state[i].completed else state[i].completed)
    ensures action.SetVisibilityFilter? || action.Other? ==> r == state
  {
    match action
    case AddTodo(_, _) => state + [TodoReducer(None, action).value]
    case ToggleTodo(_) => MapTodo(state, action)
    case _ => state
  }

  /** The visibility-filter reducer: stores the action's filter verbatim, without checking it
      is one of the names the selector knows. */
  function VisibilityFilterReducer(state: string, action: Action): (r: string)
    ensures action.SetVisibilityFilter? ==> r == action.filter
    ensures !action.SetVisibilityFilter? ==> r == state
  {
    match action
    case SetVisibilityFilter(filter) => filter
    case _ => state
  }

  /** The list and filter every sub-reducer starts from when the whole state is undefined. */
  const InitialState: AppState := AppState([], ShowAll)

  /** The state the root reducer starts from: the given one, or the defaults when undefined. */
  function PriorOrInitial(state: Option<AppState>): AppState {
    if state.Some? then state.value else InitialState
  }

  /** The root reducer, combining the two sub-reducers field by field. An undefined prior
      state hands each sub-reducer its own default. */
  function TodoApp(state: Option<AppState>, action: Action): (r: AppState)
    ensures var prior := PriorOrInitial(state);
      && (action.AddTodo? || action.ToggleTodo? ==> r.visibilityFilter == prior.visibilityFilter)
      && (action.AddTodo? ==> r.todos == prior.todos + [Todo(action.id, action.text, false)])
      && (action.ToggleTodo? ==> r.todos == TodosReducer(prior.todos, action))
      && (action.SetVisibilityFilter? ==> r == AppState(prior.todos, action.filter))
      && (action.Other? ==> r == prior)
  {
    var prior := PriorOrInitial(state);
    AppState(TodosReducer(prior.todos, action), VisibilityFilterReducer(prior.visibilityFilter, action))
  }

  /** Reducing an undefined state yields the empty list and the `SHOW_ALL` filter for an
      action nobody recognises, and behaves exactly like reducing that initial state. */
  lemma InitialStateDefaults(action: Action)
    ensures TodoApp(None, Other) == AppState([], "SHOW_ALL")
    ensures TodoApp(None, action) == TodoApp(Some(AppState([], "SHOW_ALL")), action)
  {
  }

  /** Toggling the same id twice gives back the original list. */
  lemma ToggleTwiceRestores(s: seq<Todo>, id: int)
    ensures TodosReducer(TodosReducer(s, ToggleTodo(id)), ToggleTodo(id)) == s
  {
  }

  /** A toggle whose id is in no item leaves the list as it was. */
  lemma ToggleAbsentIdIsIdentity(s: seq<Todo>, id: int)
    requires forall i :: 0 <= i < |s| ==> s[i].id != id
    ensures TodosReducer(s, ToggleTodo(id)) == s
  {
  }

  /** When ids are distinct and item `j` carries the toggled id, exactly that item changes:
      its flag is inverted and every other item is returned as it was, in the same order. */
  lemma ToggleFlipsExactlyOne(s: seq<Todo>, j: nat)
    requires j < |s|
    requires forall a, b :: 0 <= a < b < |s| ==> s[a].id != s[b].id
    ensures var r := TodosReducer(s, ToggleTodo(s[j].id));
      && |r| == |s|
      && r[j] == s[j].(completed := !s[j].completed)
      && forall i :: 0 <= i < |s| && i != j ==> r[i] == s[i]
  {
  }

  /** An action of no recognised type leaves the whole state unchanged, and a filter change
      leaves the list unchanged. */
  lemma UnrecognisedActionIsIdentity(s: AppState, filter: string)
    ensures TodoApp(Some(s), Other) == s
    ensures TodoApp(Some(s), SetVisibilityFilter(filter)).todos == s.todos
    ensures TodoApp(Some(s), SetVisibilityFilter(filter)).visibilityFilter == filter
  {
  }

  /** Only the last filter chosen matters: a second filter action overwrites the first. */
  lemma LastFilterWins(s: AppState, first: string, second: string)
    ensures TodoApp(Some(TodoApp(Some(s), SetVisibilityFilter(first))), SetVisibilityFilter(second))
         == TodoApp(Some(s), SetVisibilityFilter(second))
  {
  }
}
