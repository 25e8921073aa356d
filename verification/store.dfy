/** The store as the application uses it: created from the root reducer, then fed actions
    one at a time. The id counter travels alongside the state, and the only actions
    dispatched are those the action creators build. */
module Store {
  import opened Optional
  import opened TodoState
  import Reducers
  import ActionCreators
  import Selectors

  /** The state a freshly created store holds: the root reducer applied to an undefined
      state and the store's own initialisation action, whose type no reducer recognises. */
  function CreateStore(): (r: AppState)
    ensures r.todos == [] && r.visibilityFilter == ShowAll
  {
    Reducers.TodoApp(None, Other)
  }

  /** One dispatch: the root reducer applied to the current state. */
  function Dispatch(state: AppState, action: Action): (r: AppState)
    ensures action.Other? ==> r == state
    ensures action.SetVisibilityFilter? ==> r.todos == state.todos && r.visibilityFilter == action.filter
    ensures action.AddTodo? ==>
      r == AppState(state.todos + [Todo(action.id, action.text, false)], state.visibilityFilter)
    ensures action.ToggleTodo? ==>
      && r.visibilityFilter == state.visibilityFilter
      && |r.todos| == |state.todos|
      && forall i :: 0 <= i < |state.todos| ==>
           r.todos[i] == (if state.todos[i].id == action.id
                          then state.todos[i].(completed := !state.todos[i].completed)
                          else state.todos[i])
  {
    Reducers.TodoApp(Some(state), action)
  }

  /** What the user interface asks for: adding a text, toggling an id, choosing a filter.
      Each becomes one dispatch of the matching action creator's result. */
  datatype Request = Add(text: string) | Toggle(id: int) | ChooseFilter(filter: string)

  /** Dispatches the action built for `request`, drawing an id from the counter for an add. */
  function Step(state: AppState, nextTodoId: nat, request: Request): (r: (AppState, nat))
    ensures request.Add? ==>
      && r.0 == AppState(state.todos + [Todo(nextTodoId, request.text, false)], state.visibilityFilter)
      && r.1 == nextTodoId + 1
    ensures request.Toggle? ==>
      && r.0.visibilityFilter == state.visibilityFilter
      && |r.0.todos| == |state.todos|
      && forall i :: 0 <= i < |state.todos| ==>
           r.0.todos[i] == (if state.todos[i].id == request.id
                            then state.todos[i].(completed := !state.todos[i].completed)
                            else state.todos[i])
    ensures request.ChooseFilter? ==> r.0 == AppState(state.todos, request.filter)
    ensures !request.Add? ==> r.1 == nextTodoId
  {
    match request
    case Add(text) =>
      var (action, next) := ActionCreators.AddTodo(nextTodoId, text);
      (Dispatch(state, action), next)
    case Toggle(id) => (Dispatch(state, ActionCreators.ToggleTodo(id)), nextTodoId)
    case ChooseFilter(filter) => (Dispatch(state, ActionCreators.SetVisibilityFilter(filter)), nextTodoId)
  }

  /** Serves the requests in order. */
  function Run(state: AppState, nextTodoId: nat, requests: seq<Request>): (AppState, nat)
    decreases |requests|
  {
    if requests == [] then (state, nextTodoId)
    else
      var (state', next') := Step(state, nextTodoId, requests[0]);
      Run(state', next', requests[1..])
  }

  /** The list agrees with the counter: the item at position `i` has id `i`, and the counter
      holds the list's length, that is, the next position. */
  ghost predicate IdsMatchPositions(state: AppState, nextTodoId: nat)
  {
    && nextTodoId == |state.todos|
    && forall i :: 0 <= i < |state.todos| ==> state.todos[i].id == i
  }

  /** One request keeps the list and the counter in agreement. */
  lemma StepKeepsIdsMatchingPositions(state: AppState, nextTodoId: nat, request: Request)
    requires IdsMatchPositions(state, nextTodoId)
    ensures var (state', next') := Step(state, nextTodoId, request);
      IdsMatchPositions(state', next')
  {
  }

  /** Any run of requests from a store whose ids match positions keeps them matching; hence
      ids are distinct and strictly increasing along the list. */
  lemma {:induction false} RunKeepsIdsMatchingPositions(state: AppState, nextTodoId: nat, requests: seq<Request>)
    requires IdsMatchPositions(state, nextTodoId)
    ensures var (state', next') := Run(state, nextTodoId, requests);
      && IdsMatchPositions(state', next')
      && forall i, j :: 0 <= i < j < |state'.todos| ==> state'.todos[i].id < state'.todos[j].id
    decreases |requests|
  {
    if requests != [] {
      var (s1, n1) := Step(state, nextTodoId, requests[0]);
      StepKeepsIdsMatchingPositions(state, nextTodoId, requests[0]);
      RunKeepsIdsMatchingPositions(s1, n1, requests[1..]);
    }
  }

  /** A fresh store with a fresh counter has ids matching positions, so after any run of
      requests item `i` has id `i` and the counter equals the list length. */
  lemma FreshRunKeepsIdsMatchingPositions(requests: seq<Request>)
    ensures var (state', next') := Run(CreateStore(), ActionCreators.FirstTodoId, requests);
      && next' == |state'.todos|
      && forall i :: 0 <= i < |state'.todos| ==> state'.todos[i].id == i
  {
    RunKeepsIdsMatchingPositions(CreateStore(), ActionCreators.FirstTodoId, requests);
  }

  /** In a store whose ids match positions, toggling the id of position `k` inverts exactly
      that item, and toggling an id with no position changes nothing. */
  lemma ToggleInConsistentStore(state: AppState, nextTodoId: nat, id: int)
    requires IdsMatchPositions(state, nextTodoId)
    ensures var (state', next') := Step(state, nextTodoId, Toggle(id));
      && next' == nextTodoId
      && |state'.todos| == |state.todos|
      && (forall i :: 0 <= i < |state.todos| && i != id ==> state'.todos[i] == state.todos[i])
      && (0 <= id < |state.todos| ==>
            state'.todos[id] == state.todos[id].(completed := !state.todos[id].completed))
      && (!(0 <= id < |state.todos|) ==> state' == state)
  {
  }

  /** A filter outside the three known names is stored as given, after which the visible
      list is undefined. */
  lemma UnknownFilterHasNoView(state: AppState, filter: string)
    requires filter != ShowAll && filter != ShowCompleted && filter != ShowActive
    ensures var state' := Dispatch(state, ActionCreators.SetVisibilityFilter(filter));
      && state'.visibilityFilter == filter
      && Selectors.GetVisibleTodos(state'.todos, state'.visibilityFilter).None?
  {
  }

  /** The startup sequence: three adds from a fresh counter, then a toggle of id 1. */
  method Seed() returns (state: AppState, nextTodoId: nat)
    ensures state.todos == [
      Todo(0, "New TODO", false),
      Todo(1, "Even newer TODO", true),
      Todo(2, "One more TODO", false)
    ]
    ensures state.visibilityFilter == "SHOW_ALL"
    ensures nextTodoId == 3
  {
    state := CreateStore();
    nextTodoId := ActionCreators.FirstTodoId;
    var added := ActionCreators.AddTodo(nextTodoId, "New TODO");
    state, nextTodoId := Dispatch(state, added.0), added.1;
    added := ActionCreators.AddTodo(nextTodoId, "Even newer TODO");
    state, nextTodoId := Dispatch(state, added.0), added.1;
    added := ActionCreators.AddTodo(nextTodoId, "One more TODO");
    state, nextTodoId := Dispatch(state, added.0), added.1;
    state := Dispatch(state, ActionCreators.ToggleTodo(1));
  }
}
