# Todo application state core, in Dafny

A model of the state-transition core of a small Redux-style todo application (`script.js`):
the per-item reducer `todo`, the list reducer `todos`, the `visibilityFilter` reducer, the
root reducer `todoApp` built by `combineReducers`, the action creators `addTodo`,
`toggleTodo` and `setVisibilityFilter` with their `nextTodoId` counter, the selector
`getVisibleTodos`, and the startup sequence that seeds the store.

Files:

- `optional.dfy` — `Option`, standing for `undefined`.
- `todo_state.dfy` — `Todo`, `Action` (`AddTodo`, `ToggleTodo`, `SetVisibilityFilter`, and
  `Other` for an action of any other type), `AppState`, and the three filter names.
- `reducers.dfy` — the reducers and the laws they obey (append, pointwise toggle, toggle
  involution, identity on unrecognised actions, defaults).
- `action_creators.dfy` — the creators, with the mutable counter turned into an explicit
  argument and result.
- `selectors.dfy` — `getVisibleTodos`, returning `None` where the source falls off its
  `switch`; the completed and active views as order-preserving subsequences that partition
  the list.
- `store.dfy` — store creation (the reducer applied to `undefined` and an initialisation
  action), dispatch, runs of UI requests threading the counter, the invariant that ids equal
  positions, and the seeding sequence.

Modelling choices:

- The JavaScript default parameters (`state = []`, `state = 'SHOW_ALL'`) are modelled in the
  root reducer, which takes `Option<AppState>`. `combineReducers` hands a sub-reducer
  `undefined` whenever its key is missing from the state; in this application the store is
  created without a preloaded state, so that happens exactly when the whole state is
  `undefined`, at the store's initialisation.
- `todo(state, action)` takes `Option<Todo>` because the list reducer calls it with
  `undefined` for an add. A toggle reads `state.id`, so only there is a defined item required.
- Returning the same object (`return state`) is modelled as returning an equal value.
- The filter is an unvalidated string, as in the source; the selector's missing default is
  an explicit `None`.
- Ids are unbounded integers.
- A consequence of the counter discipline is proved: starting from a fresh store and counter
  0, the item at position `i` always has id `i`, and the counter equals the list length.

## Model

| member | source | states |
|---|---|---|
| Reducers.TodoReducer | script.js:3-23 | an add yields a fresh item with the action's id and text, not completed; a toggle keeps id and text and inverts `completed` exactly when the ids match, otherwise returns the item unchanged; other actions return the prior item |
| Reducers.MapTodo | script.js:33-35 | the list reducer's map: same length, and each result element is the item reducer applied to the element at the same position |
| Reducers.TodosReducer | script.js:25-39 | an add returns a list one longer whose prefix is the old list and whose last element is the new uncompleted item; a toggle keeps length, order, ids and texts and flips `completed` only on matching ids; other actions return the list unchanged |
| Reducers.VisibilityFilterReducer | script.js:41-51 | a filter action stores its filter verbatim; any other action returns the prior filter |
| Reducers.TodoApp | script.js:53-57 | field-wise combination over the prior state or, when undefined, the defaults: an add appends the new uncompleted item to the list, a toggle gives the list reducer's result, both leave the filter alone; a filter action changes only the filter; unrecognised actions change nothing |
| Reducers.InitialStateDefaults | script.js:25-57 | an undefined state reduces like the state with an empty list and `SHOW_ALL`, and the unrecognised action yields exactly that state |
| Reducers.ToggleTwiceRestores | script.js:11-35 | toggling the same id twice gives back the original list |
| Reducers.ToggleAbsentIdIsIdentity | script.js:11-14 | toggling an id no item carries leaves the list unchanged |
| Reducers.ToggleFlipsExactlyOne | script.js:11-35 | with distinct ids, toggling item `j`'s id inverts item `j` and leaves every other item as it was |
| Reducers.UnrecognisedActionIsIdentity | script.js:20-51 | an unrecognised action is the identity on the whole state; a filter action leaves the list untouched and stores the filter |
| Reducers.LastFilterWins | script.js:46-47 | two filter actions in a row leave the state the second alone would |
| ActionCreators.AddTodo | script.js:59-66 | the add action carries the counter's current value as id and the given text, and the counter advances by one |
| ActionCreators.ToggleTodo | script.js:68-73 | the toggle action carries the given id |
| ActionCreators.SetVisibilityFilter | script.js:75-80 | the filter action carries the given filter unchanged |
| ActionCreators.AddTodos | script.js:59-66 | successive adds get ids `next`, `next + 1`, … in call order and leave the counter advanced by the number of calls |
| ActionCreators.IdsStartAtZeroAndIncrease | script.js:59-66 | from a fresh counter the first id is 0 and ids strictly increase by one per call |
| Selectors.KeepWhere | script.js:217-224 | the filtered list is an order-preserving subsequence, all of whose items have the requested flag, holding each item with that flag exactly as often as the input and no other item |
| Selectors.GetVisibleTodos | script.js:210-226 | `SHOW_ALL` returns the list; `SHOW_COMPLETED` and `SHOW_ACTIVE` return order-preserving subsequences holding each completed, respectively active, item as often as the list does and nothing else; any other filter yields no result |
| Selectors.CompletedAndActivePartition | script.js:217-224 | the completed and active views together hold every item exactly as often as the list, share no item, and their lengths add up to the list's length |
| Store.CreateStore | script.js:260 | a fresh store holds the empty list and the `SHOW_ALL` filter |
| Store.Dispatch | script.js:261-264 | an add appends the new uncompleted item and keeps the filter; a toggle keeps the filter and the length and inverts exactly the items with the matching id; a filter action changes only the filter; an unrecognised action changes nothing |
| Store.Step | script.js:59-80 | an add request appends an uncompleted item whose id is the counter's current value, keeps the filter and advances the counter by one; a toggle request keeps the filter and length and inverts exactly the items with the matching id; a filter request stores the filter and keeps the list; only adds move the counter |
| Store.StepKeepsIdsMatchingPositions | script.js:25-39 | one request preserves: item `i` has id `i` and the counter equals the list length |
| Store.RunKeepsIdsMatchingPositions | script.js:59-66 | any run of requests preserves ids equal to positions, so ids are distinct and strictly increasing along the list |
| Store.FreshRunKeepsIdsMatchingPositions | script.js:59-66 | from a freshly created store and counter 0, after any run of requests item `i` has id `i` and the counter equals the list length |
| Store.ToggleInConsistentStore | script.js:11-35 | in such a store, toggling id `k` inverts exactly item `k` when `k` is a position, and changes nothing otherwise |
| Store.UnknownFilterHasNoView | script.js:41-47 | a filter outside the three names is stored as given, after which the selector yields no result |
| Store.Seed | script.js:260-264 | the startup sequence ends with todos 0, 1, 2 with only id 1 completed, the `SHOW_ALL` filter, and the counter at 3 |

## Left out

- The React components and the `connect` mappings (`Radio`, `FilterRadio`, `Footer`, `Todo`, `TodoList`, `AddTodo`, `VisibleTodoList`, `TodoApp`, `mapStateTo*`, `mapDispatchTo*`): UI rendering bound to the rendering library. The UI's calls into the creators are represented only by `Store.Request`.
- The CSS transition group and its timeouts: presentational, timing-based behaviour.
- The store's subscribe/listener machinery and mounting into the DOM: external library runtime. The store is modelled only as creation through its initialisation action plus successive dispatches.
- `combineReducers` as a library: its sanity checks on reducers returning `undefined` and its warnings about unexpected state keys are not modelled; only the field-wise combination is.
- DOM input handling (Enter key, clearing the input box): event wiring.
- Object reference identity: equal values stand for the same object.
- ActionCreators.AddTodo: ids are unbounded integers; JavaScript numbers lose integer precision beyond 2^53 calls, which is not modelled.
