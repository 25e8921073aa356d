/** The shapes of the todo application's state and of the actions dispatched to it. */
module TodoState {

  /** One entry of the list. `completed` is the only field an action ever changes. */
  datatype Todo = Todo(id: int, text: string, completed: bool)

  /** The tagged actions the reducers recognise, plus `Other` for an action of any other
      type (such as the store's own initialisation action). */
  datatype Action =
    | AddTodo(id: int, text: string)
    | ToggleTodo(id: int)
    | SetVisibilityFilter(filter: string)
    | Other

  /** The root state: the field names are the keys handed to the reducer combination. */
  datatype AppState = AppState(todos: seq<Todo>, visibilityFilter: string)

  /** The three filter names the selector understands. The filter field itself is a plain
      string: nothing stops an action from storing any other value. */
  const ShowAll: string := "SHOW_ALL"
  const ShowCompleted: string := "SHOW_COMPLETED"
  const ShowActive: string := "SHOW_ACTIVE"
}
