/** The selector that derives the visible part of the list from the stored filter. */
module Selectors {
  import opened Optional
  import opened TodoState

  /** `a` is `b` with some elements removed and the rest kept in their order. */
  ghost predicate SubsequenceOf<T>(a: seq<T>, b: seq<T>)
    decreases |b|
  {
    if a == [] then true
    else if b == [] then false
    else (a[0] == b[0] && SubsequenceOf(a[1..], b[1..])) || SubsequenceOf(a, b[1..])
  }

  /** The items of `s` whose `completed` flag equals `completed`, in their original order
      (the array filter with the predicate `t.completed` or `!t.completed`). Each kept item
      occurs as often as in `s`; every other item not at all. */
  function KeepWhere(s: seq<Todo>, completed: bool): (r: seq<Todo>)
    ensures SubsequenceOf(r, s)
    ensures forall i :: 0 <= i < |r| ==> r[i].completed == completed
    ensures forall t :: multiset(r)[t] == (if t.completed == completed then multiset(s)[t] else 0)
  {
    if s == [] then []
    else
      var rest := KeepWhere(s[1..], completed);
      assert s == [s[0]] + s[1..];
      assert multiset(s) == multiset{s[0]} + multiset(s[1..]);
      if s[0].completed == completed then [s[0]] + rest else rest
  }

  /** The projection. It has no branch for a filter outside the three known names, where the
      application's selector falls off its switch and yields `undefined`: that is `None` here. */
  function GetVisibleTodos(todos: seq<Todo>, filter: string): (r: Option<seq<Todo>>)
    ensures r.Some? <==> filter == ShowAll || filter == ShowCompleted || filter == ShowActive
    ensures filter == ShowAll ==> r == Some(todos)
    ensures filter == ShowCompleted ==>
      && r.Some?
      && SubsequenceOf(r.value, todos)
      && (forall i :: 0 <= i < |r.value| ==> r.value[i].completed)
      && (forall t :: multiset(r.value)[t] == (if t.completed then multiset(todos)[t] else 0))
    ensures filter == ShowActive ==>
      && r.Some?
      && SubsequenceOf(r.value, todos)
      && (forall i :: 0 <= i < |r.value| ==> !r.value[i].completed)
      && (forall t :: multiset(r.value)[t] == (if !t.completed then multiset(todos)[t] else 0))
  {
    if filter == ShowAll then Some(todos)
    else if filter == ShowCompleted then Some(KeepWhere(todos, true))
    else if filter == ShowActive then Some(KeepWhere(todos, false))
    else None
  }

  /** The completed and the active views partition the list: together they hold every item
      exactly as often as the list does, so their lengths add up to the list's length, and
      no item is in both. */
  lemma {:induction false} CompletedAndActivePartition(todos: seq<Todo>)
    ensures var completed := GetVisibleTodos(todos, ShowCompleted).value;
      var active := GetVisibleTodos(todos, ShowActive).value;
      && multiset(completed) + multiset(active) == multiset(todos)
      && |completed| + |active| == |todos|
      && multiset(completed) * multiset(active) == multiset{}
  {
    var completed := KeepWhere(todos, true);
    var active := KeepWhere(todos, false);
    assert forall t :: (multiset(completed) + multiset(active))[t] == multiset(todos)[t];
    assert multiset(completed) + multiset(active) == multiset(todos);
    assert forall t :: (multiset(completed) * multiset(active))[t] == 0;
    assert multiset(completed) * multiset(active) == multiset{};
  }
}
