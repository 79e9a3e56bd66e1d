/**
 * What the todo reducer guarantees, action by action, and how the actions
 * relate to each other: ADD prepends and DELETE of a fresh id undoes it,
 * TOGGLE is its own inverse, DELETE and EDIT are idempotent, an id that no
 * item carries makes TOGGLE, DELETE and EDIT no-ops, and every action keeps
 * ids unique when its payload does.
 */
module TodoProperties {
  import opened ArrayMethods
  import opened TodoContext

  /** The store starts empty, and the first ADD yields a one-item list. */
  lemma AddToInitialState(t: Todo)
    ensures InitialState().todos == []
    ensures Reducer(InitialState(), Add(t)).todos == [t]
  {
  }

  /** ADD puts the new todo first and keeps the old ones after it, in order. */
  lemma AddPrepends(s: TodosState, t: Todo)
    ensures Reducer(s, Add(t)).todos == [t] + s.todos
  {
  }

  /** Adding a todo with an id no item has, then deleting that id, restores the state. */
  lemma AddThenDeleteRestores(s: TodosState, t: Todo)
    requires !HasId(s.todos, t.id)
    ensures Reducer(Reducer(s, Add(t)), Delete(t.id)) == s
  {
    FilterConcat(IdDiffers(t.id), [t], s.todos);
    FilterKeepsAll(IdDiffers(t.id), s.todos);
  }

  /** On a list with unique ids, ADD keeps them unique exactly when the new id is fresh. */
  lemma AddKeepsUniqueIdsIffFresh(s: TodosState, t: Todo)
    requires UniqueIds(s.todos)
    ensures UniqueIds(Reducer(s, Add(t)).todos) <==> !HasId(s.todos, t.id)
  {
    var r := Reducer(s, Add(t)).todos;
    if HasId(s.todos, t.id) {
      var k :| 0 <= k < |s.todos| && s.todos[k].id == t.id;
      assert r[0].id == r[k + 1].id;
    } else {
      forall i, j | 0 <= i < j < |r| ensures r[i].id != r[j].id {
        if i == 0 {
          assert r[j] == s.todos[j - 1];
        } else {
          assert r[i] == s.todos[i - 1] && r[j] == s.todos[j - 1];
        }
      }
    }
  }

  /**
   * TOGGLE keeps length and order and touches only `completed`: it flips it
   * on every item with the id and leaves every other item identical.
   */
  lemma ToggleFlipsMatching(s: TodosState, id: int)
    ensures |Reducer(s, Toggle(id)).todos| == |s.todos|
    ensures forall i :: 0 <= i < |s.todos| ==>
      var before, after := s.todos[i], Reducer(s, Toggle(id)).todos[i];
      after.id == before.id && after.title == before.title && after.rest == before.rest &&
      after.completed == (if before.id == id then !before.completed else before.completed)
    ensures forall i :: 0 <= i < |s.todos| && s.todos[i].id != id ==>
      Reducer(s, Toggle(id)).todos[i] == s.todos[i]
  {
  }

  /** Toggling the same id twice restores the original list. */
  lemma ToggleTwiceRestores(s: TodosState, id: int)
    ensures Reducer(Reducer(s, Toggle(id)), Toggle(id)) == s
  {
  }

  /** DELETE leaves exactly the items whose id differs, and nothing with the id. */
  lemma DeleteKeepsOthers(s: TodosState, id: int)
    ensures !HasId(Reducer(s, Delete(id)).todos, id)
    ensures forall x :: x in Reducer(s, Delete(id)).todos <==> x in s.todos && x.id != id
  {
  }

  /**
   * DELETE keeps the surviving items in their original order: it acts on
   * each part of a list separately, keeping a single item exactly when its
   * id differs.
   */
  lemma DeleteKeepsOrder(a: seq<Todo>, b: seq<Todo>, id: int)
    ensures Reducer(TodosState(a + b), Delete(id)).todos ==
            Reducer(TodosState(a), Delete(id)).todos + Reducer(TodosState(b), Delete(id)).todos
    ensures forall x :: Reducer(TodosState([x]), Delete(id)).todos == if x.id == id then [] else [x]
  {
    FilterConcat(IdDiffers(id), a, b);
  }

  /** DELETE removes as many items as carry the id, so it shrinks the list exactly when one does. */
  lemma DeleteLength(s: TodosState, id: int)
    ensures |Reducer(s, Delete(id)).todos| + |Filter(Not(IdDiffers(id)), s.todos)| == |s.todos|
    ensures |Reducer(s, Delete(id)).todos| < |s.todos| <==> HasId(s.todos, id)
  {
    FilterPartition(IdDiffers(id), s.todos);
    var gone := Filter(Not(IdDiffers(id)), s.todos);
    if HasId(s.todos, id) {
      var k :| 0 <= k < |s.todos| && s.todos[k].id == id;
      assert Not(IdDiffers(id))(s.todos[k]);
      assert s.todos[k] in gone;
    }
    if gone != [] {
      assert Not(IdDiffers(id))(gone[0]) && gone[0] in s.todos;
      var k :| 0 <= k < |s.todos| && s.todos[k] == gone[0];
      assert HasId(s.todos, id);
    }
  }

  /** Deleting the same id twice equals deleting it once. */
  lemma DeleteIdempotent(s: TodosState, id: int)
    ensures Reducer(Reducer(s, Delete(id)), Delete(id)) == Reducer(s, Delete(id))
  {
    FilterIdempotent(IdDiffers(id), s.todos);
  }

  /**
   * EDIT keeps length, order, ids, `completed` and the other fields, sets the
   * title on every item with the id, and leaves every other item identical.
   */
  lemma EditRetitlesMatching(s: TodosState, id: int, title: string)
    ensures |Reducer(s, Edit(id, title)).todos| == |s.todos|
    ensures forall i :: 0 <= i < |s.todos| ==>
      var before, after := s.todos[i], Reducer(s, Edit(id, title)).todos[i];
      after.id == before.id && after.completed == before.completed && after.rest == before.rest &&
      after.title == (if before.id == id then title else before.title)
    ensures forall i :: 0 <= i < |s.todos| && s.todos[i].id != id ==>
      Reducer(s, Edit(id, title)).todos[i] == s.todos[i]
  {
  }

  /** Applying the same edit twice equals applying it once. */
  lemma EditIdempotent(s: TodosState, id: int, title: string)
    ensures Reducer(Reducer(s, Edit(id, title)), Edit(id, title)) == Reducer(s, Edit(id, title))
  {
  }

  /** TOGGLE and EDIT touch different fields, so their order does not matter. */
  lemma ToggleEditCommute(s: TodosState, toggled: int, edited: int, title: string)
    ensures Reducer(Reducer(s, Toggle(toggled)), Edit(edited, title)) ==
            Reducer(Reducer(s, Edit(edited, title)), Toggle(toggled))
  {
  }

  /** TOGGLE, DELETE and EDIT with an id that no item carries return the state unchanged. */
  lemma AbsentIdIsNoOp(s: TodosState, action: TodoAction)
    requires action.Toggle? || action.Delete? || action.Edit?
    requires !HasId(s.todos, action.id)
    ensures Reducer(s, action) == s
  {
    match action
    case Toggle(id) =>
      MapFixes(ToggleMatching(id), s.todos);
    case Delete(id) =>
      FilterKeepsAll(IdDiffers(id), s.todos);
    case Edit(id, title) =>
      MapFixes(RetitleMatching(id, title), s.todos);
  }

  /** SET_TODOS yields exactly its payload, whatever the prior state. */
  lemma SetTodosReplaces(s: TodosState, other: TodosState, todos: seq<Todo>)
    ensures Reducer(s, SetTodos(todos)) == TodosState(todos)
    ensures Reducer(s, SetTodos(todos)) == Reducer(other, SetTodos(todos))
  {
  }

  /** Filtering a list whose ids are unique keeps them unique. */
  lemma {:induction false} FilterKeepsUniqueIds(p: Todo -> bool, todos: seq<Todo>)
    requires UniqueIds(todos)
    ensures UniqueIds(Filter(p, todos))
  {
    if todos != [] {
      var tail := todos[1..];
      assert UniqueIds(tail) by {
        forall i, j | 0 <= i < j < |tail| ensures tail[i].id != tail[j].id {
          assert tail[i] == todos[i + 1] && tail[j] == todos[j + 1];
        }
      }
      FilterKeepsUniqueIds(p, tail);
      var kept := Filter(p, tail);
      if p(todos[0]) {
        var r := [todos[0]] + kept;
        forall i, j | 0 <= i < j < |r| ensures r[i].id != r[j].id {
          if i == 0 {
            assert r[j] == kept[j - 1] && kept[j - 1] in tail;
            var k :| 0 <= k < |tail| && tail[k] == kept[j - 1];
            assert todos[k + 1] == tail[k];
          } else {
            assert r[i] == kept[i - 1] && r[j] == kept[j - 1];
          }
        }
      }
    }
  }

  /**
   * Every action keeps ids unique, provided its payload does not bring a
   * clash in: ADD must carry a fresh id and SET_TODOS a list with unique ids.
   */
  lemma ReducerKeepsUniqueIds(s: TodosState, action: TodoAction)
    requires UniqueIds(s.todos)
    requires action.Add? ==> !HasId(s.todos, action.todo.id)
    requires action.SetTodos? ==> UniqueIds(action.todos)
    ensures UniqueIds(Reducer(s, action).todos)
  {
    match action
    case Add(t) =>
      AddKeepsUniqueIdsIffFresh(s, t);
    case Delete(id) =>
      FilterKeepsUniqueIds(IdDiffers(id), s.todos);
    case Toggle(id) =>
      ToggleFlipsMatching(s, id);
    case Edit(id, title) =>
      EditRetitlesMatching(s, id, title);
    case SetTodos(_) =>
    case Unrecognized(_) =>
  }
}
