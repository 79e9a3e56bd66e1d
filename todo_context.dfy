/**
 * The todo store of the application: the `Todo` record, the store state,
 * the five todo actions, the pure `reducer` that applies one action to a
 * state, the initial state, and the provider that owns the current state
 * and has one command per action.
 */
module TodoContext {
  import opened ArrayMethods

  /**
   * One todo row. `id`, `title` and `completed` are the fields the reducer
   * reads or writes; `rest` stands for every other column of the row
   * (content, timestamps, ...), which the object spread `{ ...item }` copies
   * unchanged.
   */
  datatype Todo = Todo(id: int, title: string, completed: bool, rest: Rest)

  /** The other columns of a todo row, whatever their representation. */
  type Rest(==)

  /** The state held by the store: `{ todos: Todo[] }`. */
  datatype TodosState = TodosState(todos: seq<Todo>)

  /**
   * The action vocabulary. The first five are the `TodoActionType` tags with
   * their payloads; `Unrecognized` stands for any other tag, which reaches
   * the reducer's `default` branch.
   */
  datatype TodoAction =
    | Add(todo: Todo)
    | Delete(id: int)
    | Toggle(id: int)
    | Edit(id: int, title: string)
    | SetTodos(todos: seq<Todo>)
    | Unrecognized(tag: string)

  /** The state the store starts in: no todos. */
  function InitialState(): (s: TodosState)
    ensures |s.todos| == 0
  {
    TodosState([])
  }

  /** True when some todo in `todos` carries `id`. */
  predicate HasId(todos: seq<Todo>, id: int)
  {
    exists i :: 0 <= i < |todos| && todos[i].id == id
  }

  /** No two todos in `todos` share an id. */
  predicate UniqueIds(todos: seq<Todo>)
  {
    forall i, j :: 0 <= i < j < |todos| ==> todos[i].id != todos[j].id
  }

  /** The per-item step of TOGGLE: flip `completed` on a todo with this id. */
  function ToggleMatching(id: int): Todo -> Todo
  {
    (item: Todo) => if item.id == id then item.(completed := !item.completed) else item
  }

  /** The per-item step of EDIT: give a todo with this id the new title. */
  function RetitleMatching(id: int, title: string): Todo -> Todo
  {
    (item: Todo) => if item.id == id then item.(title := title) else item
  }

  /** The test DELETE keeps an item by: its id differs from this one. */
  function IdDiffers(id: int): Todo -> bool
  {
    (item: Todo) => item.id != id
  }

  /**
   * The todo reducer. ADD prepends the new todo; TOGGLE, EDIT and DELETE act
   * on every item whose id matches (there may be several, since ADD does not
   * reject a repeated id) and on no other; SET_TODOS replaces the list; any
   * other tag returns the state unchanged.
   */
  function Reducer(state: TodosState, action: TodoAction): (r: TodosState)
    ensures action.Add? ==> |r.todos| == |state.todos| + 1 && r.todos[0] == action.todo
    ensures action.Toggle? || action.Edit? ==> |r.todos| == |state.todos|
    ensures action.Delete? ==> |r.todos| <= |state.todos| && !HasId(r.todos, action.id)
    ensures action.SetTodos? ==> r.todos == action.todos
    ensures action.Unrecognized? ==> r == state
  {
    match action
    case Add(todo) => state.(todos := [todo] + state.todos)
    case Toggle(id) => state.(todos := Map(ToggleMatching(id), state.todos))
    case Delete(id) => state.(todos := Filter(IdDiffers(id), state.todos))
    case Edit(id, title) => state.(todos := Map(RetitleMatching(id, title), state.todos))
    case SetTodos(todos) => state.(todos := todos)
    case Unrecognized(_) => state
  }

  /**
   * The provider: it owns the current state (`useReducer(reducer,
   * initialState)`) and offers one command per action, each of which builds
   * exactly that action from its arguments and dispatches it once.
   */
  class TodoProvider {
    var state: TodosState

    constructor ()
      ensures state == InitialState() && state.todos == []
    {
      state := InitialState();
    }

    /** Replace the current state by the reducer's result for `action`. */
    method Dispatch(action: TodoAction)
      modifies this
      ensures state == Reducer(old(state), action)
    {
      state := Reducer(state, action);
    }

    method AddTodo(newTodo: Todo)
      modifies this
      ensures state == Reducer(old(state), Add(newTodo))
      ensures state.todos == [newTodo] + old(state.todos)
    {
      Dispatch(Add(newTodo));
    }

    method ToggleTodo(id: int)
      modifies this
      ensures state == Reducer(old(state), Toggle(id))
      ensures |state.todos| == |old(state.todos)|
      ensures forall i :: 0 <= i < |state.todos| ==>
        state.todos[i] == if old(state.todos)[i].id == id
                          then old(state.todos)[i].(completed := !old(state.todos)[i].completed)
                          else old(state.todos)[i]
    {
      Dispatch(Toggle(id));
    }

    method DeleteTodo(id: int)
      modifies this
      ensures state == Reducer(old(state), Delete(id))
      ensures forall i :: 0 <= i < |state.todos| ==> state.todos[i].id != id && state.todos[i] in old(state.todos)
      ensures forall i :: 0 <= i < |old(state.todos)| && old(state.todos)[i].id != id ==>
        old(state.todos)[i] in state.todos
    {
      Dispatch(Delete(id));
    }

    method EditTodo(id: int, editTitle: string)
      modifies this
      ensures state == Reducer(old(state), Edit(id, editTitle))
      ensures |state.todos| == |old(state.todos)|
      ensures forall i :: 0 <= i < |state.todos| ==>
        state.todos[i] == if old(state.todos)[i].id == id
                          then old(state.todos)[i].(title := editTitle)
                          else old(state.todos)[i]
    {
      Dispatch(Edit(id, editTitle));
    }

    method SetTodos(todos: seq<Todo>)
      modifies this
      ensures state == Reducer(old(state), TodoAction.SetTodos(todos))
      ensures state.todos == todos
    {
      Dispatch(TodoAction.SetTodos(todos));
    }
  }
}
