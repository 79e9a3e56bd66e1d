# Todo store reducer

A model of the todo store of a small React front end
(`src/contexts/TodoContext.tsx`). The store holds `{ todos: Todo[] }`,
starts with an empty list, and changes only by dispatching one of five
actions through a pure reducer:

- `ADD` puts the new todo in front of the list;
- `TOGGLE id` flips `completed` on every item with that id;
- `DELETE id` drops every item with that id;
- `EDIT id title` sets the title of every item with that id;
- `SET_TODOS todos` replaces the list (used once the list has been loaded
  from the hosted database);
- any other tag returns the state unchanged.

The provider component owns the current state (`useReducer`). Through its
context value it gives consumers the list and four commands: `addTodo`,
`toggleTodo`, `deleteTodo` and `editTodo`. A fifth command, `setTodos`, is
internal to the provider; only the bootstrap load calls it, with the list it
fetched. Each command builds exactly one action from its arguments and
dispatches it. The model's public `TodoProvider.SetTodos` stands for that
internal call.

Files:

- `array_methods.dfy` (module `ArrayMethods`): JavaScript's `Array.map` and
  `Array.filter` as recursive functions over sequences. It also holds the
  facts about them the reducer proofs use: filter keeps each passing
  element's multiplicity, distributes over concatenation, is idempotent, keeps everything when everything passes,
  and splits a list into two parts.
- `todo_context.dfy` (module `TodoContext`): the `Todo` record, the state, the
  action vocabulary, `Reducer`, `InitialState`, and the class `TodoProvider`.
  That class holds the state and has one method per command.
- `todo_properties.dfy` (module `TodoProperties`): what each action
  guarantees and how actions combine. ADD then DELETE of a fresh id restores
  the state. TOGGLE twice restores it. DELETE and EDIT are idempotent. TOGGLE
  and EDIT commute. An id no item carries makes TOGGLE, DELETE and EDIT
  no-ops. Every action keeps ids unique when its payload does.

The matching in TOGGLE, DELETE and EDIT is by id over the whole list, as the
code does it with `map` and `filter`. It is not "the first item with that
id". The two differ only when ids repeat, and ADD does not reject a
repeated id, so the model keeps the whole-list behaviour.
`AddKeepsUniqueIdsIffFresh` shows that ADD breaks uniqueness exactly when
the new id is already present.

`Todo.rest` stands for the columns of a todo row other than `id`, `title`
and `completed`. Its type `Rest` is opaque: the model fixes no
representation for those columns (they may be text, timestamps or null) and
only relies on the reducer copying them unchanged with the object spread.
`TodoAction.Unrecognized` stands for an action whose tag is none of the
five, which reaches the reducer's `default` branch.

## Model

| member | source | states |
|---|---|---|
| ArrayMethods.Map | src/contexts/TodoContext.tsx:42-44 | `todos.map(f)` has one result per element, in order: same length, and element `i` is `f` of input element `i` |
| ArrayMethods.Filter | src/contexts/TodoContext.tsx:49 | `todos.filter(p)` is no longer than its input; every result element comes from the input and passes `p`, and every input element that passes `p` is in the result |
| ArrayMethods.FilterMultiplicity | src/contexts/TodoContext.tsx:49 | `filter` keeps every occurrence of an element that passes and none of one that fails: each element occurs in the result exactly as often as in the input when it passes, and not at all otherwise |
| ArrayMethods.FilterConcat | src/contexts/TodoContext.tsx:49 | filtering `a + b` is filtering `a` followed by filtering `b`, so surviving elements keep their original order |
| ArrayMethods.FilterKeepsAll | src/contexts/TodoContext.tsx:49 | when every element passes, `filter` returns its input unchanged |
| ArrayMethods.FilterIdempotent | src/contexts/TodoContext.tsx:49 | filtering twice by the same test equals filtering once |
| ArrayMethods.FilterPartition | src/contexts/TodoContext.tsx:49 | the elements kept by a test and those kept by its negation together number the input's length |
| ArrayMethods.MapFixes | src/contexts/TodoContext.tsx:42-44 | a `map` whose function returns each element unchanged returns its input unchanged |
| TodoContext.InitialState | src/contexts/TodoContext.tsx:9-11 | the initial state has no todos |
| TodoContext.Reducer | src/contexts/TodoContext.tsx:30-65 | ADD grows the list by one with the new todo first; TOGGLE and EDIT keep the length; DELETE never grows the list and leaves no item with the id; SET_TODOS yields exactly its payload; an unrecognised tag returns the state unchanged |
| TodoContext.TodoProvider.constructor | src/contexts/TodoContext.tsx:82 | the provider starts in the initial state, with an empty list |
| TodoContext.TodoProvider.Dispatch | src/contexts/TodoContext.tsx:82 | dispatching replaces the state by the reducer's result for the old state and the action |
| TodoContext.TodoProvider.AddTodo | src/contexts/TodoContext.tsx:84-86 | `addTodo` dispatches one ADD with its todo; the new list is the todo followed by the old list |
| TodoContext.TodoProvider.ToggleTodo | src/contexts/TodoContext.tsx:87-89 | `toggleTodo` dispatches one TOGGLE with its id; item `i` is old item `i` with `completed` flipped when its id matches and unchanged otherwise |
| TodoContext.TodoProvider.DeleteTodo | src/contexts/TodoContext.tsx:90-92 | `deleteTodo` dispatches one DELETE with its id; every remaining item came from the old list and has another id, and every old item with another id remains |
| TodoContext.TodoProvider.EditTodo | src/contexts/TodoContext.tsx:93-95 | `editTodo` dispatches one EDIT with its id and title; item `i` is old item `i` with the new title when its id matches and unchanged otherwise |
| TodoContext.TodoProvider.SetTodos | src/contexts/TodoContext.tsx:98-100 | `setTodos` dispatches one SET_TODOS; the list becomes exactly its argument |
| TodoProperties.AddToInitialState | src/contexts/TodoContext.tsx:9-11 | the store starts with no todos, and the first ADD yields the one-item list holding the new todo |
| TodoProperties.AddPrepends | src/contexts/TodoContext.tsx:35-38 | ADD yields the new todo followed by the old todos in their original order |
| TodoProperties.AddThenDeleteRestores | src/contexts/TodoContext.tsx:35-51 | ADD of a todo whose id no item has, followed by DELETE of that id, gives back the original state |
| TodoProperties.AddKeepsUniqueIdsIffFresh | src/contexts/TodoContext.tsx:35-38 | on a list with unique ids, ADD keeps the ids unique if and only if the new id is not already present |
| TodoProperties.ToggleFlipsMatching | src/contexts/TodoContext.tsx:40-46 | TOGGLE keeps length, order, ids, titles and other fields; it negates `completed` on every item with the id; every other item stays identical |
| TodoProperties.ToggleTwiceRestores | src/contexts/TodoContext.tsx:40-46 | toggling the same id twice gives back the original state |
| TodoProperties.DeleteKeepsOthers | src/contexts/TodoContext.tsx:47-51 | after DELETE no item has the id, and a todo is in the result if and only if it was in the list and has another id |
| TodoProperties.DeleteKeepsOrder | src/contexts/TodoContext.tsx:47-51 | DELETE on `a + b` is DELETE on `a` followed by DELETE on `b`, and a single item survives exactly when its id differs; so survivors keep their original order |
| TodoProperties.DeleteLength | src/contexts/TodoContext.tsx:47-51 | DELETE removes exactly as many items as carry the id, so it shortens the list if and only if some item has the id |
| TodoProperties.DeleteIdempotent | src/contexts/TodoContext.tsx:47-51 | deleting the same id twice equals deleting it once |
| TodoProperties.EditRetitlesMatching | src/contexts/TodoContext.tsx:52-56 | EDIT keeps length, order, ids, `completed` and other fields; it sets the title on every item with the id; every other item stays identical |
| TodoProperties.EditIdempotent | src/contexts/TodoContext.tsx:52-56 | applying the same EDIT twice equals applying it once |
| TodoProperties.ToggleEditCommute | src/contexts/TodoContext.tsx:40-56 | TOGGLE of one id and EDIT of another (or the same) id give the same state in either order |
| TodoProperties.AbsentIdIsNoOp | src/contexts/TodoContext.tsx:40-56 | TOGGLE, DELETE or EDIT with an id that no item carries returns a state equal to the input |
| TodoProperties.SetTodosReplaces | src/contexts/TodoContext.tsx:58-61 | SET_TODOS yields a state whose todos are exactly its payload, whatever the prior state |
| TodoProperties.FilterKeepsUniqueIds | src/contexts/TodoContext.tsx:49 | filtering a list whose ids are unique leaves a list whose ids are unique |
| TodoProperties.ReducerKeepsUniqueIds | src/contexts/TodoContext.tsx:30-65 | every action keeps ids unique, provided an ADD carries a fresh id and a SET_TODOS payload has unique ids |

## Left out

- Loading the list from the hosted database (`loadTodos` and the effect that runs it once, src/contexts/TodoContext.tsx:103-113) is asynchronous I/O with logged errors. It is not modelled. Its only effect on the store is one `setTodos` call, which is modelled.
- `getTodos` (src/services/todoService.ts:5-19) returns `undefined` when the query fails, and `loadTodos` would then pass `undefined` to `setTodos`. The model's SET_TODOS payload is always a list. The undefined case, and the errors a later `map`/`filter` over it would raise, are not modelled.
- `useTodos` (src/contexts/TodoContext.tsx:126-132) is a framework context lookup that throws outside a provider. It is not modelled.
- The rendering of the provider and the publishing of the state to subscribed components are framework behaviour. They are not modelled.
- Todo ids are JavaScript numbers compared with `===`. The model uses mathematical integers, so non-integer and NaN ids are not modelled.
- The `Todo` type's declaration file is not part of this model. Its fields other than `id`, `title` and `completed` are modelled as one value `rest` of the opaque type `Rest`, which every action copies unchanged.
- The shop store (src/features/shop/ShopContext.tsx and its state and hook files) is not modelled. Its reducer lives in a file that is not part of this model, so its transitions cannot be stated from source. The service wrappers, pages and components are not modelled either: they are UI, database calls and authentication.
