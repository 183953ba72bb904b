# To-do list controller, modelled in Dafny

The repository is a browser to-do list whose only logic is the controller in
`index.js`. It keeps no task array of its own: the rendered list items are
the source of truth, and after each change it reads their texts back
(`getRenderedTasks`) and writes that list to `localStorage` under the key
`todoData` as JSON. This project models that controller with the browser
stripped away, and proves what each event handler does to four pieces of
state:

- the rendered list, a sequence of items, each with a text and an edit-mode flag;
- `localStorage`, a map from keys to stored texts, where each stored text is
  described by what `JSON.parse` makes of it (empty, malformed, or an array
  of strings);
- whether the single "No tasks yet" placeholder is in the document;
- the value of the input field.

Files:

- `js_string.dfy` (module `JsString`): `String.prototype.trim`. There are
  lemmas that `Trim` cuts a string into leading whitespace, a core with no
  whitespace at either end, and trailing whitespace. The cut is unique
  (`TrimUnique`). A trimmed string is empty exactly when the input is all
  whitespace. `Trim` is idempotent.
- `todo_store.dfy` (module `TodoStore`): the default tasks, the storage key,
  `loadTodoItems` and the effect of `saveTodoItems`. It also proves the
  load-after-save round trip and that a save fully overwrites the slot.
- `todo_controller.dfy` (module `TodoController`): `getRenderedTasks` as the
  function `Texts`, and the class `TodoApp`. The constructor `Boot` is the
  page load: initial render, then the empty-state toggle. The methods are the
  event handlers. Each handler's contract gives the new list, the new
  storage, the placeholder flag and the input. `Valid` (the placeholder is
  shown exactly when the list is empty, and the slot holds the most recently
  saved list) holds after every handler. `Synced` (the list `loadTodoItems`
  would return is the rendered list) is established by `Boot`, `Delete`,
  `Duplicate`, `Blur`, Enter and a non-blank `Submit`, and kept by
  `StartEdit`, other keys and a blank `Submit`. A ghost field
  `saves` logs every list passed to `saveTodoItems`, so a contract can say
  whether a handler wrote.
- `todo_scenarios.dfy` (module `TodoScenarios`): short client sessions built
  only from the handlers' contracts. One duplicates the last of `[a, b]` and
  gets `[b, a, b]`, then deletes one of the two equal texts. Others delete the
  last task, submit blank input, submit padded input, and make an edit that
  changes nothing (not written back, whether ended by a blur or by Enter) and
  one that changes a text (written back exactly once).

`TypeInput` and `TypeInto` stand for the browser, not the controller. They
are the user typing into the input field, or into an item whose text is
editable. In the model, only through them can the rendered list come to
differ from the stored one before a blur. So `Synced` is promised after each handler
finishes, not while an edit is in progress.

Two details follow the code exactly. `loadTodoItems` catches parse errors
and falls back to the defaults. The blur handler writes only when the JSON
of the rendered list differs from that of the loaded list.

## Model

| member | source | states |
|---|---|---|
| JsString.IsWhitespace | index.js:129 | the characters `trim` strips: ECMAScript's WhiteSpace and LineTerminator characters |
| JsString.Trim | index.js:129 | `value.trim()`, defined as dropping leading whitespace (`TrimStart`) and then trailing whitespace (`TrimEnd`); its meaning is stated by the lemmas below |
| JsString.TrimStartSuffix | index.js:129 | dropping leading whitespace keeps a suffix of the input |
| JsString.TrimStartCuts | index.js:129 | everything dropped from the front is whitespace, and what is kept does not start with whitespace |
| JsString.TrimEndPrefix | index.js:129 | dropping trailing whitespace keeps a prefix of the input |
| JsString.TrimEndCuts | index.js:129 | everything dropped from the end is whitespace, and what is kept does not end with whitespace |
| JsString.TrimSplits | index.js:129 | the input is leading whitespace, then the trimmed value, then trailing whitespace, and the trimmed value has no whitespace at either end |
| JsString.TrimUnique | index.js:129 | any split of a string into whitespace, a core with no outer whitespace, and whitespace has `Trim` of the string as its core |
| JsString.TrimBlankIff | index.js:129-132 | the trimmed input is empty if and only if every input character is whitespace |
| JsString.TrimIdempotent | index.js:129 | trimming a trimmed value changes nothing |
| TodoStore.Stringify | index.js:27 | `JSON.stringify` of a task list, as the parse outcome it yields: the same list; its properties are `LoadAfterSave` and `StringifyInjective` |
| TodoStore.LoadTodoItems | index.js:15-23 | `loadTodoItems`: the stored array when the slot parses to one, otherwise the six defaults; its cases are `LoadFallsBack` and `LoadReturnsStored` |
| TodoStore.StoreTasks | index.js:26-28 | after a save the key `todoData` holds the JSON of the list |
| TodoStore.StoreTasksFrame | index.js:26-28 | a save adds, removes and changes no key other than `todoData` |
| TodoStore.LoadFallsBack | index.js:15-23 | a missing slot, an empty stored string or an unparseable stored text loads the six default tasks |
| TodoStore.LoadReturnsStored | index.js:17-18 | a stored array is loaded unchanged, so a stored `[]` loads as `[]`, not as the defaults |
| TodoStore.LoadAfterSave | index.js:15-28 | load after save returns the saved list, with order and texts kept, whatever the slot held before |
| TodoStore.SaveOverwrites | index.js:26-28 | the storage after a save does not depend on what the slot held before |
| TodoStore.StringifyInjective | index.js:96 | two lists have equal JSON texts if and only if they are equal |
| TodoController.CreateTodoElement | index.js:56-61 | a new list item showing the given text, not editable; event listeners are not modelled |
| TodoController.Texts | index.js:31-34 | one text per rendered item |
| TodoController.TextsAt | index.js:31-34 | the text at each position is the text content of the item at that position, so order is kept |
| TodoController.TextsConcat | index.js:31-34 | the texts of two runs of items rendered one after the other are the two runs' texts one after the other |
| TodoController.TextsRemove | index.js:31-34 | removing the item at `i` removes exactly the text at `i` from the rendered texts |
| TodoController.TextsUpdate | index.js:31-34 | replacing the item at `i` replaces only the text at `i`; an item that keeps its text leaves the rendered texts unchanged |
| TodoController.RemoveOne | index.js:68-70 | removing position `i` shortens the list by one and removes exactly one occurrence of the text at `i` |
| TodoController.TodoApp.Boot | index.js:117-123 | the initial render shows the loaded tasks in their stored order, none editable; nothing is saved; the input keeps the value it was given; the placeholder is shown exactly when nothing was loaded; stored and rendered lists agree |
| TodoController.TodoApp.SaveTodoItems | index.js:26-28 | the storage slot is overwritten with the list, the write is logged, and loading afterwards returns exactly that list |
| TodoController.TodoApp.ToggleEmptyState | index.js:44-53 | afterwards the placeholder is shown if and only if no task is rendered; it changes nothing else, so a second call changes nothing |
| TodoController.TodoApp.Delete | index.js:68-72 | the item at `i` is removed and the others keep their order; the new list is saved; the placeholder is shown iff the list is now empty; the input is unchanged |
| TodoController.TodoApp.Duplicate | index.js:75-80 | a copy of item `i`'s current text goes to the top, so the list is `[text] + old`; the new list is saved; the placeholder is hidden |
| TodoController.TodoApp.StartEdit | index.js:83-86 | item `i` becomes editable; texts, storage, placeholder and input are unchanged, so stored and rendered lists still agree if they did |
| TodoController.TodoApp.Blur | index.js:89-99 | item `i` leaves edit mode; if the rendered list equals the loaded list nothing is written, otherwise it is saved; either way the stored list equals the rendered list afterwards; the placeholder is not touched |
| TodoController.TodoApp.KeyDown | index.js:102-107 | Enter behaves as a blur of item `i`: edit mode ends, nothing is written when the rendered list equals the loaded one, otherwise it is saved, and the lists agree afterwards; any other key changes nothing |
| TodoController.TodoApp.Submit | index.js:126-139 | all-whitespace input changes nothing (list, storage, placeholder, input); otherwise the trimmed input goes to the top, the new list is saved, the placeholder is hidden and the input is cleared |

## Left out

- DOM mechanics: cloning the template, `querySelector`, registering listeners,
  `focus`, and the placeholder's inline styles. An item is reduced to its
  text and its `contentEditable` flag, and the placeholder to one boolean.
  It is one node moved by `after`, so a boolean also captures "shown at most
  once".
- The `todoList.contains(emptyMessage)` test is always false, because the
  placeholder is a sibling of the list. `ToggleEmptyState` models only its
  outcome (shown if and only if the list is empty).
- JSON encoding itself. A stored text is described by its parse
  outcome (`Entry`). `JSON.stringify` of a list is the entry holding that list,
  so the model takes as given that strings round-trip and that the encoding
  is injective.
- Stored JSON that parses to something other than an array of strings
  (`null`, a number, an object, an array holding non-strings). The source
  does not guard against it: the initial `forEach` would throw, or the texts
  would be converted. The model makes no claim about it.
- `localStorage` failures: a quota or disabled-storage error on write is
  unhandled in the source. A read failure is caught by the same `try` and
  falls back to the defaults. Storage is always available here.
- The initial value of the input field comes from the page's HTML or the
  browser's form restoration, not from `index.js`; `Boot` takes it as a
  parameter. `Boot` starts from an empty list, so it assumes that the list is
  empty in the page's HTML and that no other `.to-do__item-text` element is on
  the page (`getRenderedTasks` reads every such element in the document).
- Focus: a browser lets only one item have focus, so starting an edit of
  another item first blurs the one being edited. The model does not enforce
  this order; `StartEdit` and `TypeInto` may be called on any item. Likewise,
  clicking Delete, Duplicate or the submit button while an item is being
  edited blurs that item first in a browser, so its blur write happens before
  the handler runs. The model lets `Delete`, `Duplicate` and `Submit` run while
  an item is still editable, with no `Blur` first. For `Delete`, `Duplicate`
  and a non-blank `Submit`, the final texts and storage are the same either
  way; only the edit flag and the log of saves differ. A blank `Submit` writes
  nothing, so in the browser the slot keeps the edited list written by the
  preceding blur. The model gets that outcome only when `Blur(i)` is called
  before `Submit()`; without it, the slot keeps the list from before the edit.
- Writes to `todoData` from outside this page (another tab or window of the
  same origin, or the user clearing site data). The model assumes that only
  these handlers change storage. The source does not listen for `storage`
  events, so such a write can make `loadTodoItems` differ from the rendered
  list with no typing at all, and `Synced` is then not kept.
- `preventDefault` and the newline it suppresses on Enter. `KeyDown` models
  Enter simply as a blur.
- JavaScript strings are UTF-16 code units. Here they are sequences of Dafny
  `char`s (Unicode scalar values). `IsWhitespace` lists ECMAScript's
  WhiteSpace and LineTerminator characters with the Unicode Zs category as
  of Unicode 15. The lemmas about `Trim` hold for any whitespace predicate.
- Structure that `contentEditable` may add to an edited text (line breaks,
  nested elements): an edit replaces the item's text string.
