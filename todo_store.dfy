/** Persistence of the task list in the browser's `localStorage`: one slot
    under a fixed key holds the JSON text of the list. */
module TodoStore {

  /** The key of the slot that holds the task list. */
  const StorageKey: string := "todoData"

  /** The six sample tasks shown when nothing usable is stored. */
  const InitialTasks: seq<string> := [
    "Review pending items",
    "Respond to messages",
    "Work on priority tasks",
    "Take a short break",
    "Do something active",
    "Watch something for fun"
  ]

  /** A stored text, described by what `JSON.parse` makes of it. */
  datatype Entry =
    | EmptyText                   // "": falsy, so it is never parsed
    | Malformed                   // a non-empty text on which `JSON.parse` throws
    | TaskArray(tasks: seq<string>) // a text that parses to this array of strings

  /** `localStorage`: a string-keyed store; a key that is not in the map is
      one for which `getItem` returns `null`. */
  type Storage = map<string, Entry>

  /** `JSON.stringify` of a list of task texts. It never yields "" (the
      shortest encoding is "[]") and encodes distinct lists as distinct texts,
      which `JSON.parse` reads back as the same list. */
  function Stringify(tasks: seq<string>): (r: Entry) {
    TaskArray(tasks)
  }

  /** `loadTodoItems`: the stored list when the slot holds one, the six
      defaults when the slot is missing, empty or unparseable. */
  function LoadTodoItems(storage: Storage): (r: seq<string>) {
    if StorageKey in storage then
      match storage[StorageKey]
      case EmptyText => InitialTasks
      case Malformed => InitialTasks
      case TaskArray(tasks) => tasks
    else
      InitialTasks
  }

  /** The state of `localStorage` after `saveTodoItems(tasks)`, that is after
      `setItem(StorageKey, JSON.stringify(tasks))`. */
  function StoreTasks(storage: Storage, tasks: seq<string>): (r: Storage)
    ensures StorageKey in r && r[StorageKey] == Stringify(tasks)
  {
    storage[StorageKey := Stringify(tasks)]
  }

  /** A save touches no key but `todoData`. */
  lemma StoreTasksFrame(storage: Storage, tasks: seq<string>, key: string)
    requires key != StorageKey
    ensures key in StoreTasks(storage, tasks) <==> key in storage
    ensures key in storage ==> StoreTasks(storage, tasks)[key] == storage[key]
  {
  }

  /** Load falls back to the defaults whenever the slot is missing, empty
      or unparseable. */
  lemma LoadFallsBack(storage: Storage)
    requires StorageKey !in storage || storage[StorageKey] == EmptyText
             || storage[StorageKey] == Malformed
    ensures LoadTodoItems(storage) == InitialTasks
  {
  }

  /** A stored list is returned unchanged, even the empty list: `[]` is stored
      as the non-empty text "[]", so it does not bring the defaults back. */
  lemma LoadReturnsStored(storage: Storage)
    requires StorageKey in storage && storage[StorageKey].TaskArray?
    ensures LoadTodoItems(storage) == storage[StorageKey].tasks
  {
  }

  /** Round trip: whatever the slot held before, loading after a save returns
      the saved list with its order and texts. */
  lemma LoadAfterSave(storage: Storage, tasks: seq<string>)
    ensures LoadTodoItems(StoreTasks(storage, tasks)) == tasks
  {
  }

  /** A save overwrites the slot completely: the result does not depend on
      what was stored under the key before. */
  lemma SaveOverwrites(s1: Storage, s2: Storage, tasks: seq<string>)
    requires forall key :: key != StorageKey ==> (key in s1 <==> key in s2)
    requires forall key :: key != StorageKey && key in s1 ==> s1[key] == s2[key]
    ensures StoreTasks(s1, tasks) == StoreTasks(s2, tasks)
  {
    var r1, r2 := StoreTasks(s1, tasks), StoreTasks(s2, tasks);
    assert r1.Keys == r2.Keys;
  }

  /** Two lists have the same JSON text exactly when they are equal, so
      comparing encodings is comparing lists. */
  lemma StringifyInjective(a: seq<string>, b: seq<string>)
    ensures Stringify(a) == Stringify(b) <==> a == b
  {
  }
}
