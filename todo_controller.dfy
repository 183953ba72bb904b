/** The to-do list controller: the rendered list, the storage slot, the
    "No tasks yet" placeholder and the input field, and the event handlers
    that change them. The rendered list is the source of truth; after every
    handler that finishes, the stored list equals the rendered one. */
module TodoController {
  import opened JsString
  import opened TodoStore

  /** One rendered `.to-do__item`: its text node's content and whether that
      node is `contentEditable`. */
  datatype TodoItem = TodoItem(text: string, editable: bool)

  /** `createTodoElement(text)` without its listeners: a fresh item showing
      `text`, not in edit mode. */
  function CreateTodoElement(text: string): (r: TodoItem) {
    TodoItem(text, false)
  }

  /** `getRenderedTasks`: the texts of the rendered items, top to bottom. */
  function Texts(items: seq<TodoItem>): (r: seq<string>)
    ensures |r| == |items|
  {
    if items == [] then [] else [items[0].text] + Texts(items[1..])
  }

  /** The rendered texts are the items' texts, one per item, in order. */
  lemma {:induction false} TextsAt(items: seq<TodoItem>)
    ensures forall k :: 0 <= k < |items| ==> Texts(items)[k] == items[k].text
  {
    if items != [] {
      TextsAt(items[1..]);
    }
  }

  /** Rendering two runs of items one after the other renders their texts one
      after the other. */
  lemma {:induction false} TextsConcat(a: seq<TodoItem>, b: seq<TodoItem>)
    ensures Texts(a + b) == Texts(a) + Texts(b)
  {
    if a != [] {
      assert (a + b)[0] == a[0] && (a + b)[1..] == a[1..] + b;
      TextsConcat(a[1..], b);
      assert Texts(a + b) == [a[0].text] + (Texts(a[1..]) + Texts(b));
    } else {
      assert a + b == b;
    }
  }

  /** Removing the item at `i` removes its text from the rendered texts. */
  lemma TextsRemove(items: seq<TodoItem>, i: nat)
    requires i < |items|
    ensures Texts(items[..i] + items[i + 1..]) == Texts(items)[..i] + Texts(items)[i + 1..]
  {
    TextsConcat(items[..i], items[i + 1..]);
    TextsAt(items);
    TextsAt(items[..i]);
    TextsAt(items[i + 1..]);
    assert Texts(items[..i]) == Texts(items)[..i];
    assert Texts(items[i + 1..]) == Texts(items)[i + 1..];
  }

  /** Replacing the item at `i` replaces only its text; in particular an
      item that keeps its text leaves the rendered texts as they were. */
  lemma TextsUpdate(items: seq<TodoItem>, i: nat, item: TodoItem)
    requires i < |items|
    ensures Texts(items[i := item]) == Texts(items)[i := item.text]
    ensures item.text == items[i].text ==> Texts(items[i := item]) == Texts(items)
  {
    TextsAt(items);
    TextsAt(items[i := item]);
  }

  /** Removing the item at `i` removes exactly one occurrence of its text and
      keeps the other texts in their order. */
  lemma RemoveOne(s: seq<string>, i: nat)
    requires i < |s|
    ensures |s[..i] + s[i + 1..]| == |s| - 1
    ensures multiset(s[..i] + s[i + 1..]) + multiset{s[i]} == multiset(s)
  {
    assert s == s[..i] + [s[i]] + s[i + 1..];
  }

  class TodoApp {
    /** The items of `.to-do__list`, top to bottom. */
    var items: seq<TodoItem>
    /** `localStorage`. */
    var storage: Storage
    /** Whether the "No tasks yet" paragraph is in the document. */
    var placeholderShown: bool
    /** `todoInput.value`. */
    var input: string
    /** Every list passed to `saveTodoItems` so far, oldest first. */
    ghost var saves: seq<seq<string>>

    /** The invariant every handler re-establishes: the placeholder is shown
        exactly when no task is rendered, and the slot holds the list of the
        most recent save. */
    ghost predicate Valid()
      reads this
    {
      (placeholderShown <==> items == [])
      && (saves != [] ==> StorageKey in storage && storage[StorageKey] == Stringify(saves[|saves| - 1]))
    }

    /** The stored list, as `loadTodoItems` reads it, is the rendered list. */
    ghost predicate Synced()
      reads this
    {
      LoadTodoItems(storage) == Texts(items)
    }

    /** Page load with `localStorage` holding `stored` and the input field
        showing `initialInput` (the controller never sets it at load): the
        initial render appends one item per loaded task in their stored order,
        then the placeholder is toggled. Nothing is saved. */
    constructor Boot(stored: Storage, initialInput: string)
      ensures Texts(items) == LoadTodoItems(stored)
      ensures forall k :: 0 <= k < |items| ==> !items[k].editable
      ensures storage == stored && saves == [] && input == initialInput
      ensures placeholderShown == (items == [])
      ensures Valid() && Synced()
    {
      items := [];
      storage := stored;
      placeholderShown := false;
      input := initialInput;
      saves := [];
      new;
      var tasks := LoadTodoItems(storage);
      for k := 0 to |tasks|
        invariant Texts(items) == tasks[..k]
        invariant forall j :: 0 <= j < |items| ==> !items[j].editable
        invariant storage == stored && saves == [] && input == initialInput
      {
        var item := CreateTodoElement(tasks[k]);
        TextsConcat(items, [item]);
        assert tasks[..k + 1] == tasks[..k] + [tasks[k]];
        items := items + [item];
      }
      assert tasks[..|tasks|] == tasks;
      ToggleEmptyState();
    }

    /** `saveTodoItems(taskList)`: overwrites the slot with the list. */
    method SaveTodoItems(taskList: seq<string>)
      modifies this`storage, this`saves
      ensures storage == StoreTasks(old(storage), taskList)
      ensures saves == old(saves) + [taskList]
      ensures LoadTodoItems(storage) == taskList
    {
      storage := StoreTasks(storage, taskList);
      saves := saves + [taskList];
      LoadAfterSave(old(storage), taskList);
    }

    /** `toggleEmptyState`: shows the single placeholder when no task is
        rendered and removes it otherwise. */
    method ToggleEmptyState()
      modifies this`placeholderShown
      ensures placeholderShown == (|Texts(items)| == 0)
    {
      var tasks := Texts(items);
      if |tasks| == 0 {
        // `todoList.contains(emptyMessage)` is always false: the placeholder
        // is inserted after the list, not into it. `after` moves the one
        // node, so it is shown once however often this runs.
        placeholderShown := true;
      } else {
        placeholderShown := false;
      }
    }

    /** The delete button of item `i`: the item is removed, the remaining
        list saved and the placeholder toggled. */
    method Delete(i: nat)
      requires Valid() && i < |items|
      modifies this`items, this`storage, this`saves, this`placeholderShown
      ensures Valid() && Synced()
      ensures items == old(items[..i] + items[i + 1..])
      ensures Texts(items) == old(Texts(items)[..i] + Texts(items)[i + 1..])
      ensures saves == old(saves) + [Texts(items)]
      ensures storage == StoreTasks(old(storage), Texts(items))
      ensures placeholderShown == (items == [])
    {
      ghost var before := Texts(items);
      TextsRemove(items, i);
      items := items[..i] + items[i + 1..];
      var tasks := Texts(items);
      assert tasks == before[..i] + before[i + 1..];
      SaveTodoItems(tasks);
      ToggleEmptyState();
    }

    /** The duplicate button of item `i`: a copy showing the item's current
        text is put at the top of the list (not next to the original), the
        list saved and the placeholder toggled. */
    method Duplicate(i: nat)
      requires Valid() && i < |items|
      modifies this`items, this`storage, this`saves, this`placeholderShown
      ensures Valid() && Synced()
      ensures items == [CreateTodoElement(old(items[i].text))] + old(items)
      ensures Texts(items) == [old(items[i].text)] + old(Texts(items))
      ensures saves == old(saves) + [Texts(items)]
      ensures storage == StoreTasks(old(storage), Texts(items))
      ensures placeholderShown == false
    {
      var duplicated := CreateTodoElement(items[i].text);
      TextsConcat([duplicated], items);
      items := [duplicated] + items;
      var tasks := Texts(items);
      SaveTodoItems(tasks);
      ToggleEmptyState();
    }

    /** The edit button of item `i`: its text becomes editable. */
    method StartEdit(i: nat)
      requires Valid() && i < |items|
      modifies this`items
      ensures Valid() && (old(Synced()) ==> Synced())
      ensures items == old(items[i := items[i].(editable := true)])
      ensures Texts(items) == old(Texts(items))
    {
      TextsUpdate(items, i, items[i].(editable := true));
      items := items[i := items[i].(editable := true)];
    }

    /** The browser, not the controller: typing into item `i` while it is
        editable replaces its text in place. */
    method TypeInto(i: nat, text: string)
      requires Valid() && i < |items| && items[i].editable
      modifies this`items
      ensures Valid()
      ensures items == old(items[i := items[i].(text := text)])
    {
      items := items[i := items[i].(text := text)];
    }

    /** Item `i` losing focus: editing ends, and the rendered list is saved
        only when its JSON text differs from that of the loaded list. Either
        way the stored list is the rendered one afterwards. */
    method Blur(i: nat)
      requires Valid() && i < |items|
      modifies this`items, this`storage, this`saves
      ensures Valid() && Synced()
      ensures items == old(items[i := items[i].(editable := false)])
      ensures Texts(items) == old(Texts(items))
      ensures old(Texts(items)) == old(LoadTodoItems(storage)) ==>
                storage == old(storage) && saves == old(saves)
      ensures old(Texts(items)) != old(LoadTodoItems(storage)) ==>
                storage == StoreTasks(old(storage), Texts(items)) && saves == old(saves) + [Texts(items)]
    {
      TextsUpdate(items, i, items[i].(editable := false));
      items := items[i := items[i].(editable := false)];
      var updatedTasks := Texts(items);
      var savedTasks := LoadTodoItems(storage);
      StringifyInjective(updatedTasks, savedTasks);
      if Stringify(updatedTasks) != Stringify(savedTasks) {
        SaveTodoItems(updatedTasks);
      }
    }

    /** A key press in item `i`'s text: Enter ends editing as a blur does;
        any other key is left to the browser. */
    method KeyDown(i: nat, key: string)
      requires Valid() && i < |items|
      modifies this`items, this`storage, this`saves
      ensures Valid()
      ensures key == "Enter" ==> Synced() && items == old(items[i := items[i].(editable := false)])
      ensures key == "Enter" && old(Texts(items)) == old(LoadTodoItems(storage)) ==>
                storage == old(storage) && saves == old(saves)
      ensures key == "Enter" && old(Texts(items)) != old(LoadTodoItems(storage)) ==>
                storage == StoreTasks(old(storage), Texts(items)) && saves == old(saves) + [Texts(items)]
      ensures key != "Enter" ==> items == old(items) && storage == old(storage) && saves == old(saves)
      ensures key != "Enter" && old(Synced()) ==> Synced()
      ensures Texts(items) == old(Texts(items))
    {
      if key == "Enter" {
        Blur(i);
      }
    }

    /** The browser, not the controller: the user types into the input field. */
    method TypeInput(value: string)
      requires Valid()
      modifies this`input
      ensures Valid() && input == value
    {
      input := value;
    }

    /** Form submission: the trimmed input, unless blank, becomes a new item at
        the top, the list is saved, the placeholder toggled and the input
        cleared. Blank input changes nothing at all. */
    method Submit()
      requires Valid()
      modifies this
      ensures Valid()
      ensures Trim(old(input)) == [] && old(Synced()) ==> Synced()
      ensures Trim(old(input)) == [] ==>
                items == old(items) && storage == old(storage) && saves == old(saves)
                && input == old(input) && placeholderShown == old(placeholderShown)
      ensures Trim(old(input)) != [] ==>
                items == [CreateTodoElement(Trim(old(input)))] + old(items)
                && Texts(items) == [Trim(old(input))] + old(Texts(items))
                && saves == old(saves) + [Texts(items)]
                && storage == StoreTasks(old(storage), Texts(items))
                && placeholderShown == false && input == "" && Synced()
    {
      var value := Trim(input);
      if |value| != 0 {
        var item := CreateTodoElement(value);
        TextsConcat([item], items);
        items := [item] + items;
        var tasks := Texts(items);
        SaveTodoItems(tasks);
        ToggleEmptyState();
        input := "";
      }
    }
  }
}
