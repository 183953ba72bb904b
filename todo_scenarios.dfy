/** Client code that drives the controller through short sessions, using only
    the handlers' contracts. */
module TodoScenarios {
  import opened JsString
  import opened TodoStore
  import opened TodoController

  /** Duplicating the last of [a, b] puts the copy on top: [b, a, b]. Deleting
      the first of the two equal texts removes only that one. */
  method DuplicateThenDelete(a: string, b: string) {
    var stored := map[StorageKey := TaskArray([a, b])];
    assert LoadTodoItems(stored) == [a, b];
    var app := new TodoApp.Boot(stored, "");
    TextsAt(app.items);
    app.Duplicate(1);
    assert [b] + [a, b] == [b, a, b];
    assert Texts(app.items) == [b, a, b];
    app.Delete(0);
    assert [b, a, b][..0] + [b, a, b][1..] == [a, b];
    assert Texts(app.items) == [a, b];
    assert LoadTodoItems(app.storage) == [a, b];
  }

  /** Deleting the last task shows the placeholder; a blank submission then
      touches nothing. */
  method DeleteLastThenSubmitBlank(x: string, blank: string)
    requires AllWhitespace(blank)
  {
    var app := new TodoApp.Boot(map[StorageKey := TaskArray([x])], "");
    assert !app.placeholderShown;
    app.Delete(0);
    assert app.placeholderShown && LoadTodoItems(app.storage) == [];
    app.TypeInput(blank);
    TrimOfWhitespace(blank);
    app.Submit();
    assert app.items == [] && app.input == blank && app.placeholderShown;
  }

  /** Submitting padded text into an empty list stores the text without its
      padding, clears the input and hides the placeholder. */
  method SubmitIntoEmpty(pad: string, text: string)
    requires AllWhitespace(pad) && NoOuterWhitespace(text) && text != []
  {
    var app := new TodoApp.Boot(map[StorageKey := TaskArray([])], "");
    assert app.placeholderShown;
    app.TypeInput(pad + text + pad);
    TrimUnique(pad, text, pad);
    app.Submit();
    assert Texts(app.items) == [text] && app.input == "" && !app.placeholderShown;
    assert LoadTodoItems(app.storage) == [text];
  }

  /** With nothing stored, the six defaults are shown. An edit that changes
      nothing is not written back, so the slot stays missing; an edit that
      changes a text, ended with Enter, is written back, once. */
  method EditSession(y: string)
    requires y != InitialTasks[0]
  {
    var app := new TodoApp.Boot(map[], "");
    assert Texts(app.items) == InitialTasks;
    app.StartEdit(0);
    app.Blur(0);
    assert StorageKey !in app.storage && app.saves == [];
    app.StartEdit(0);
    app.TypeInto(0, y);
    TextsAt(app.items);
    assert Texts(app.items)[0] == y;
    assert Texts(app.items) != LoadTodoItems(app.storage);
    app.KeyDown(0, "Enter");
    assert |app.saves| == 1;
    assert LoadTodoItems(app.storage) == Texts(app.items);
    TextsAt(app.items);
    assert Texts(app.items)[0] == y;
  }

  /** Enter on an edit that changes nothing writes nothing, as a blur does. */
  method EnterWithoutChange(x: string) {
    var app := new TodoApp.Boot(map[StorageKey := TaskArray([x])], "");
    app.StartEdit(0);
    app.KeyDown(0, "Enter");
    assert app.saves == [] && app.storage == map[StorageKey := TaskArray([x])];
  }
}
