/**
 * Clients of the store and the forms: a user's walk through every handler,
 * toggling twice, using a deleted id, what the add form sends for padded
 * input and what it does with blank input.
 */
module Scenario {
  import opened Base
  import opened JsString
  import opened Todos
  import opened Forms
  import opened AddTodoComponent

  /**
   * A user creates "Buy milk" (low, no due date), toggles it, renames it and
   * deletes it, listing after each step; an intruder cannot toggle it and an
   * anonymous caller lists nothing.
   */
  method Walkthrough(u: UserId, intruder: UserId)
    returns (created: seq<Doc>, toggled: seq<Doc>, edited: seq<Doc>, removed: seq<Doc>,
             anonymous: seq<Doc>, stolen: Result<(), Error>)
    requires u != intruder
    ensures created == [Doc(0, Todo("Buy milk", false, u, Low, None))]
    ensures toggled == [Doc(0, Todo("Buy milk", true, u, Low, None))]
    ensures edited == [Doc(0, Todo("Buy oat milk", true, u, Low, None))]
    ensures removed == []
    ensures anonymous == []
    ensures stolen == Failure(NotFoundOrUnauthorized)
  {
    var store := new Store();
    var r := store.Create(Some(u), NewTodo("Buy milk", Low, None));
    var id := r.value;
    created := store.List(Some(u));
    assert store.todos == map[0 := Todo("Buy milk", false, u, Low, None)] && store.nextId == 1;
    assert created == Owned(store.todos, u, 1);
    anonymous := store.List(None);
    stolen := store.Toggle(Some(intruder), id);
    var ok := store.Toggle(Some(u), id);
    toggled := store.List(Some(u));
    ok := store.Update(Some(u), id, Patch(Some("Buy oat milk"), None, None));
    edited := store.List(Some(u));
    ok := store.Remove(Some(u), id);
    removed := store.List(Some(u));
  }

  /** Two toggles by the owner leave the table as it was. */
  method ToggleTwice(store: Store, caller: Option<UserId>, id: TodoId)
    requires store.Valid()
    modifies store
    ensures store.Valid() && store.todos == old(store.todos) && store.nextId == old(store.nextId)
  {
    var first := store.Toggle(caller, id);
    var second := store.Toggle(caller, id);
    if first.Success? {
      FlipInvolutive(old(store.todos)[id]);
      assert store.todos == old(store.todos)[id := Flip(Flip(old(store.todos)[id]))];
    }
  }

  /** After a successful delete, every guarded handler on that id fails and changes nothing. */
  method UseAfterRemove(store: Store, caller: Option<UserId>, id: TodoId, patch: Patch)
    returns (toggled: Result<(), Error>, updated: Result<(), Error>, removedAgain: Result<(), Error>)
    requires store.Valid()
    modifies store
    ensures store.Valid()
    ensures Authorize(old(store.todos), caller, id).Success? ==>
      toggled == updated == removedAgain == Failure(NotFoundOrUnauthorized) && store.todos == old(store.todos) - {id}
  {
    var removed := store.Remove(caller, id);
    toggled := store.Toggle(caller, id);
    updated := store.Update(caller, id, patch);
    removedAgain := store.Remove(caller, id);
  }

  /** The padding around "Buy milk" is trimmed away, so the form sends "Buy milk". */
  lemma TrimPadded(parse: string -> int)
    ensures Trim("  Buy milk ") == "Buy milk"
    ensures SubmitArgs("  Buy milk ", Medium, "", parse) == Some(NewTodo("Buy milk", Medium, None))
  {
    assert "  Buy milk "[1..] == " Buy milk " && " Buy milk "[1..] == "Buy milk ";
    assert !IsWhitespace('B') && !IsWhitespace('k');
    assert "Buy milk "[..8] == "Buy milk";
  }

  /** The add form refuses "   " and leaves the store and its own fields as they were. */
  method SubmitBlank(u: UserId, parse: string -> int) returns (stored: seq<Doc>, text: string, toast: Toast)
    ensures stored == [] && text == "   "
    ensures toast == ErrorToast("Please enter a todo")
  {
    var store := new Store();
    var form := new AddTodoForm();
    form.text := "   ";
    assert TrimStart("   ") == TrimStart("  ") == TrimStart(" ") == "";
    assert SubmitArgs("   ", Medium, "", parse) == None;
    toast := form.Submit(store, Some(u), parse);
    text := form.text;
    stored := store.List(Some(u));
  }
}
