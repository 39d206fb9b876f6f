/**
 * The add form: its four state fields, the submit guard, the arguments it
 * passes to `create` and the reset after a successful create.
 */
module AddTodoComponent {
  import opened Base
  import opened JsString
  import opened Todos
  import opened Forms

  /**
   * The arguments `handleSubmit` passes to `create`: nothing when the text
   * trims to the empty string; otherwise the trimmed text, the priority and
   * the due date only when the date input is not empty.
   */
  function SubmitArgs(text: string, priority: Priority, dueDate: string, parse: string -> int): (a: Option<NewTodo>)
    ensures a.None? <==> Blank(text)
    ensures a.Some? ==> a.value.text == Trim(text) && !Blank(a.value.text)
    ensures a.Some? ==> a.value.priority == priority
    ensures a.Some? ==> (a.value.dueDate.None? <==> dueDate == "")
    ensures a.Some? && dueDate != "" ==> a.value.dueDate == Some(parse(dueDate))
  {
    TrimEmptyIffBlank(text);
    if Trim(text) == "" then None
    else
      TrimmedIsNotBlank(text);
      Some(NewTodo(Trim(text), priority, DueDateArg(dueDate, parse)))
  }

  class AddTodoForm {
    var text: string
    var priority: Priority
    var dueDate: string
    var isExpanded: bool

    /** The fields after mounting and after every successful submit. */
    predicate IsReset()
      reads this
    {
      text == "" && priority == Medium && dueDate == "" && !isExpanded
    }

    constructor ()
      ensures IsReset()
    {
      text := "";
      priority := Medium;
      dueDate := "";
      isExpanded := false;
    }

    /** Focusing the text input opens the priority and date row. */
    method Expand()
      modifies this`isExpanded
      ensures isExpanded
    {
      isExpanded := true;
    }

    /** The form's cancel button closes that row and keeps what was typed. */
    method Collapse()
      modifies this`isExpanded
      ensures !isExpanded
    {
      isExpanded := false;
    }

    /**
     * `handleSubmit`: a blank text stops before `create` is called; a
     * successful create resets the form; a failed one keeps every field.
     * Whatever happens, no blank text reaches the store.
     */
    method Submit(store: Store, caller: Option<UserId>, parse: string -> int) returns (toast: Toast)
      requires store.Valid()
      modifies this, store
      ensures store.Valid()
      ensures SubmitArgs(old(text), old(priority), old(dueDate), parse).None? ==>
        toast == ErrorToast("Please enter a todo") && unchanged(this) && store.todos == old(store.todos) && store.nextId == old(store.nextId)
      ensures SubmitArgs(old(text), old(priority), old(dueDate), parse).Some? && caller.None? ==>
        toast == ErrorToast("Failed to add todo") && unchanged(this) && store.todos == old(store.todos) && store.nextId == old(store.nextId)
      ensures SubmitArgs(old(text), old(priority), old(dueDate), parse).Some? && caller.Some? ==>
        var a := SubmitArgs(old(text), old(priority), old(dueDate), parse).value;
        toast == Info("Todo added!") && IsReset() && store.nextId == old(store.nextId) + 1 &&
        store.todos == old(store.todos)[old(store.nextId) := Todo(a.text, false, caller.value, a.priority, a.dueDate)]
      ensures TextsNonBlank(old(store.todos)) ==> TextsNonBlank(store.todos)
    {
      var call := SubmitArgs(text, priority, dueDate, parse);
      if call.None? {
        return ErrorToast("Please enter a todo");
      }
      var args := call.value;
      ghost var before := store.todos;
      var r := store.Create(caller, args);
      if r.Success? {
        if TextsNonBlank(before) {
          InsertKeepsNonBlank(before, r.value, store.todos[r.value]);
        }
        text := "";
        dueDate := "";
        priority := Medium;
        isExpanded := false;
        toast := Info("Todo added!");
      } else {
        toast := ErrorToast("Failed to add todo");
      }
    }
  }
}
