/**
 * One row of the list: the priority colour, the overdue badge, and the edit
 * form whose state (`isEditing`, `editText`, `editPriority`, `editDueDate`)
 * the handlers update in place.
 */
module TodoItemComponent {
  import opened Base
  import opened JsString
  import opened Todos
  import opened Forms

  /** `getPriorityColor`: a colour per known priority, gray for anything else. */
  function PriorityColor(priority: string): string {
    if priority == "high" then "text-red-500"
    else if priority == "medium" then "text-yellow-500"
    else if priority == "low" then "text-green-500"
    else "text-gray-500"
  }

  /** High is red, medium yellow, low green; the three colours differ. */
  lemma PriorityColorOfPriority(p: Priority)
    ensures p == High ==> PriorityColor(PriorityName(p)) == "text-red-500"
    ensures p == Medium ==> PriorityColor(PriorityName(p)) == "text-yellow-500"
    ensures p == Low ==> PriorityColor(PriorityName(p)) == "text-green-500"
    ensures forall q :: q != p ==> PriorityColor(PriorityName(q)) != PriorityColor(PriorityName(p))
  {
  }

  /** Gray is shown exactly for a string the priority validator would reject, so never for a stored record. */
  lemma PriorityColorGrayIffInvalid(s: string)
    ensures PriorityColor(s) == "text-gray-500" <==> ParsePriority(s).None?
  {
  }

  /** `todo.dueDate && todo.dueDate < now && !todo.completed`, read as a truth value. */
  predicate IsOverdue(t: Todo, now: int) {
    t.dueDate.Some? && t.dueDate.value != 0 && t.dueDate.value < now && !t.completed
  }

  /** Overdue needs a truthy due date strictly before `now` on an open todo, and nothing more. */
  lemma OverdueExactly(t: Todo, now: int)
    ensures IsOverdue(t, now) ==> t.dueDate.Some? && t.dueDate.value < now
    ensures t.completed ==> !IsOverdue(t, now)
    ensures t.dueDate.None? || t.dueDate == Some(0) ==> !IsOverdue(t, now)
    ensures t.dueDate.Some? && t.dueDate.value != 0 && t.dueDate.value < now && !t.completed ==> IsOverdue(t, now)
  {
  }

  /** Once overdue, a todo stays overdue as time passes, until it is toggled to done. */
  lemma OverdueUntilToggled(t: Todo, now: int, later: int)
    requires IsOverdue(t, now) && now <= later
    ensures IsOverdue(t, later)
    ensures !IsOverdue(Flip(t), later)
  {
  }

  /**
   * The update `handleSave` sends: nothing when the edited text trims to
   * the empty string; otherwise the trimmed text, the priority, and the due
   * date only when the date input is not empty.
   */
  function SaveArgs(editText: string, editPriority: Priority, editDueDate: string, parse: string -> int): (p: Option<Patch>)
    ensures p.None? <==> Blank(editText)
    ensures p.Some? ==> p.value.text == Some(Trim(editText)) && !Blank(p.value.text.value)
    ensures p.Some? ==> p.value.priority == Some(editPriority)
    ensures p.Some? ==> (p.value.dueDate.None? <==> editDueDate == "")
    ensures p.Some? && editDueDate != "" ==> p.value.dueDate == Some(parse(editDueDate))
  {
    TrimEmptyIffBlank(editText);
    if Trim(editText) == "" then None
    else
      TrimmedIsNotBlank(editText);
      Some(Patch(Some(Trim(editText)), Some(editPriority), DueDateArg(editDueDate, parse)))
  }

  /** Saving with an empty date input keeps the stored due date: the edit form cannot clear it. */
  lemma SaveKeepsDueDateWhenFieldEmpty(t: Todo, editText: string, editPriority: Priority, parse: string -> int)
    requires SaveArgs(editText, editPriority, "", parse).Some?
    ensures ApplyPatch(t, SaveArgs(editText, editPriority, "", parse).value).dueDate == t.dueDate
  {
  }

  class TodoItem {
    /** `todo._id`. */
    const id: TodoId
    /** The `todo` prop as last rendered. */
    var todo: Todo
    var isEditing: bool
    var editText: string
    var editPriority: Priority
    var editDueDate: string

    /** The edit fields show the stored record. */
    predicate ShowsStored(format: int -> string)
      reads this
    {
      editText == todo.text && editPriority == todo.priority && editDueDate == DueDateField(todo.dueDate, format)
    }

    /** Mounting: not editing, and the edit fields start from the record. */
    constructor (id: TodoId, todo: Todo, format: int -> string)
      ensures this.id == id && this.todo == todo
      ensures !isEditing && ShowsStored(format)
    {
      this.id := id;
      this.todo := todo;
      isEditing := false;
      editText := todo.text;
      editPriority := todo.priority;
      editDueDate := DueDateField(todo.dueDate, format);
    }

    /** A re-render with a newer record: `useState` keeps the edit fields as they are. */
    method Rerender(t: Todo)
      modifies this`todo
      ensures todo == t
    {
      todo := t;
    }

    /** The edit button. */
    method StartEditing()
      modifies this`isEditing
      ensures isEditing
    {
      isEditing := true;
    }

    /** `handleCancel`: the edit fields show the record again and editing ends. */
    method Cancel(format: int -> string)
      modifies this`isEditing, this`editText, this`editPriority, this`editDueDate
      ensures ShowsStored(format) && !isEditing
    {
      editText := todo.text;
      editPriority := todo.priority;
      editDueDate := DueDateField(todo.dueDate, format);
      isEditing := false;
    }

    /**
     * `handleSave`: rejects a blank text without calling the store;
     * otherwise sends `SaveArgs` to `update` and leaves editing mode only if
     * the update succeeds. It never stores a blank text.
     */
    method Save(store: Store, caller: Option<UserId>, parse: string -> int) returns (toast: Toast)
      requires store.Valid()
      modifies this`isEditing, store
      ensures store.Valid() && store.nextId == old(store.nextId)
      ensures SaveArgs(editText, editPriority, editDueDate, parse).None? ==>
        toast == ErrorToast("Todo text cannot be empty") && isEditing == old(isEditing) && store.todos == old(store.todos)
      ensures SaveArgs(editText, editPriority, editDueDate, parse).Some? && !Authorize(old(store.todos), caller, id).Success? ==>
        toast == ErrorToast("Failed to update todo") && isEditing == old(isEditing) && store.todos == old(store.todos)
      ensures SaveArgs(editText, editPriority, editDueDate, parse).Some? && Authorize(old(store.todos), caller, id).Success? ==>
        toast == Info("Todo updated") && !isEditing &&
        store.todos == old(store.todos)[id := ApplyPatch(old(store.todos)[id], SaveArgs(editText, editPriority, editDueDate, parse).value)]
      ensures TextsNonBlank(old(store.todos)) ==> TextsNonBlank(store.todos)
    {
      var call := SaveArgs(editText, editPriority, editDueDate, parse);
      if call.None? {
        return ErrorToast("Todo text cannot be empty");
      }
      var args := call.value;
      ghost var before := store.todos;
      var r := store.Update(caller, id, args);
      if r.Success? {
        if TextsNonBlank(before) {
          PatchKeepsNonBlank(before, id, args);
        }
        isEditing := false;
        toast := Info("Todo updated");
      } else {
        toast := ErrorToast("Failed to update todo");
      }
    }

    /** `handleToggle`: flips the record through the store; the message follows the rendered `completed`. */
    method ToggleDone(store: Store, caller: Option<UserId>) returns (toast: Toast)
      requires store.Valid()
      modifies store
      ensures store.Valid() && store.nextId == old(store.nextId)
      ensures Authorize(old(store.todos), caller, id).Success? ==>
        store.todos == old(store.todos)[id := Flip(old(store.todos)[id])] &&
        toast == Info(if todo.completed then "Todo marked as incomplete" else "Todo completed!")
      ensures !Authorize(old(store.todos), caller, id).Success? ==>
        store.todos == old(store.todos) && toast == ErrorToast("Failed to update todo")
      ensures TextsNonBlank(old(store.todos)) ==> TextsNonBlank(store.todos)
    {
      ghost var before := store.todos;
      var r := store.Toggle(caller, id);
      if r.Success? {
        if TextsNonBlank(before) {
          FlipAndDeleteKeepNonBlank(before, id);
        }
        toast := Info(if todo.completed then "Todo marked as incomplete" else "Todo completed!");
      } else {
        toast := ErrorToast("Failed to update todo");
      }
    }

    /** `handleDelete`: removes the record through the store. */
    method Delete(store: Store, caller: Option<UserId>) returns (toast: Toast)
      requires store.Valid()
      modifies store
      ensures store.Valid() && store.nextId == old(store.nextId)
      ensures Authorize(old(store.todos), caller, id).Success? ==>
        store.todos == old(store.todos) - {id} && toast == Info("Todo deleted")
      ensures !Authorize(old(store.todos), caller, id).Success? ==>
        store.todos == old(store.todos) && toast == ErrorToast("Failed to delete todo")
      ensures TextsNonBlank(old(store.todos)) ==> TextsNonBlank(store.todos)
    {
      ghost var before := store.todos;
      var r := store.Remove(caller, id);
      if r.Success? {
        if TextsNonBlank(before) {
          FlipAndDeleteKeepNonBlank(before, id);
        }
        toast := Info("Todo deleted");
      } else {
        toast := ErrorToast("Failed to delete todo");
      }
    }
  }
}
