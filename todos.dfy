/**
 * The todo table of the backend: five handlers (`list`, `create`, `toggle`,
 * `remove`, `update`) over a table from ids to records, each guarded by
 * "caller authenticated, record exists, caller owns it" before it writes.
 *
 * The ambient identity lookup becomes an explicit `caller: Option<UserId>`,
 * and ids come from a counter, so creation order is id order.
 */
module Todos {
  import opened Base
  import opened JsString

  type UserId = nat
  type TodoId = nat

  /** The three literals the argument validator admits for `priority`. */
  datatype Priority = Low | Medium | High

  /** One stored record (`_id` and `_creationTime` are kept outside it). */
  datatype Todo = Todo(text: string, completed: bool, userId: UserId, priority: Priority, dueDate: Option<int>)

  /** A record as `list` returns it, together with its id. */
  datatype Doc = Doc(id: TodoId, todo: Todo)

  /** The arguments of `create`. */
  datatype NewTodo = NewTodo(text: string, priority: Priority, dueDate: Option<int>)

  /** The optional arguments of `update`; `None` stands for an omitted field. */
  datatype Patch = Patch(text: Option<string>, priority: Option<Priority>, dueDate: Option<int>)

  /** The two errors the handlers throw. */
  datatype Error = NotAuthenticated | NotFoundOrUnauthorized

  function Message(e: Error): string {
    match e
    case NotAuthenticated => "Not authenticated"
    case NotFoundOrUnauthorized => "Todo not found or unauthorized"
  }

  /** The text each error is thrown with; the two differ. */
  lemma ErrorMessages()
    ensures Message(NotAuthenticated) == "Not authenticated"
    ensures Message(NotFoundOrUnauthorized) == "Todo not found or unauthorized"
    ensures forall e, f :: e != f ==> Message(e) != Message(f)
  {
  }

  function PriorityName(p: Priority): string {
    match p
    case Low => "low"
    case Medium => "medium"
    case High => "high"
  }

  /** The validator `v.union(v.literal("low"), v.literal("medium"), v.literal("high"))`. */
  function ParsePriority(s: string): (r: Option<Priority>)
    ensures r.Some? ==> PriorityName(r.value) == s
  {
    if s == "low" then Some(Low)
    else if s == "medium" then Some(Medium)
    else if s == "high" then Some(High)
    else None
  }

  /** The validator admits exactly the names of the three priorities, so no other value is ever stored. */
  lemma ParsePriorityExactly(s: string, p: Priority)
    ensures ParsePriority(s) == Some(p) <==> s == PriorityName(p)
  {
  }

  // ---------------------------------------------------------------------------
  // The shared guard

  /** The record `id` is there and belongs to `u`. */
  predicate Visible(m: map<TodoId, Todo>, u: UserId, id: TodoId) {
    id in m && m[id].userId == u
  }

  /**
   * The check every mutation runs before it writes: an anonymous caller is
   * rejected with `NotAuthenticated`; a missing record and a record of
   * another user are both rejected with `NotFoundOrUnauthorized`.
   */
  function Authorize(m: map<TodoId, Todo>, caller: Option<UserId>, id: TodoId): (r: Result<Todo, Error>)
    ensures r.Success? <==> caller.Some? && Visible(m, caller.value, id)
    ensures r.Success? ==> r.value == m[id]
    ensures caller.None? ==> r == Failure(NotAuthenticated)
    ensures caller.Some? && !Visible(m, caller.value, id) ==> r == Failure(NotFoundOrUnauthorized)
  {
    if caller.None? then Failure(NotAuthenticated)
    else if id !in m || m[id].userId != caller.value then Failure(NotFoundOrUnauthorized)
    else Success(m[id])
  }

  /** A signed-in caller cannot tell a missing id from an id owned by someone else. */
  lemma AuthorizeHidesExistence(m: map<TodoId, Todo>, u: UserId, id: TodoId)
    ensures id !in m ==> Authorize(m, Some(u), id) == Failure(NotFoundOrUnauthorized)
    ensures id in m && m[id].userId != u ==> Authorize(m, Some(u), id) == Failure(NotFoundOrUnauthorized)
  {
  }

  /** Once a record is deleted, every later guarded operation on its id fails. */
  lemma DeletedIdIsRejected(m: map<TodoId, Todo>, caller: Option<UserId>, id: TodoId)
    ensures Authorize(m - {id}, caller, id).Failure?
  {
  }

  // ---------------------------------------------------------------------------
  // The record-level effect of `toggle` and `update`

  /** The record after `patch(id, { completed: !todo.completed })`. */
  function Flip(t: Todo): (r: Todo)
    ensures r.completed == !t.completed
    ensures r.text == t.text && r.userId == t.userId && r.priority == t.priority && r.dueDate == t.dueDate
  {
    t.(completed := !t.completed)
  }

  /** Toggling twice restores the record. */
  lemma FlipInvolutive(t: Todo)
    ensures Flip(Flip(t)) == t
  {
  }

  /** The record after `patch(id, updates)`, where `updates` holds only the supplied fields. */
  function ApplyPatch(t: Todo, p: Patch): (r: Todo)
    ensures r.userId == t.userId && r.completed == t.completed
  {
    Todo(p.text.GetOr(t.text), t.completed, t.userId, p.priority.GetOr(t.priority),
         if p.dueDate.Some? then p.dueDate else t.dueDate)
  }

  /** A supplied field overwrites the stored one and an omitted field keeps it. */
  lemma ApplyPatchFieldwise(t: Todo, p: Patch)
    ensures p.text.Some? ==> ApplyPatch(t, p).text == p.text.value
    ensures p.text.None? ==> ApplyPatch(t, p).text == t.text
    ensures p.priority.Some? ==> ApplyPatch(t, p).priority == p.priority.value
    ensures p.priority.None? ==> ApplyPatch(t, p).priority == t.priority
    ensures p.dueDate.Some? ==> ApplyPatch(t, p).dueDate == p.dueDate
    ensures p.dueDate.None? ==> ApplyPatch(t, p).dueDate == t.dueDate
  {
  }

  /** An update that supplies nothing leaves the record as it was. */
  lemma EmptyPatchIsIdentity(t: Todo)
    ensures ApplyPatch(t, Patch(None, None, None)) == t
  {
  }

  /** Repeating the same update changes nothing more. */
  lemma ApplyPatchIdempotent(t: Todo, p: Patch)
    ensures ApplyPatch(ApplyPatch(t, p), p) == ApplyPatch(t, p)
  {
  }

  /** `update` cannot clear a due date: once set, some due date stays set whatever is supplied. */
  lemma ApplyPatchKeepsDueDate(t: Todo, p: Patch)
    requires t.dueDate.Some?
    ensures ApplyPatch(t, p).dueDate.Some?
  {
  }

  // ---------------------------------------------------------------------------
  // The owner index scan behind `list`

  /** The records of `u` among ids below `n`, highest id (newest) first. */
  function Owned(m: map<TodoId, Todo>, u: UserId, n: nat): (docs: seq<Doc>)
    ensures |docs| <= n
    decreases n
  {
    if n == 0 then []
    else (if Visible(m, u, n - 1) then [Doc(n - 1, m[n - 1])] else []) + Owned(m, u, n - 1)
  }

  /** The scan holds each record of `u` below `n`, with its current contents, and nothing else. */
  lemma {:induction false} OwnedMembers(m: map<TodoId, Todo>, u: UserId, n: nat)
    ensures forall d :: d in Owned(m, u, n) <==> d.id < n && Visible(m, u, d.id) && m[d.id] == d.todo
  {
    if n > 0 {
      OwnedMembers(m, u, n - 1);
    }
  }

  /** The scan lists ids below `n` in strictly decreasing order. */
  lemma {:induction false} OwnedDescending(m: map<TodoId, Todo>, u: UserId, n: nat)
    ensures forall i :: 0 <= i < |Owned(m, u, n)| ==> Owned(m, u, n)[i].id < n
    ensures forall i, j :: 0 <= i < j < |Owned(m, u, n)| ==> Owned(m, u, n)[i].id > Owned(m, u, n)[j].id
  {
    if n > 0 {
      OwnedDescending(m, u, n - 1);
    }
  }

  /** Two tables that agree on the records of `u` below `n` give `u` the same scan. */
  lemma {:induction false} OwnedFrame(m1: map<TodoId, Todo>, m2: map<TodoId, Todo>, u: UserId, n: nat)
    requires forall id :: 0 <= id < n ==> (Visible(m1, u, id) <==> Visible(m2, u, id))
    requires forall id :: 0 <= id < n && Visible(m1, u, id) ==> id in m2 && m1[id] == m2[id]
    ensures Owned(m1, u, n) == Owned(m2, u, n)
  {
    if n > 0 {
      OwnedFrame(m1, m2, u, n - 1);
    }
  }

  /** Inserting a fresh record with id `n` puts it in front of its owner's scan and nowhere else. */
  lemma OwnedInsertFresh(m: map<TodoId, Todo>, u: UserId, n: nat, t: Todo)
    requires forall id :: id in m ==> id < n
    ensures Owned(m[n := t], u, n + 1) == (if t.userId == u then [Doc(n, t)] else []) + Owned(m, u, n)
  {
    OwnedFrame(m[n := t], m, u, n);
  }

  /** Replacing or deleting a record of one user leaves every other user's scan as it was. */
  lemma {:induction false} OwnedOtherUser(m1: map<TodoId, Todo>, m2: map<TodoId, Todo>, id: TodoId, owner: UserId, v: UserId, n: nat)
    requires owner != v
    requires forall k :: k != id ==> (k in m1 <==> k in m2)
    requires forall k :: k != id && k in m1 ==> m1[k] == m2[k]
    requires id in m1 ==> m1[id].userId == owner
    requires id in m2 ==> m2[id].userId == owner
    ensures Owned(m1, v, n) == Owned(m2, v, n)
  {
    OwnedFrame(m1, m2, v, n);
  }

  // ---------------------------------------------------------------------------
  // The store

  class Store {
    /** The `todos` table. */
    var todos: map<TodoId, Todo>
    /** The next id to hand out; every id below it has been handed out once. */
    var nextId: nat

    /** Every stored id was handed out earlier, so a fresh id is never in use. */
    ghost predicate Valid()
      reads this
    {
      forall id :: id in todos ==> id < nextId
    }

    constructor ()
      ensures Valid() && todos == map[] && nextId == 0
    {
      todos := map[];
      nextId := 0;
    }

    /**
     * `list`: nothing for an anonymous caller; otherwise exactly the
     * caller's records, each with its current contents, newest first.
     */
    function List(caller: Option<UserId>): (docs: seq<Doc>)
      reads this
      requires Valid()
      ensures caller.None? ==> docs == []
      ensures caller.Some? ==> forall d :: d in docs <==> d.id in todos && todos[d.id] == d.todo && d.todo.userId == caller.value
      ensures forall i, j :: 0 <= i < j < |docs| ==> docs[i].id > docs[j].id
    {
      if caller.None? then []
      else
        OwnedMembers(todos, caller.value, nextId);
        OwnedDescending(todos, caller.value, nextId);
        Owned(todos, caller.value, nextId)
    }

    /**
     * `create`: rejects an anonymous caller; otherwise stores the given
     * fields under a fresh id, not completed and owned by the caller, and
     * returns the id (`OwnedInsertFresh` shows it heads the caller's list).
     */
    method Create(caller: Option<UserId>, args: NewTodo) returns (r: Result<TodoId, Error>)
      requires Valid()
      modifies this
      ensures Valid()
      ensures caller.None? ==> r == Failure(NotAuthenticated) && todos == old(todos) && nextId == old(nextId)
      ensures caller.Some? ==> r == Success(old(nextId)) && old(nextId) !in old(todos) && nextId == old(nextId) + 1
      ensures caller.Some? ==> todos == old(todos)[old(nextId) := Todo(args.text, false, caller.value, args.priority, args.dueDate)]
    {
      if caller.None? {
        return Failure(NotAuthenticated);
      }
      var id := nextId;
      var record := Todo(args.text, false, caller.value, args.priority, args.dueDate);
      todos := todos[id := record];
      nextId := nextId + 1;
      r := Success(id);
    }

    /** `toggle`: after the guard, negates `completed` and changes nothing else. */
    method Toggle(caller: Option<UserId>, id: TodoId) returns (r: Result<(), Error>)
      requires Valid()
      modifies this
      ensures Valid() && nextId == old(nextId)
      ensures r.Success? <==> Authorize(old(todos), caller, id).Success?
      ensures r.Failure? ==> r.error == Authorize(old(todos), caller, id).error && todos == old(todos)
      ensures r.Success? ==> todos == old(todos)[id := Flip(old(todos)[id])]
    {
      var guard := Authorize(todos, caller, id);
      if guard.Failure? {
        return Failure(guard.error);
      }
      var todo := guard.value;
      todos := todos[id := todo.(completed := !todo.completed)];
      r := Success(());
    }

    /** `remove`: after the guard, deletes the record. */
    method Remove(caller: Option<UserId>, id: TodoId) returns (r: Result<(), Error>)
      requires Valid()
      modifies this
      ensures Valid() && nextId == old(nextId)
      ensures r.Success? <==> Authorize(old(todos), caller, id).Success?
      ensures r.Failure? ==> r.error == Authorize(old(todos), caller, id).error && todos == old(todos)
      ensures r.Success? ==> todos == old(todos) - {id} && id !in todos
    {
      var guard := Authorize(todos, caller, id);
      if guard.Failure? {
        return Failure(guard.error);
      }
      todos := todos - {id};
      r := Success(());
    }

    /**
     * `update`: after the guard, builds the patch from the supplied fields
     * only and applies it; owner and `completed` are never touched.
     */
    method Update(caller: Option<UserId>, id: TodoId, patch: Patch) returns (r: Result<(), Error>)
      requires Valid()
      modifies this
      ensures Valid() && nextId == old(nextId)
      ensures r.Success? <==> Authorize(old(todos), caller, id).Success?
      ensures r.Failure? ==> r.error == Authorize(old(todos), caller, id).error && todos == old(todos)
      ensures r.Success? ==> todos == old(todos)[id := ApplyPatch(old(todos)[id], patch)]
    {
      var guard := Authorize(todos, caller, id);
      if guard.Failure? {
        return Failure(guard.error);
      }
      var todo := guard.value;
      if patch.text.Some? {
        todo := todo.(text := patch.text.value);
      }
      if patch.priority.Some? {
        todo := todo.(priority := patch.priority.value);
      }
      if patch.dueDate.Some? {
        todo := todo.(dueDate := patch.dueDate);
      }
      todos := todos[id := todo];
      r := Success(());
    }
  }

  // ---------------------------------------------------------------------------
  // Text the interface lets through

  /** No stored record has a text made only of white space. The store itself does not enforce this. */
  ghost predicate TextsNonBlank(m: map<TodoId, Todo>) {
    forall id :: id in m ==> !Blank(m[id].text)
  }

  /** `create` accepts any text: a signed-in caller's blank text is stored and breaks `TextsNonBlank`. */
  method StoreAcceptsBlankText(store: Store, u: UserId, args: NewTodo) returns (r: Result<TodoId, Error>)
    requires store.Valid() && Blank(args.text)
    modifies store
    ensures r.Success? && r.value in store.todos && store.todos[r.value].text == args.text
    ensures !TextsNonBlank(store.todos)
  {
    r := store.Create(Some(u), args);
    assert store.todos[r.value].text == args.text;
  }

  /** Inserting a record whose text is not blank keeps every text non-blank. */
  lemma InsertKeepsNonBlank(m: map<TodoId, Todo>, id: TodoId, t: Todo)
    requires TextsNonBlank(m) && !Blank(t.text)
    ensures TextsNonBlank(m[id := t])
  {
  }

  /** An update that supplies no text, or a non-blank one, keeps every text non-blank. */
  lemma PatchKeepsNonBlank(m: map<TodoId, Todo>, id: TodoId, p: Patch)
    requires TextsNonBlank(m) && id in m
    requires p.text.Some? ==> !Blank(p.text.value)
    ensures TextsNonBlank(m[id := ApplyPatch(m[id], p)])
  {
  }

  /** Toggling and deleting never touch a text. */
  lemma FlipAndDeleteKeepNonBlank(m: map<TodoId, Todo>, id: TodoId)
    requires TextsNonBlank(m) && id in m
    ensures TextsNonBlank(m[id := Flip(m[id])])
    ensures TextsNonBlank(m - {id})
  {
  }
}
