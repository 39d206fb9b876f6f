/**
 * The dashboard's derived data: the status/priority filter over the fetched
 * list, the completed/total/remaining counters and the empty-state text.
 */
module Dashboard {
  import opened Base
  import opened Todos

  /** The status selector: "all", "active" or "completed". */
  datatype StatusFilter = AllTasks | Active | Completed

  /** The priority selector: "all" or one priority. */
  datatype PriorityFilter = AllPriorities | Only(priority: Priority)

  /** `useQuery(api.todos.list) || []`: a result that has not arrived counts as no todos. */
  function Fetched(q: Option<seq<Doc>>): (todos: seq<Doc>)
    ensures q.None? ==> todos == []
    ensures q.Some? ==> todos == q.value
  {
    q.GetOr([])
  }

  predicate StatusMatch(f: StatusFilter, d: Doc) {
    f == AllTasks || (f == Active && !d.todo.completed) || (f == Completed && d.todo.completed)
  }

  predicate PriorityMatch(pf: PriorityFilter, d: Doc) {
    pf == AllPriorities || d.todo.priority == pf.priority
  }

  /** `todos.filter(todo => statusMatch && priorityMatch)`. */
  function Filtered(todos: seq<Doc>, f: StatusFilter, pf: PriorityFilter): (r: seq<Doc>)
    ensures |r| <= |todos|
  {
    if todos == [] then []
    else (if StatusMatch(f, todos[0]) && PriorityMatch(pf, todos[0]) then [todos[0]] else [])
         + Filtered(todos[1..], f, pf)
  }

  /** `a` is `b` with some elements dropped and the rest kept in their original order. */
  predicate IsSubsequence(a: seq<Doc>, b: seq<Doc>)
    decreases |b|
  {
    if b == [] then a == []
    else (a != [] && a[0] == b[0] && IsSubsequence(a[1..], b[1..])) || IsSubsequence(a, b[1..])
  }

  /** The filtered list keeps the fetched order: it is an order-preserving subsequence. */
  lemma {:induction false} FilteredIsSubsequence(todos: seq<Doc>, f: StatusFilter, pf: PriorityFilter)
    ensures IsSubsequence(Filtered(todos, f, pf), todos)
  {
    if todos != [] {
      FilteredIsSubsequence(todos[1..], f, pf);
      var rest := Filtered(todos[1..], f, pf);
      if StatusMatch(f, todos[0]) && PriorityMatch(pf, todos[0]) {
        assert Filtered(todos, f, pf) == [todos[0]] + rest;
        assert ([todos[0]] + rest)[1..] == rest;
      } else {
        assert Filtered(todos, f, pf) == rest;
      }
    }
  }

  /** A todo is shown exactly when it was fetched and passes both the status test and the priority test. */
  lemma {:induction false} FilteredMembers(todos: seq<Doc>, f: StatusFilter, pf: PriorityFilter)
    ensures forall d :: d in Filtered(todos, f, pf) <==> d in todos && StatusMatch(f, d) && PriorityMatch(pf, d)
  {
    if todos != [] {
      FilteredMembers(todos[1..], f, pf);
      assert todos == [todos[0]] + todos[1..];
    }
  }

  /** Each todo is shown as many times as it was fetched when it passes both tests, and not at all otherwise. */
  lemma {:induction false} FilteredMultiplicity(todos: seq<Doc>, f: StatusFilter, pf: PriorityFilter, d: Doc)
    ensures multiset(Filtered(todos, f, pf))[d] == if StatusMatch(f, d) && PriorityMatch(pf, d) then multiset(todos)[d] else 0
  {
    if todos != [] {
      FilteredMultiplicity(todos[1..], f, pf, d);
      assert todos == [todos[0]] + todos[1..];
      assert multiset(todos) == multiset([todos[0]]) + multiset(todos[1..]);
      if StatusMatch(f, todos[0]) && PriorityMatch(pf, todos[0]) {
        assert Filtered(todos, f, pf) == [todos[0]] + Filtered(todos[1..], f, pf);
        assert multiset(Filtered(todos, f, pf)) == multiset([todos[0]]) + multiset(Filtered(todos[1..], f, pf));
      }
    }
  }

  /** Both selectors on "all" show the whole list. */
  lemma {:induction false} FilterAllIsIdentity(todos: seq<Doc>)
    ensures Filtered(todos, AllTasks, AllPriorities) == todos
  {
    if todos != [] {
      FilterAllIsIdentity(todos[1..]);
      assert todos == [todos[0]] + todos[1..];
    }
  }

  /** "active" shows exactly the open todos and "completed" exactly the done ones. */
  lemma {:induction false} ActiveAndCompletedSplit(todos: seq<Doc>, pf: PriorityFilter)
    ensures forall d :: d in Filtered(todos, Active, pf) <==> d in todos && !d.todo.completed && PriorityMatch(pf, d)
    ensures forall d :: d in Filtered(todos, Completed, pf) <==> d in todos && d.todo.completed && PriorityMatch(pf, d)
  {
    FilteredMembers(todos, Active, pf);
    FilteredMembers(todos, Completed, pf);
  }

  /** A priority selector alone keeps only todos of that priority. */
  lemma {:induction false} OnlyPriorityKeepsThatPriority(todos: seq<Doc>, p: Priority)
    ensures forall d :: d in Filtered(todos, AllTasks, Only(p)) ==> d.todo.priority == p
  {
    FilteredMembers(todos, AllTasks, Only(p));
  }

  /** Combining the two selectors is the same as applying one after the other. */
  lemma {:induction false} FilterComposes(todos: seq<Doc>, f: StatusFilter, pf: PriorityFilter)
    ensures Filtered(todos, f, pf) == Filtered(Filtered(todos, f, AllPriorities), AllTasks, pf)
  {
    if todos != [] {
      FilterComposes(todos[1..], f, pf);
      var inner := Filtered(todos[1..], f, AllPriorities);
      if StatusMatch(f, todos[0]) {
        var outer := [todos[0]] + inner;
        assert Filtered(todos, f, AllPriorities) == outer;
        assert outer[1..] == inner;
        assert Filtered(outer, AllTasks, pf)
            == (if PriorityMatch(pf, todos[0]) then [todos[0]] else []) + Filtered(inner, AllTasks, pf);
        assert Filtered(todos, f, pf)
            == (if PriorityMatch(pf, todos[0]) then [todos[0]] else []) + Filtered(todos[1..], f, pf);
      } else {
        assert Filtered(todos, f, AllPriorities) == inner;
        assert Filtered(todos, f, pf) == Filtered(todos[1..], f, pf);
      }
    }
  }

  /** For a fixed priority selector, the "active" and "completed" views together are as long as the "all" view. */
  lemma {:induction false} StatusViewsPartition(todos: seq<Doc>, pf: PriorityFilter)
    ensures |Filtered(todos, Active, pf)| + |Filtered(todos, Completed, pf)| == |Filtered(todos, AllTasks, pf)|
  {
    if todos != [] {
      StatusViewsPartition(todos[1..], pf);
    }
  }

  /** `todos.filter(todo => todo.completed).length`. */
  function CompletedCount(todos: seq<Doc>): (n: nat)
    ensures n <= |todos|
  {
    if todos == [] then 0
    else (if todos[0].todo.completed then 1 else 0) + CompletedCount(todos[1..])
  }

  /** `todos.length`: the size of the "all"/"all" view. */
  function TotalCount(todos: seq<Doc>): (n: nat)
    ensures n == |Filtered(todos, AllTasks, AllPriorities)|
  {
    FilterAllIsIdentity(todos);
    |todos|
  }

  /** The "Remaining" tile, `totalCount - completedCount`: never negative, and the size of the "active" view. */
  function Remaining(todos: seq<Doc>): (n: int)
    ensures n >= 0
  {
    TotalCount(todos) - CompletedCount(todos)
  }

  /** The counters agree with the views: completed is the "completed" view, remaining the "active" view. */
  lemma {:induction false} CountsMatchViews(todos: seq<Doc>)
    ensures CompletedCount(todos) == |Filtered(todos, Completed, AllPriorities)|
    ensures Remaining(todos) == |Filtered(todos, Active, AllPriorities)|
  {
    if todos != [] {
      CountsMatchViews(todos[1..]);
    }
  }

  /** Before the query answers, there is nothing to show and every counter reads zero. */
  lemma MissingResultIsEmpty(f: StatusFilter, pf: PriorityFilter)
    ensures Filtered(Fetched(None), f, pf) == []
    ensures CompletedCount(Fetched(None)) == 0 && TotalCount(Fetched(None)) == 0 && Remaining(Fetched(None)) == 0
  {
  }

  /** The headline of the empty state, chosen from the status selector. */
  function EmptyMessage(f: StatusFilter): string {
    if f == Completed then "No completed tasks yet"
    else if f == Active then "No active tasks"
    else "No todos yet"
  }

  /** The empty-state panel: its headline and its hint line. */
  datatype EmptyState = EmptyState(headline: string, hint: string)

  /**
   * What the list area shows instead of todos: the empty state when the
   * filtered list is empty (the hint only under "all"), nothing otherwise.
   */
  function EmptyView(todos: seq<Doc>, f: StatusFilter, pf: PriorityFilter): (r: Option<EmptyState>)
    ensures r.Some? <==> Filtered(todos, f, pf) == []
    ensures r.Some? ==> r.value.headline == EmptyMessage(f)
    ensures r.Some? && f == AllTasks ==> r.value.hint == "Add your first todo above to get started!"
    ensures r.Some? && f != AllTasks ==> r.value.hint == ""
  {
    if |Filtered(todos, f, pf)| == 0 then
      Some(EmptyState(EmptyMessage(f), if f == AllTasks then "Add your first todo above to get started!" else ""))
    else None
  }

  /** Each status selector has its own headline: "No completed tasks yet", "No active tasks", "No todos yet". */
  lemma EmptyMessagePerStatus()
    ensures EmptyMessage(Completed) == "No completed tasks yet"
    ensures EmptyMessage(Active) == "No active tasks"
    ensures EmptyMessage(AllTasks) == "No todos yet"
    ensures forall f, g :: f != g ==> EmptyMessage(f) != EmptyMessage(g)
  {
  }
}
