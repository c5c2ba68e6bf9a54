/** What a run reaches: GetWorkflowRunClosure in workflow_run.go. */
module RunClosure {
  import opened WorkModel

  /* ---- Which tasks, todos and edges belong ---- */

  function StartedTasks(edges: set<Edge>, runId: Id): set<Id> {
    Targets(edges, StartedTask, runId)
  }

  /** Live tasks at the run's started_task edges. */
  function ClosureTasks(tasks: map<Id, Task>, edges: set<Edge>, runId: Id): set<Id> {
    set t | t in StartedTasks(edges, runId) && t in tasks
  }

  /** Live todos at the run's started_todo edges or at has_todo edges of those tasks. */
  function ClosureTodos(todos: map<Id, Todo>, edges: set<Edge>, runId: Id): set<Id> {
    set k | k in todos && (Edge(StartedTodo, runId, k) in edges
                           || exists t :: t in StartedTasks(edges, runId) && Edge(HasTodo, t, k) in edges)
  }

  /** The run's own edges, and the todo, assignee and dependency edges of its tasks, dependencies either way. */
  predicate InClosureEdges(e: Edge, tasks: set<Id>, runId: Id) {
    (e.from == runId && (e.name == StartedTask || e.name == StartedTodo)) || AtTasks(e, tasks)
  }

  predicate AtTasks(e: Edge, tasks: set<Id>) {
    || (e.from in tasks && (e.name == HasTodo || e.name == AssignedTo || e.name == DependsOn))
    || (e.to in tasks && e.name == DependsOn)
  }

  /* ---- Orders ---- */

  /** Go's string order. */
  predicate LexLess(a: string, b: string) {
    b != "" && (a == "" || a[0] < b[0] || (a[0] == b[0] && LexLess(a[1..], b[1..])))
  }

  lemma {:induction false} LexOrder(a: string, b: string, c: string)
    ensures !(LexLess(a, b) && LexLess(b, a))
    ensures !LexLess(a, b) && !LexLess(b, c) ==> !LexLess(a, c)
    ensures !LexLess(a, b) && !LexLess(b, a) ==> a == b
  {
    if a != "" && b != "" {
      LexOrder(a[1..], b[1..], if c == "" then "" else c[1..]);
      assert [a[0]] + a[1..] == a && [b[0]] + b[1..] == b;
    }
  }

  /** The first character in which the two differ decides; a proper prefix comes first. */
  lemma {:induction false} LexLessTells(a: string, b: string)
    ensures LexLess(a, b)
            <==> exists k :: 0 <= k <= |a| && k < |b| && a[..k] == b[..k] && (k == |a| || a[k] < b[k])
  {
    if LexLess(a, b) {
      if a == "" || a[0] < b[0] {
        assert a[..0] == b[..0];
      } else {
        LexLessTells(a[1..], b[1..]);
        var k :| && 0 <= k <= |a[1..]| && k < |b[1..]| && a[1..][..k] == b[1..][..k]
                 && (k == |a[1..]| || a[1..][k] < b[1..][k]);
        assert a[..k + 1] == [a[0]] + a[1..][..k] && b[..k + 1] == [b[0]] + b[1..][..k];
      }
    }
    if k :| 0 <= k <= |a| && k < |b| && a[..k] == b[..k] && (k == |a| || a[k] < b[k]) {
      if k > 0 {
        assert a[0] == a[..k][0] == b[..k][0] == b[0];
        assert a[1..][..k - 1] == a[..k][1..] && b[1..][..k - 1] == b[..k][1..];
        LexLessTells(a[1..], b[1..]);
      }
    }
  }

  predicate TodoLess(a: Todo, b: Todo) {
    if a.parentTaskId != b.parentTaskId then LexLess(a.parentTaskId, b.parentTaskId) else a.ordinality < b.ordinality
  }

  /** An order to sort by: `!less(b, a)` reads "a may stand before b". */
  ghost predicate SortOrder<T(!new)>(less: (T, T) -> bool) {
    && (forall a, b :: !(less(a, b) && less(b, a)))
    && (forall a, b, c :: !less(a, b) && !less(b, c) ==> !less(a, c))
  }

  ghost predicate Sorted<T>(s: seq<T>, less: (T, T) -> bool) {
    forall i, j :: 0 <= i < j < |s| ==> !less(s[j], s[i])
  }

  lemma TodoLessIsOrder()
    ensures SortOrder(TodoLess)
  {
    forall a: Todo, b: Todo, c: Todo
      ensures !(TodoLess(a, b) && TodoLess(b, a))
      ensures !TodoLess(a, b) && !TodoLess(b, c) ==> !TodoLess(a, c)
    {
      LexOrder(a.parentTaskId, b.parentTaskId, c.parentTaskId);
      LexOrder(b.parentTaskId, c.parentTaskId, a.parentTaskId);
      LexOrder(c.parentTaskId, a.parentTaskId, b.parentTaskId);
    }
  }

  /** Stands for the library sort: the same elements, in order. */
  method Sort<T(!new)>(s: seq<T>, less: (T, T) -> bool) returns (r: seq<T>)
    requires SortOrder(less)
    ensures Sorted(r, less) && multiset(r) == multiset(s)
  {
    r := [];
    for i := 0 to |s|
      invariant Sorted(r, less) && multiset(r) == multiset(s[..i])
    {
      assert s[..i + 1] == s[..i] + [s[i]];
      var j := |r|;
      while j > 0 && less(s[i], r[j - 1])
        invariant 0 <= j <= |r|
        invariant forall k :: j <= k < |r| ==> less(s[i], r[k])
      {
        j := j - 1;
      }
      InsertSorted(r, j, s[i], less);
      assert r == r[..j] + r[j..];
      r := r[..j] + [s[i]] + r[j..];
    }
    assert s[..|s|] == s;
  }

  lemma InsertSorted<T(!new)>(r: seq<T>, j: nat, x: T, less: (T, T) -> bool)
    requires SortOrder(less) && Sorted(r, less) && j <= |r|
    requires forall k :: j <= k < |r| ==> less(x, r[k])
    requires j > 0 ==> !less(x, r[j - 1])
    ensures Sorted(r[..j] + [x] + r[j..], less)
  {
    forall k | 0 <= k < j ensures !less(x, r[k]) {
      if k < j - 1 { assert !less(r[j - 1], r[k]); }
    }
  }

  /* ---- The traversal ---- */

  datatype Entry<+T> = Entry(id: Id, entity: T)

  predicate TaskEntryLess(a: Entry<Task>, b: Entry<Task>) {
    a.entity.createdAt < b.entity.createdAt
  }

  predicate TodoEntryLess(a: Entry<Todo>, b: Entry<Todo>) {
    TodoLess(a.entity, b.entity)
  }

  /** `found` lists each of `ids` once, with its entity, in order. */
  ghost predicate Lists<T(!new)>(
      found: seq<Entry<T>>, store: map<Id, T>, ids: set<Id>, less: (Entry<T>, Entry<T>) -> bool) {
    && NoRepeats(found) && Sorted(found, less)
    && forall x :: x in found <==> x.id in ids && x.id in store && x.entity == store[x.id]
  }

  ghost predicate ListsEdges(found: seq<Edge>, edges: set<Edge>, tasks: set<Id>, runId: Id) {
    && NoRepeats(found)
    && forall e :: e in found <==> e in edges && InClosureEdges(e, tasks, runId)
  }

  /** The run's tasks by creation time, its todos by parent and ordinality, and its edges, each exactly once. */
  method GetWorkflowRunClosure(s: WorkStore, runId: Id)
    returns (r: Result<Run>, tasks: seq<Entry<Task>>, todos: seq<Entry<Todo>>, edges: seq<Edge>)
    ensures r == if runId in s.runs then Ok(s.runs[runId]) else Err(ErrRunNotFound)
    ensures r.Ok? ==>
              && Lists(tasks, s.tasks, ClosureTasks(s.tasks, s.edges, runId), TaskEntryLess)
              && Lists(todos, s.todos, ClosureTodos(s.todos, s.edges, runId), TodoEntryLess)
              && ListsEdges(edges, s.edges, StartedTasks(s.edges, runId), runId)
    // The same in terms of edges: the tasks started, the todos started or had by a started task, and the edges of both.
    ensures r.Ok? ==>
              && (forall t ::
                    (exists x :: x in tasks && x.id == t) <==> Edge(StartedTask, runId, t) in s.edges && t in s.tasks)
              && (forall k :: (exists x :: x in todos && x.id == k)
                              <==> && k in s.todos
                                   && (|| Edge(StartedTodo, runId, k) in s.edges
                                       || exists t ::
                                            Edge(StartedTask, runId, t) in s.edges && Edge(HasTodo, t, k) in s.edges))
              && (forall e :: e in edges
                              <==> && e in s.edges
                                   && (|| (e.from == runId && e.name in {StartedTask, StartedTodo})
                                       || (Edge(StartedTask, runId, e.from) in s.edges
                                           && e.name in {HasTodo, AssignedTo, DependsOn})
                                       || (Edge(StartedTask, runId, e.to) in s.edges && e.name == DependsOn)))
    // Each entity once: the tasks by the time they were created, the todos by parent and then by ordinality.
    ensures forall i, j :: 0 <= i < j < |tasks| ==>
              tasks[i].id != tasks[j].id && tasks[i].entity.createdAt <= tasks[j].entity.createdAt
    ensures forall i, j :: 0 <= i < j < |todos| ==>
              && todos[i].id != todos[j].id
              && if todos[i].entity.parentTaskId == todos[j].entity.parentTaskId
                 then todos[i].entity.ordinality <= todos[j].entity.ordinality
                 else LexLess(todos[i].entity.parentTaskId, todos[j].entity.parentTaskId)
  {
    tasks, todos, edges := [], [], [];
    if runId !in s.runs {
      return Err(ErrRunNotFound), tasks, todos, edges;
    }
    tasks, todos, edges := Collect(s, runId);
    r := Ok(s.runs[runId]);
    ClosureTells(s.tasks, s.todos, s.edges, runId, tasks, todos, edges);
    OrderTells(s.tasks, s.todos, ClosureTasks(s.tasks, s.edges, runId), ClosureTodos(s.todos, s.edges, runId), tasks,
               todos);
  }

  /** Walks the edges of the run, then of its tasks, and sorts what they lead to. */
  method Collect(s: WorkStore, runId: Id) returns (tasks: seq<Entry<Task>>, todos: seq<Entry<Todo>>, edges: seq<Edge>)
    ensures Lists(tasks, s.tasks, ClosureTasks(s.tasks, s.edges, runId), TaskEntryLess)
    ensures Lists(todos, s.todos, ClosureTodos(s.todos, s.edges, runId), TodoEntryLess)
    ensures ListsEdges(edges, s.edges, StartedTasks(s.edges, runId), runId)
  {
    edges := [];
    var taskIds := Targets(s.edges, StartedTask, runId);
    var todoIds := Targets(s.edges, StartedTodo, runId);
    edges := AddEdges(edges, set e | e in s.edges && e.from == runId && e.name == StartedTask);
    edges := AddEdges(edges, set e | e in s.edges && e.from == runId && e.name == StartedTodo);
    var more;
    edges, more := WalkTasks(s, taskIds, edges);
    var found := Resolve(s.tasks, taskIds);
    tasks := Sort(found, TaskEntryLess);
    SortedLists(found, tasks, s.tasks, taskIds, ClosureTasks(s.tasks, s.edges, runId), TaskEntryLess);
    var foundTodos := Resolve(s.todos, todoIds + more);
    TodoLessIsOrder();
    todos := Sort(foundTodos, TodoEntryLess);
    SortedLists(foundTodos, todos, s.todos, todoIds + more, ClosureTodos(s.todos, s.edges, runId), TodoEntryLess);
  }

  lemma OrderTells(
      tasks: map<Id, Task>, todos: map<Id, Todo>, taskIds: set<Id>, todoIds: set<Id>, foundTasks: seq<Entry<Task>>,
      foundTodos: seq<Entry<Todo>>)
    requires Lists(foundTasks, tasks, taskIds, TaskEntryLess) && Lists(foundTodos, todos, todoIds, TodoEntryLess)
    ensures forall i, j :: 0 <= i < j < |foundTasks| ==>
              foundTasks[i].id != foundTasks[j].id && foundTasks[i].entity.createdAt <= foundTasks[j].entity.createdAt
    ensures forall i, j :: 0 <= i < j < |foundTodos| ==>
              && foundTodos[i].id != foundTodos[j].id
              && if foundTodos[i].entity.parentTaskId == foundTodos[j].entity.parentTaskId
                 then foundTodos[i].entity.ordinality <= foundTodos[j].entity.ordinality
                 else LexLess(foundTodos[i].entity.parentTaskId, foundTodos[j].entity.parentTaskId)
  {
    forall i, j | 0 <= i < j < |foundTasks|
      ensures foundTasks[i].id != foundTasks[j].id
      ensures foundTasks[i].entity.createdAt <= foundTasks[j].entity.createdAt
    {
      assert foundTasks[i] in foundTasks && foundTasks[j] in foundTasks;
      assert !TaskEntryLess(foundTasks[j], foundTasks[i]);
    }
    forall i, j | 0 <= i < j < |foundTodos|
      ensures foundTodos[i].id != foundTodos[j].id
      ensures var a, b := foundTodos[i].entity, foundTodos[j].entity;
              if a.parentTaskId == b.parentTaskId then a.ordinality <= b.ordinality
              else LexLess(a.parentTaskId, b.parentTaskId)
    {
      assert foundTodos[i] in foundTodos && foundTodos[j] in foundTodos;
      assert !TodoEntryLess(foundTodos[j], foundTodos[i]);
      LexOrder(foundTodos[i].entity.parentTaskId, foundTodos[j].entity.parentTaskId, "");
    }
  }

  lemma ClosureTells(
      tasks: map<Id, Task>, todos: map<Id, Todo>, edges: set<Edge>, runId: Id, foundTasks: seq<Entry<Task>>,
      foundTodos: seq<Entry<Todo>>, foundEdges: seq<Edge>)
    requires Lists(foundTasks, tasks, ClosureTasks(tasks, edges, runId), TaskEntryLess)
    requires Lists(foundTodos, todos, ClosureTodos(todos, edges, runId), TodoEntryLess)
    requires ListsEdges(foundEdges, edges, StartedTasks(edges, runId), runId)
    ensures forall t ::
              (exists x :: x in foundTasks && x.id == t) <==> Edge(StartedTask, runId, t) in edges && t in tasks
    ensures forall k :: (exists x :: x in foundTodos && x.id == k)
                        <==> && k in todos
                             && (|| Edge(StartedTodo, runId, k) in edges
                                 || exists t :: Edge(StartedTask, runId, t) in edges && Edge(HasTodo, t, k) in edges)
    ensures forall e :: e in foundEdges
                        <==> && e in edges
                             && (|| (e.from == runId && e.name in {StartedTask, StartedTodo})
                                 || (Edge(StartedTask, runId, e.from) in edges
                                     && e.name in {HasTodo, AssignedTo, DependsOn})
                                 || (Edge(StartedTask, runId, e.to) in edges && e.name == DependsOn))
  {
    assert forall t :: t in StartedTasks(edges, runId) <==> Edge(StartedTask, runId, t) in edges;
    forall t | Edge(StartedTask, runId, t) in edges && t in tasks ensures exists x :: x in foundTasks && x.id == t {
      assert Entry(t, tasks[t]) in foundTasks;
    }
    forall k
      ensures k in ClosureTodos(todos, edges, runId)
              <==> && k in todos
                   && (|| Edge(StartedTodo, runId, k) in edges
                       || exists t :: Edge(StartedTask, runId, t) in edges && Edge(HasTodo, t, k) in edges)
      ensures k in ClosureTodos(todos, edges, runId) <==> exists x :: x in foundTodos && x.id == k
    {
      assert forall t :: t in StartedTasks(edges, runId) <==> Edge(StartedTask, runId, t) in edges;
      if k in ClosureTodos(todos, edges, runId) { assert Entry(k, todos[k]) in foundTodos; }
    }
  }

  lemma SortedLists<T(!new)>(
      found: seq<Entry<T>>, sorted: seq<Entry<T>>, store: map<Id, T>, ids: set<Id>, wanted: set<Id>,
      less: (Entry<T>, Entry<T>) -> bool)
    requires NoRepeats(found) && multiset(sorted) == multiset(found) && Sorted(sorted, less)
    requires forall x :: x in found <==> x.id in ids && x.id in store && x.entity == store[x.id]
    requires forall x :: x in store ==> (x in ids <==> x in wanted)
    ensures Lists(sorted, store, wanted, less)
  {
    forall x ensures x in sorted <==> x in found {
      assert x in sorted <==> x in multiset(sorted);
      assert x in found <==> x in multiset(found);
    }
    NoRepeatsByCount(found, sorted);
  }

  lemma NoRepeatsByCount<T>(a: seq<T>, b: seq<T>)
    requires NoRepeats(a) && multiset(b) == multiset(a)
    ensures NoRepeats(b)
  {
    forall i, j | 0 <= i < j < |b| ensures b[i] != b[j] {
      if b[i] == b[j] {
        assert b == b[..j] + [b[j]] + b[j + 1..];
        assert b[i] in b[..j];
        assert multiset(b) == multiset(b[..j]) + multiset{b[j]} + multiset(b[j + 1..]);
        OnceEach(a, b[j]);
      }
    }
  }

  lemma {:induction false} OnceEach<T>(a: seq<T>, x: T)
    requires NoRepeats(a)
    ensures multiset(a)[x] <= 1
  {
    if a != [] {
      OnceEach(a[1..], x);
      assert a == [a[0]] + a[1..];
      assert multiset(a) == multiset{a[0]} + multiset(a[1..]);
      if a[0] == x { assert x !in a[1..]; assert x !in multiset(a[1..]); }
    }
  }

  /** Entities that are gone are skipped. */
  method Resolve<T>(store: map<Id, T>, ids: set<Id>) returns (found: seq<Entry<T>>)
    ensures NoRepeats(found)
    ensures forall x :: x in found <==> x.id in ids && x.id in store && x.entity == store[x.id]
  {
    found := [];
    var rest := ids;
    while rest != {}
      invariant rest <= ids && NoRepeats(found)
      invariant forall x :: x in found <==> x.id in ids - rest && x.id in store && x.entity == store[x.id]
      decreases rest
    {
      var id :| id in rest;
      rest := rest - {id};
      if id in store {
        found := found + [Entry(id, store[id])];
      }
    }
  }

  /** Appends the edges not listed yet. */
  method AddEdges(listed: seq<Edge>, more: set<Edge>) returns (r: seq<Edge>)
    requires NoRepeats(listed)
    ensures NoRepeats(r)
    ensures forall e :: e in r <==> e in listed || e in more
  {
    r := listed;
    var rest := more;
    while rest != {}
      invariant rest <= more && NoRepeats(r)
      invariant forall e :: e in r <==> e in listed || e in more - rest
      decreases rest
    {
      var e :| e in rest;
      rest := rest - {e};
      if e !in r {
        r := r + [e];
      }
    }
  }

  /** The edges at each task, and the todos they lead to. */
  method WalkTasks(s: WorkStore, tasks: set<Id>, listed: seq<Edge>) returns (r: seq<Edge>, todos: set<Id>)
    requires NoRepeats(listed)
    ensures NoRepeats(r)
    ensures forall e :: e in r <==> e in listed || (e in s.edges && AtTasks(e, tasks))
    ensures forall k :: k in todos <==> exists t :: t in tasks && Edge(HasTodo, t, k) in s.edges
  {
    r, todos := listed, {};
    var rest := tasks;
    while rest != {}
      invariant rest <= tasks && NoRepeats(r)
      invariant forall e :: e in r <==> e in listed || (e in s.edges && AtTasks(e, tasks - rest))
      invariant forall k :: k in todos <==> exists t :: t in tasks - rest && Edge(HasTodo, t, k) in s.edges
      decreases rest
    {
      var t :| t in rest;
      ghost var seen := tasks - rest;
      rest := rest - {t};
      assert tasks - rest == seen + {t};
      r := WalkTask(s, t, r);
      todos := todos + Targets(s.edges, HasTodo, t);
    }
    assert tasks - rest == tasks;
  }

  /** Its todos, assignees and dependencies, and the tasks that depend on it. */
  method WalkTask(s: WorkStore, t: Id, listed: seq<Edge>) returns (r: seq<Edge>)
    requires NoRepeats(listed)
    ensures NoRepeats(r)
    ensures forall e :: e in r <==> e in listed || (e in s.edges && AtTasks(e, {t}))
  {
    r := AddEdges(listed, set e | e in s.edges && e.from == t && e.name == HasTodo);
    r := AddEdges(r, set e | e in s.edges && e.from == t && e.name == AssignedTo);
    r := AddEdges(r, set e | e in s.edges && e.from == t && e.name == DependsOn);
    r := AddEdges(r, set e | e in s.edges && e.to == t && e.name == DependsOn);
  }
}
