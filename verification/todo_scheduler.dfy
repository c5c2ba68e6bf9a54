/** The todo handlers of internal/server/event_dispatcher.go: reports on a todo, their cascades, and the settlement of
    the parent task. */
module TodoScheduler {
  import opened WorkModel
  import opened TodoGraph
  import Agents
  import Decomposition
  import Tasks

  /* ---- Settling the parent ---- */

  datatype Verdict = StillOpen | AllSucceeded | SomeFailed

  /** As the program decides it: a blocked todo counts as a failed one. */
  function VerdictOf(todos: Board, group: set<Id>): Verdict
    requires group <= todos.Keys
  {
    if exists k :: k in group && todos[k].status.IsLive() then StillOpen
    else if exists k :: k in group && !todos[k].status.Satisfies() then SomeFailed
    else AllSucceeded
  }

  function GroupKids(todos: Board, kids: set<Id>, key: Id): set<Id> {
    set k | k in kids && k in todos && todos[k].decompRunId == key
  }

  /** The decomposition of some kid that was created no earlier than any other. */
  ghost predicate IsLatestAmong(todos: Board, kids: set<Id>, key: Id)
    requires kids <= todos.Keys
  {
    exists k :: k in kids && todos[k].decompRunId == key && forall j :: j in kids ==>
      todos[j].createdAt <= todos[k].createdAt
  }

  /** The status the verdict asks for, if the parent is not settled yet and may move there. */
  function Settlement(task: Task, verdict: Verdict): Option<TaskStatus> {
    var next := if verdict == SomeFailed then TaskFailed else TaskCompleted;
    if verdict == StillOpen || task.status == TaskCompleted || task.status == TaskFailed
      || !task.status.CanTransitionTo(next)
    then None else Some(next)
  }

  ghost predicate Settled(
      before: map<Id, Task>, parent: Id, verdict: Verdict, now: Time, after: map<Id, Task>, published: seq<Event>)
  {
    if parent !in before || Settlement(before[parent], verdict) == None then after == before && published == []
    else
      var next := before[parent].(status := Settlement(before[parent], verdict).value);
      var out := Tasks.Merged(before[parent], next, now);
      after == before[parent := out] && published == Tasks.UpdateEvents(parent, before[parent], out)
  }

  /** Marks the parent completed or failed once every todo of its latest decomposition `key` is settled.  `news` are the
      events published; nothing happens if a todo of the task is missing from the store. */
  method MaybeCompleteParentTask(s: WorkStore, parent: Id, now: Time) returns (ghost key: Id, ghost news: seq<Event>)
    requires s.Valid()
    modifies s`tasks, s`edges, s`events
    ensures s.Valid() && s.edges == old(s.edges) && s.events == old(s.events) + news
    ensures !(Kids(s.edges, parent) <= s.todos.Keys) ==> s.tasks == old(s.tasks) && news == []
    ensures Kids(s.edges, parent) <= s.todos.Keys ==>
              var kids := Kids(s.edges, parent);
              && (kids == {} || IsLatestAmong(s.todos, kids, key))
              && Settled(old(s.tasks), parent, VerdictOf(s.todos, GroupKids(s.todos, kids, key)), now, s.tasks, news)
    // Its end is published exactly when it has been settled.
    ensures parent in old(s.tasks) ==>
              var was, now := old(s.tasks)[parent], s.tasks[parent];
              forall status :: EvTaskCompleted(parent, status, was.workflowRunId) in news
                               <==> now.status == status && status != was.status
    ensures parent !in old(s.tasks) ==> news == []
  {
    news := [];
    var missing, verdict;
    missing, verdict, key := ParentVerdict(s, parent);
    if !missing {
      news := SettleParent(s, parent, verdict, now);
      SettlementTells(old(s.tasks), parent, verdict, now, s.tasks, news);
    }
  }

  /** The parent's end is announced, once, exactly when the verdict settles it. */
  lemma SettlementTells(
      before: map<Id, Task>, parent: Id, verdict: Verdict, now: Time, after: map<Id, Task>, news: seq<Event>)
    requires Settled(before, parent, verdict, now, after, news)
    ensures after.Keys == before.Keys
    ensures forall status: TaskStatus, run ::
              multiset(news)[EvTaskCompleted(parent, status, run)]
              == (if parent in before && before[parent].status != after[parent].status && status == after[parent].status
                     && run == before[parent].workflowRunId then 1 else 0)
    ensures forall e :: e in news ==>
              && parent in before && before[parent].status != after[parent].status
              && (|| e == EvTaskCompleted(parent, after[parent].status, before[parent].workflowRunId)
                  || e == EvTaskStatusChanged(parent, before[parent].status, after[parent].status,
                                              before[parent].workflowRunId))
  {
  }

  /** A verdict ends a parent that is in progress or split, and no other. */
  lemma SettlementMoves(
      before: map<Id, Task>, parent: Id, verdict: Verdict, now: Time, after: map<Id, Task>, news: seq<Event>)
    requires parent in before && Settled(before, parent, verdict, now, after, news)
    ensures parent in after && after.Keys == before.Keys
    ensures forall t :: t in after && t != parent ==> after[t] == before[t]
    ensures var was := before[parent].status;
            after[parent].status
            == if verdict == StillOpen || (was != TaskInProgress && was != TaskSplit) then was
               else if verdict == AllSucceeded then TaskCompleted else TaskFailed
  {
  }

  /** What todos, and the children of a split task, lead to. */
  method SettleParent(s: WorkStore, parent: Id, verdict: Verdict, now: Time) returns (ghost news: seq<Event>)
    requires s.HasIds()
    modifies s`tasks, s`edges, s`events
    ensures s.HasIds() && s.edges == old(s.edges) && s.events == old(s.events) + news
    ensures Settled(old(s.tasks), parent, verdict, now, s.tasks, news)
  {
    news := [];
    if verdict == StillOpen || parent !in s.tasks {
      return;
    }
    var task := s.tasks[parent];
    if task.status == TaskCompleted || task.status == TaskFailed {
      return;
    }
    var ok := Tasks.UpdateInPlace(s, parent,
                                  task.(status := if verdict == SomeFailed then TaskFailed else TaskCompleted), now);
    if ok {
      news := Tasks.UpdateEvents(parent, task, s.tasks[parent]);
    }
  }

  /** Reads the todos of the latest decomposition and judges them. */
  method ParentVerdict(s: WorkStore, parent: Id) returns (missing: bool, verdict: Verdict, ghost key: Id)
    requires s.Valid()
    ensures missing <==> !(Kids(s.edges, parent) <= s.todos.Keys)
    ensures !missing ==>
              var kids := Kids(s.edges, parent);
              && (kids == {} || IsLatestAmong(s.todos, kids, key))
              && verdict == VerdictOf(s.todos, GroupKids(s.todos, kids, key))
  {
    key, verdict := UNSET, StillOpen;
    var all;
    all, missing := CollectTodos(s, Kids(s.edges, parent));
    if missing {
      return;
    }
    ghost var kids := Kids(s.edges, parent);
    var latest;
    latest, key := Decomposition.LatestDecomposition(all);
    assert latest.Some? by {
      if all != [] { assert all[0] in all && all[0].createdAt != NO_TIME; }
    }
    SomeGroup(s.todos, kids, all, key);
    verdict := Judge(latest.value);
  }

  /** Judging the entities of the winning group is judging the kids of that decomposition. */
  lemma SomeGroup(todos: Board, kids: set<Id>, all: seq<Todo>, key: Id)
    requires kids <= todos.Keys
    requires forall t :: t in all <==> exists k :: k in kids && todos[k] == t
    requires all != [] ==> Decomposition.IsLatestKey(all, key)
    ensures kids == {} || IsLatestAmong(todos, kids, key)
    ensures var group, members := GroupKids(todos, kids, key), Decomposition.GroupOf(all, key);
            && (forall k :: k in group ==> todos[k] in members)
            && (forall t :: t in members ==> exists k :: k in group && todos[k] == t)
  {
    Decomposition.GroupMembers(all, key);
    forall k | k in kids ensures todos[k] in all {}
    if kids != {} {
      var k :| k in kids;
      assert todos[k] in all;
      var top :| top in all && top.decompRunId == key && forall u :: u in all ==> u.createdAt <= top.createdAt;
      var j :| j in kids && todos[j] == top;
    }
  }

  /** The kids' entities in any order; `missing` if one is not in the store. */
  method CollectTodos(s: WorkStore, kids: set<Id>) returns (all: seq<Todo>, missing: bool)
    ensures missing <==> !(kids <= s.todos.Keys)
    ensures !missing ==> forall t :: t in all <==> exists k :: k in kids && s.todos[k] == t
  {
    all := [];
    var rest := kids;
    while rest != {}
      invariant rest <= kids && kids - rest <= s.todos.Keys
      invariant forall t :: t in all <==> exists k :: k in kids - rest && s.todos[k] == t
      decreases rest
    {
      var id :| id in rest;
      if id !in s.todos {
        return all, true;
      }
      ghost var seen := kids - rest;
      rest := rest - {id};
      assert kids - rest == seen + {id};
      all := all + [s.todos[id]];
    }
    assert kids - rest == kids;
    missing := false;
  }

  method Judge(todos: seq<Todo>) returns (verdict: Verdict)
    ensures verdict == StillOpen <==> exists t :: t in todos && t.status.IsLive()
    ensures verdict == AllSucceeded <==> forall t :: t in todos ==> t.status.Satisfies()
  {
    var anyFailed := false;
    for i := 0 to |todos|
      invariant forall t :: t in todos[..i] ==> !t.status.IsLive()
      invariant anyFailed <==> exists t :: t in todos[..i] && !t.status.Satisfies()
    {
      assert todos[..i + 1] == todos[..i] + [todos[i]];
      match todos[i].status {
        case TodoCompleted | TodoSkipped =>
        case TodoFailed | TodoBlocked => anyFailed := true;
        case _ => return StillOpen;
      }
    }
    assert todos[..|todos|] == todos;
    verdict := if anyFailed then SomeFailed else AllSucceeded;
  }

  /* ---- Reports on a todo ---- */

  /** What can be reported on a todo, by an agent run or by an operator. */
  datatype Report = Started | Completed | Failed | Skipped
  {
    function Status(): TodoStatus {
      match this
      case Started => TodoDispatched
      case Completed => TodoCompleted
      case Failed => TodoFailed
      case Skipped => TodoSkipped
    }
  }

  /** The siblings' statuses after a report on ordinality `ord`, when `ready` are the todos it releases. */
  function Spread(todos: Board, kids: set<Id>, ord: int, report: Report, ready: set<Id>): Board {
    match report
    case Started => todos
    case Completed => WithStatus(todos, ready, TodoPending)
    case Skipped => WithStatus(todos, ready, TodoPending)
    case Failed => WithStatus(todos, Cascade(todos, BlockedKids(todos, kids), {ord}), TodoFailed)
  }

  /** Whether the report releases dependents. */
  predicate Releases(report: Report) { report == Completed || report == Skipped }

  function Marked(todos: Board, id: Id, report: Report): Board
    requires id in todos
  {
    todos[id := todos[id].(status := report.Status())]
  }

  /** The todos released by a report, judged from the snapshot the handler took. */
  function ReleasedIn(todos: Board, edges: set<Edge>, id: Id, report: Report, snap: map<int, TodoStatus>): set<Id>
    requires id in todos
  {
    if Releases(report) then ReadyIn(Marked(todos, id, report), Kids(edges, todos[id].parentTaskId),
                                     todos[id].ordinality, snap)
    else {}
  }

  /** The outcome of one report: `trail` names the snapshot, the order of publication, the winning decomposition and the
      events of the parent's settlement. */
  ghost predicate Reported(before: Board, edges: set<Edge>, id: Id, report: Report, trail: Trail, after: Board)
    requires id in before
  {
    var kids, ord := Kids(edges, before[id].parentTaskId), before[id].ordinality;
    var marked, ready := Marked(before, id, report), ReleasedIn(before, edges, id, report, trail.snap);
    && (Releases(report) ==> IsSnapshot(marked, kids, trail.snap))
    && Enumerates(trail.order, ready)
    && after == Spread(marked, kids, ord, report, ready)
  }

  ghost predicate ParentSettled(
      before: map<Id, Task>, todos: Board, edges: set<Edge>, parent: Id, now: Time, trail: Trail, after: map<Id, Task>)
  {
    var kids := Kids(edges, parent);
    if kids <= todos.Keys then
      && (kids == {} || IsLatestAmong(todos, kids, trail.key))
      && Settled(before, parent, VerdictOf(todos, GroupKids(todos, kids, trail.key)), now, after, trail.news)
    else after == before && trail.news == []
  }

  datatype Trail = Trail(snap: map<int, TodoStatus>, order: seq<Id>, key: Id, news: seq<Event>)

  /** The cascade after a todo of `parent` got the reported status, then the settlement of the parent. */
  method Propagate(s: WorkStore, parent: Id, ord: int, report: Report, now: Time) returns (ghost trail: Trail)
    requires s.Valid()
    modifies s`tasks, s`todos, s`edges, s`events
    ensures s.Valid() && s.edges == old(s.edges)
    ensures var kids := Kids(s.edges, parent);
            var ready := if Releases(report) then ReadyIn(old(s.todos), kids, ord, trail.snap) else {};
            && (if Releases(report) then IsSnapshot(old(s.todos), kids, trail.snap) else trail.order == [])
            && Enumerates(trail.order, ready)
            && s.todos == Spread(old(s.todos), kids, ord, report, ready)
    ensures if report == Started then s.tasks == old(s.tasks) && trail.news == []
            else ParentSettled(old(s.tasks), s.todos, s.edges, parent, now, trail, s.tasks)
    ensures s.events == old(s.events) + DispatchEvents(trail.order) + trail.news
  {
    trail := SpreadReport(s, parent, ord, report);
    if report != Started {
      ghost var key, news := MaybeCompleteParentTask(s, parent, now);
      trail := trail.(key := key, news := news);
    }
  }

  /** The release or the cascade that a report asks for. */
  method SpreadReport(s: WorkStore, parent: Id, ord: int, report: Report) returns (ghost trail: Trail)
    requires s.Valid()
    modifies s`todos, s`events
    ensures s.Valid() && trail.news == []
    ensures var kids := Kids(s.edges, parent);
            var ready := if Releases(report) then ReadyIn(old(s.todos), kids, ord, trail.snap) else {};
            && (if Releases(report) then IsSnapshot(old(s.todos), kids, trail.snap) else trail.order == [])
            && Enumerates(trail.order, ready)
            && s.todos == Spread(old(s.todos), kids, ord, report, ready)
    ensures s.events == old(s.events) + DispatchEvents(trail.order)
  {
    trail := Trail(map[], [], UNSET, []);
    match report {
      case Started =>
      case Completed | Skipped =>
        ghost var snap, order := UnblockDependentTodos(s, parent, ord);
        trail := trail.(snap := snap, order := order);
      case Failed =>
        BlockDependentTodos(s, parent, ord);
    }
  }

  /** task.started, task.completed and task.failed carrying a todo's id. */
  method UpdateTodoStatus(s: WorkStore, id: Id, report: Report, now: Time) returns (ghost trail: Trail)
    requires s.Valid() && report != Skipped
    modifies s`tasks, s`todos, s`edges, s`events
    ensures s.Valid() && s.edges == old(s.edges)
    ensures id !in old(s.todos) ==> s.todos == old(s.todos) && s.tasks == old(s.tasks) && s.events == old(s.events)
    ensures id in old(s.todos) ==>
              && Reported(old(s.todos), s.edges, id, report, trail, s.todos)
              && (if report == Started then s.tasks == old(s.tasks) && trail.news == []
                  else ParentSettled(old(s.tasks), s.todos, s.edges, old(s.todos[id]).parentTaskId, now, trail,
                                     s.tasks))
              && s.events == old(s.events)
                             + (if report == Started then [] else [EvTodoCompleted(id, report.Status())])
                             + DispatchEvents(trail.order) + trail.news
    ensures id in old(s.todos) ==>
              && id in s.todos
              && s.todos[id].status == match report
                                       case Started => TodoDispatched
                                       case Completed => TodoCompleted
                                       case _ => TodoFailed
  {
    trail := Trail(map[], [], UNSET, []);
    if id !in s.todos {
      return;
    }
    var parent, ord := s.todos[id].parentTaskId, s.todos[id].ordinality;
    s.todos := s.todos[id := s.todos[id].(status := report.Status())];
    if report != Started {
      s.Publish(EvTodoCompleted(id, report.Status()));
    }
    trail := Propagate(s, parent, ord, report, now);
  }

  /** Skipping is a non-failing end: dependents are released as after a completion. */
  method SkipTodo(s: WorkStore, id: Id, now: Time) returns (r: Result<()>, ghost trail: Trail)
    requires s.Valid()
    modifies s`tasks, s`todos, s`edges, s`events
    ensures s.Valid() && s.edges == old(s.edges)
    ensures id !in old(s.todos) ==>
              r == Err(ErrTodoNotFound) && s.todos == old(s.todos) && s.tasks == old(s.tasks)
                && s.events == old(s.events)
    ensures id in old(s.todos) ==>
              && r == Ok(())
              && Reported(old(s.todos), s.edges, id, Skipped, trail, s.todos)
              && ParentSettled(old(s.tasks), s.todos, s.edges, old(s.todos[id]).parentTaskId, now, trail, s.tasks)
              && s.events == old(s.events) + [EvTodoCompleted(id, TodoSkipped)] + DispatchEvents(trail.order)
                + trail.news
  {
    trail := Trail(map[], [], UNSET, []);
    if id !in s.todos {
      return Err(ErrTodoNotFound), trail;
    }
    s.todos := s.todos[id := s.todos[id].(status := TodoSkipped)];
    var parent, ord := s.todos[id].parentTaskId, s.todos[id].ordinality;
    s.Publish(EvTodoCompleted(id, TodoSkipped));
    trail := Propagate(s, parent, ord, Skipped, now);
    r := Ok(());
  }

  /** An operator's failure of a todo: the same cascade, without a todo.completed event. */
  method FailTodoWithCascade(s: WorkStore, id: Id, now: Time) returns (r: Result<()>, ghost trail: Trail)
    requires s.Valid()
    modifies s`tasks, s`todos, s`edges, s`events
    ensures s.Valid() && s.edges == old(s.edges)
    ensures id !in old(s.todos) ==>
              r == Err(ErrTodoNotFound) && s.todos == old(s.todos) && s.tasks == old(s.tasks)
                && s.events == old(s.events)
    ensures id in old(s.todos) ==>
              && r == Ok(())
              && Reported(old(s.todos), s.edges, id, Failed, trail, s.todos)
              && ParentSettled(old(s.tasks), s.todos, s.edges, old(s.todos[id]).parentTaskId, now, trail, s.tasks)
              && s.events == old(s.events) + trail.news
  {
    trail := Trail(map[], [], UNSET, []);
    if id !in s.todos {
      return Err(ErrTodoNotFound), trail;
    }
    var parent, ord := s.todos[id].parentTaskId, s.todos[id].ordinality;
    s.todos := s.todos[id := s.todos[id].(status := TodoFailed)];
    trail := Propagate(s, parent, ord, Failed, now);
    r := Ok(());
  }

  /* ---- A decomposition becomes todos ---- */

  datatype TodoItem = TodoItem(title: string, instructions: string, ordinality: int, dependsOn: seq<int>)

  /** The event that carries a decomposition. */
  datatype Plan = Plan(parent: Id, decompRunId: Id, runId: Id, items: seq<TodoItem>)

  /** Items without a title or instructions are refused and skipped. */
  predicate Accepted(item: TodoItem) {
    item.title != "" && item.instructions != ""
  }

  function InheritedRun(plan: Plan, tasks: map<Id, Task>): Id {
    if plan.runId == UNSET && plan.parent in tasks then tasks[plan.parent].workflowRunId else plan.runId
  }

  function NewTodo(plan: Plan, item: TodoItem, runId: Id, now: Time): Todo {
    Todo(item.title, item.instructions, item.ordinality, item.dependsOn,
         if item.dependsOn == [] then TodoPending else TodoBlocked,
         plan.parent, plan.decompRunId, runId, now)
  }

  predicate IsRoot(item: TodoItem) {
    Accepted(item) && item.dependsOn == []
  }

  /** The ids of the accepted items among the first `n`, in order. */
  function PlannedIds(items: seq<TodoItem>, ids: seq<Id>, n: nat): seq<Id>
    requires n <= |items| == |ids|
  {
    if n == 0 then []
    else
      var earlier := PlannedIds(items, ids, n - 1);
      if Accepted(items[n - 1]) then earlier + [ids[n - 1]] else earlier
  }

  function RootIds(items: seq<TodoItem>, ids: seq<Id>, n: nat): seq<Id>
    requires n <= |items| == |ids|
  {
    if n == 0 then []
    else
      var earlier := RootIds(items, ids, n - 1);
      if IsRoot(items[n - 1]) then earlier + [ids[n - 1]] else earlier
  }

  /** The board once the first `n` items have become todos. */
  function Planned(before: Board, plan: Plan, ids: seq<Id>, n: nat, runId: Id, now: Time): Board
    requires n <= |plan.items| == |ids|
  {
    if n == 0 then before
    else
      var sofar := Planned(before, plan, ids, n - 1, runId, now);
      if Accepted(plan.items[n - 1]) then sofar[ids[n - 1] := NewTodo(plan, plan.items[n - 1], runId, now)] else sofar
  }

  lemma {:induction false} PlannedMembers(items: seq<TodoItem>, ids: seq<Id>, n: nat)
    requires n <= |items| == |ids|
    ensures forall x :: x in PlannedIds(items, ids, n) <==> exists i :: 0 <= i < n && ids[i] == x && Accepted(items[i])
    ensures forall x :: x in RootIds(items, ids, n) <==> exists i :: 0 <= i < n && ids[i] == x && IsRoot(items[i])
  {
    if n > 0 { PlannedMembers(items, ids, n - 1); }
  }

  lemma {:induction false} RootsOnce(items: seq<TodoItem>, ids: seq<Id>, n: nat)
    requires n <= |items| == |ids| && NoRepeats(ids)
    ensures forall x :: multiset(RootIds(items, ids, n))[x] == if x in RootIds(items, ids, n) then 1 else 0
  {
    if n > 0 {
      var earlier := RootIds(items, ids, n - 1);
      RootsOnce(items, ids, n - 1);
      PlannedMembers(items, ids, n - 1);
      assert multiset(earlier + [ids[n - 1]]) == multiset(earlier) + multiset{ids[n - 1]};
    }
  }

  lemma {:induction false} PlannedBoard(before: Board, plan: Plan, ids: seq<Id>, n: nat, runId: Id, now: Time)
    requires n <= |plan.items| == |ids| && NoRepeats(ids)
    requires forall i :: 0 <= i < |ids| ==> ids[i] !in before
    ensures var after := Planned(before, plan, ids, n, runId, now);
            && (forall k :: k in after <==> k in before || k in PlannedIds(plan.items, ids, n))
            && (forall k :: k in before ==> after[k] == before[k])
            && forall i :: 0 <= i < n && Accepted(plan.items[i]) ==>
                 ids[i] in after && after[ids[i]] == NewTodo(plan, plan.items[i], runId, now)
  {
    if n > 0 { PlannedBoard(before, plan, ids, n - 1, runId, now); }
  }

  lemma {:induction false} DispatchCount(order: seq<Id>, x: Id)
    ensures multiset(DispatchEvents(order))[EvTodoDispatched(x)] == multiset(order)[x]
  {
    if order != [] {
      var n := |order| - 1;
      assert DispatchEvents(order) == DispatchEvents(order[..n]) + [EvTodoDispatched(order[n])];
      assert order == order[..n] + [order[n]];
      DispatchCount(order[..n], x);
    }
  }

  function HasTodoEdges(parent: Id, ids: seq<Id>): set<Edge> {
    set k | k in ids :: Edge(HasTodo, parent, k)
  }

  function AgentEdges(ids: seq<Id>, agent: Id): set<Edge> {
    if agent == UNSET then {} else set k | k in ids :: Edge(TodoAssignedTo, k, agent)
  }

  /** The edges of new todos: from the parent task if it exists, to the agent if there is one. */
  function PlanEdges(linked: bool, parent: Id, ids: seq<Id>, agent: Id): set<Edge> {
    (if linked then HasTodoEdges(parent, ids) else {}) + AgentEdges(ids, agent)
  }

  function ItemEvents(linked: bool, parent: Id, id: Id, agent: Id): seq<Event> {
    (if linked then [EvRelationshipCreated(Edge(HasTodo, parent, id))] else [])
    + (if agent == UNSET then [] else [EvRelationshipCreated(Edge(TodoAssignedTo, id, agent))])
  }

  function PlanEvents(linked: bool, parent: Id, ids: seq<Id>, agent: Id): seq<Event> {
    if ids == [] then []
    else PlanEvents(linked, parent, ids[..|ids| - 1], agent) + ItemEvents(linked, parent, ids[|ids| - 1], agent)
  }

  /** The agent that new todos get an edge to: an id that is no agent's gets none. */
  function LinkedAgent(agents: map<Id, Agent>, agent: Id): Id {
    if agent in agents then agent else UNSET
  }

  /** todo.created: one todo for each item, blocked if it has dependencies; then the roots are dispatched in order.
      `slug` names the agent that sent it, `made` is the id it gets if it has to be made. */
  method HandleTodoCreated(s: WorkStore, plan: Plan, slug: string, ids: seq<Id>, made: Id, now: Time)
    returns (ghost agent: Id)
    requires s.Valid() && |ids| == |plan.items| && NoRepeats(ids) && now != NO_TIME
    requires s.Fresh(made) && made !in ids && forall i :: 0 <= i < |ids| ==> s.Fresh(ids[i])
    modifies s`todos, s`agents, s`edges, s`events
    ensures s.Valid()
    ensures plan.parent == UNSET ==>
              && s.todos == old(s.todos) && s.agents == old(s.agents) && s.edges == old(s.edges)
                && s.events == old(s.events)
    ensures plan.parent != UNSET ==>
              var linked, planned := plan.parent in s.tasks, PlannedIds(plan.items, ids, |ids|);
              && Agents.Resolved(old(s.agents), old(Agents.DirectoryOf(s)), old(s.edges), plan.parent, slug, made,
                                 agent, s.agents)
              && s.todos == Planned(old(s.todos), plan, ids, |ids|, InheritedRun(plan, s.tasks), now)
              && s.edges == old(s.edges) + PlanEdges(linked, plan.parent, planned, LinkedAgent(s.agents, agent))
              && s.events == old(s.events) + PlanEvents(linked, plan.parent, planned, LinkedAgent(s.agents, agent))
                             + DispatchEvents(RootIds(plan.items, ids, |ids|))
    // Item by item: what becomes a todo, whose it is, and whether it is dispatched.
    ensures plan.parent != UNSET ==>
              var run := if plan.runId != UNSET then plan.runId
                         else if plan.parent in s.tasks then s.tasks[plan.parent].workflowRunId else UNSET;
              && (forall k :: k !in ids ==> (k in s.todos <==> k in old(s.todos)))
              && (forall k :: k in old(s.todos) ==> k in s.todos && s.todos[k] == old(s.todos)[k])
              && forall i :: 0 <= i < |ids| ==>
                   var item := plan.items[i];
                   && (ids[i] in s.todos <==> item.title != "" && item.instructions != "")
                   && (ids[i] in s.todos ==>
                         && s.todos[ids[i]]
                            == Todo(item.title, item.instructions, item.ordinality, item.dependsOn,
                                    if item.dependsOn == [] then TodoPending else TodoBlocked,
                                    plan.parent, plan.decompRunId, run, now)
                         && (Edge(HasTodo, plan.parent, ids[i]) in s.edges <==> plan.parent in s.tasks)
                         && (forall a :: Edge(TodoAssignedTo, ids[i], a) in s.edges <==> a == agent && a in s.agents))
                   && multiset(s.events[|old(s.events)|..])[EvTodoDispatched(ids[i])]
                      == if item.title != "" && item.instructions != "" && item.dependsOn == [] then 1 else 0
  {
    agent := UNSET;
    if plan.parent == UNSET {
      return;
    }
    var resolved := Agents.ResolveAgent(s, plan.parent, slug, made);
    agent := resolved;
    MakeTodos(s, plan, ids, LinkedAgent(s.agents, resolved), now);
    BoardTells(old(s.todos), plan, ids, s.tasks, now);
    EdgesTell(old(s.edges), plan, ids, plan.parent in s.tasks, s.agents, agent);
    LogTells(old(s.events), plan, ids, plan.parent in s.tasks, LinkedAgent(s.agents, agent));
  }

  lemma BoardTells(before: Board, plan: Plan, ids: seq<Id>, tasks: map<Id, Task>, now: Time)
    requires |ids| == |plan.items| && NoRepeats(ids) && forall i :: 0 <= i < |ids| ==> ids[i] !in before
    ensures var after := Planned(before, plan, ids, |ids|, InheritedRun(plan, tasks), now);
            var run := if plan.runId != UNSET then plan.runId
                       else if plan.parent in tasks then tasks[plan.parent].workflowRunId else UNSET;
            && (forall k :: k !in ids ==> (k in after <==> k in before))
            && (forall k :: k in before ==> k in after && after[k] == before[k])
            && forall i :: 0 <= i < |ids| ==>
                 var item := plan.items[i];
                 && (ids[i] in after <==> item.title != "" && item.instructions != "")
                 && (ids[i] in after ==>
                       after[ids[i]] == Todo(item.title, item.instructions, item.ordinality, item.dependsOn,
                                             if item.dependsOn == [] then TodoPending else TodoBlocked,
                                             plan.parent, plan.decompRunId, run, now))
  {
    PlannedBoard(before, plan, ids, |ids|, InheritedRun(plan, tasks), now);
    PlannedMembers(plan.items, ids, |ids|);
  }

  lemma EdgesTell(before: set<Edge>, plan: Plan, ids: seq<Id>, linked: bool, agents: map<Id, Agent>, agent: Id)
    requires |ids| == |plan.items| && NoRepeats(ids) && UNSET !in agents
    requires forall e, i :: e in before && 0 <= i < |ids| ==> e.from != ids[i] && e.to != ids[i]
    ensures var made := PlannedIds(plan.items, ids, |ids|);
            var after := before + PlanEdges(linked, plan.parent, made, LinkedAgent(agents, agent));
            forall i :: 0 <= i < |ids| && plan.items[i].title != "" && plan.items[i].instructions != "" ==>
              && (Edge(HasTodo, plan.parent, ids[i]) in after <==> linked)
              && (forall a :: Edge(TodoAssignedTo, ids[i], a) in after <==> a == agent && a in agents)
  {
    PlannedMembers(plan.items, ids, |ids|);
    forall i | 0 <= i < |ids| && Accepted(plan.items[i]) ensures ids[i] in PlannedIds(plan.items, ids, |ids|) {}
  }

  lemma LogTells(log: seq<Event>, plan: Plan, ids: seq<Id>, linked: bool, agent: Id)
    requires |ids| == |plan.items| && NoRepeats(ids)
    ensures var made, roots := PlannedIds(plan.items, ids, |ids|), RootIds(plan.items, ids, |ids|);
            var news := (log + PlanEvents(linked, plan.parent, made, agent) + DispatchEvents(roots))[|log|..];
            forall i :: 0 <= i < |ids| ==>
              multiset(news)[EvTodoDispatched(ids[i])]
              == if plan.items[i].title != "" && plan.items[i].instructions != "" && plan.items[i].dependsOn == []
              then 1
                 else 0
  {
    forall i | 0 <= i < |ids| { LogCounts(log, plan, ids, linked, agent, i); }
  }

  lemma LogCounts(log: seq<Event>, plan: Plan, ids: seq<Id>, linked: bool, agent: Id, i: nat)
    requires i < |ids| == |plan.items| && NoRepeats(ids)
    ensures var made, roots := PlannedIds(plan.items, ids, |ids|), RootIds(plan.items, ids, |ids|);
            var news := (log + PlanEvents(linked, plan.parent, made, agent) + DispatchEvents(roots))[|log|..];
            multiset(news)[EvTodoDispatched(ids[i])]
            == if plan.items[i].title != "" && plan.items[i].instructions != "" && plan.items[i].dependsOn == [] then 1
               else 0
  {
    var made, roots, e := PlannedIds(plan.items, ids, |ids|), RootIds(plan.items, ids, |ids|), EvTodoDispatched(ids[i]);
    var links := PlanEvents(linked, plan.parent, made, agent);
    OnlyLinks(linked, plan.parent, made, agent);
    NewsCount(log, links, DispatchEvents(roots), e);
    CountBoth(links, [], e);
    DispatchCount(roots, ids[i]);
    RootCount(plan.items, ids, i);
  }

  lemma RootCount(items: seq<TodoItem>, ids: seq<Id>, i: nat)
    requires i < |ids| == |items| && NoRepeats(ids)
    ensures multiset(RootIds(items, ids, |ids|))[ids[i]] == if IsRoot(items[i]) then 1 else 0
  {
    RootsOnce(items, ids, |ids|);
    PlannedMembers(items, ids, |ids|);
  }

  lemma {:induction false} OnlyLinks(linked: bool, parent: Id, made: seq<Id>, agent: Id)
    ensures forall e :: e in PlanEvents(linked, parent, made, agent) ==> e.EvRelationshipCreated?
  {
    if made != [] { OnlyLinks(linked, parent, made[..|made| - 1], agent); }
  }

  /** The todos and the dispatch of the roots, once the agent is resolved. */
  method MakeTodos(s: WorkStore, plan: Plan, ids: seq<Id>, agent: Id, now: Time)
    requires s.Valid() && |ids| == |plan.items| && NoRepeats(ids) && now != NO_TIME && plan.parent != UNSET
    requires (agent == UNSET || agent in s.agents) && forall i :: 0 <= i < |ids| ==> s.Fresh(ids[i])
    modifies s`todos, s`edges, s`events
    ensures s.Valid()
    ensures var linked, planned := plan.parent in s.tasks, PlannedIds(plan.items, ids, |ids|);
            && s.todos == Planned(old(s.todos), plan, ids, |ids|, InheritedRun(plan, s.tasks), now)
            && s.edges == old(s.edges) + PlanEdges(linked, plan.parent, planned, agent)
            && s.events == old(s.events) + PlanEvents(linked, plan.parent, planned, agent)
                           + DispatchEvents(RootIds(plan.items, ids, |ids|))
  {
    var runId := InheritedRun(plan, s.tasks);
    CreateTodos(s, plan, ids, agent, runId, now);
    DispatchRoots(s, plan.items, ids);
  }

  method CreateTodos(s: WorkStore, plan: Plan, ids: seq<Id>, agent: Id, runId: Id, now: Time)
    requires s.Valid() && |ids| == |plan.items| && NoRepeats(ids) && now != NO_TIME && plan.parent != UNSET
    requires (agent == UNSET || agent in s.agents) && forall i :: 0 <= i < |ids| ==> s.Fresh(ids[i])
    modifies s`todos, s`edges, s`events
    ensures s.Valid()
    ensures var linked, made := plan.parent in s.tasks, PlannedIds(plan.items, ids, |ids|);
            && s.todos == Planned(old(s.todos), plan, ids, |ids|, runId, now)
            && s.edges == old(s.edges) + PlanEdges(linked, plan.parent, made, agent)
            && s.events == old(s.events) + PlanEvents(linked, plan.parent, made, agent)
    ensures forall i :: 0 <= i < |ids| && Accepted(plan.items[i]) ==>
              ids[i] in s.todos && s.todos[ids[i]] == NewTodo(plan, plan.items[i], runId, now)
  {
    ghost var before, edges, events := s.todos, s.edges, s.events;
    for i := 0 to |ids|
      invariant s.HasIds() && TodosComplete(s.todos)
      invariant TodosMade(s, plan, ids, i, agent, runId, now, before, edges, events)
    {
      CreateItem(s, plan, ids, i, agent, runId, now, before, edges, events);
    }
  }

  /** The accepted items among the first `n` have become todos. */
  ghost predicate TodosMade(
      s: WorkStore, plan: Plan, ids: seq<Id>, n: nat, agent: Id, runId: Id, now: Time,
      before: Board, edges: set<Edge>, events: seq<Event>)
    requires n <= |ids| == |plan.items|
    reads s
  {
    var linked, made := plan.parent in s.tasks, PlannedIds(plan.items, ids, n);
    && BoardMade(s.todos, plan, ids, n, runId, now, before)
    && s.edges == edges + PlanEdges(linked, plan.parent, made, agent)
    && s.events == events + PlanEvents(linked, plan.parent, made, agent)
    && (forall i :: n <= i < |ids| ==> ids[i] !in made)
  }

  ghost predicate BoardMade(todos: Board, plan: Plan, ids: seq<Id>, n: nat, runId: Id, now: Time, before: Board)
    requires n <= |ids| == |plan.items|
  {
    && todos == Planned(before, plan, ids, n, runId, now)
    && (forall i :: 0 <= i < n && Accepted(plan.items[i]) ==>
        ids[i] in todos && todos[ids[i]] == NewTodo(plan, plan.items[i], runId, now))
  }

  lemma BoardStep(todos: Board, plan: Plan, ids: seq<Id>, i: nat, runId: Id, now: Time, before: Board)
    requires i < |ids| == |plan.items| && NoRepeats(ids) && BoardMade(todos, plan, ids, i, runId, now, before)
    ensures BoardMade(if Accepted(plan.items[i]) then todos[ids[i] := NewTodo(plan, plan.items[i], runId, now)]
                      else todos,
                      plan, ids, i + 1, runId, now, before)
  {
  }

  method CreateItem(
      s: WorkStore, plan: Plan, ids: seq<Id>, i: nat, agent: Id, runId: Id, now: Time,
      ghost before: Board, ghost edges: set<Edge>, ghost events: seq<Event>)
    requires i < |ids| == |plan.items| && NoRepeats(ids) && now != NO_TIME && plan.parent != UNSET && ids[i] != UNSET
    requires s.HasIds() && TodosComplete(s.todos) && (agent == UNSET || agent in s.agents)
    requires TodosMade(s, plan, ids, i, agent, runId, now, before, edges, events)
    requires Edge(HasTodo, plan.parent, ids[i]) !in edges && Edge(TodoAssignedTo, ids[i], agent) !in edges
    modifies s`todos, s`edges, s`events
    ensures s.HasIds() && TodosComplete(s.todos)
    ensures TodosMade(s, plan, ids, i + 1, agent, runId, now, before, edges, events)
  {
    BoardStep(s.todos, plan, ids, i, runId, now, before);
    if Accepted(plan.items[i]) {
      ghost var linked, made := plan.parent in s.tasks, PlannedIds(plan.items, ids, i);
      LinkOneMore(edges, events, linked, plan.parent, made, ids[i], agent);
      CreateTodo(s, plan, plan.items[i], ids[i], agent, runId, now);
    }
  }

  lemma LinkOneMore(edges: set<Edge>, events: seq<Event>, linked: bool, parent: Id, made: seq<Id>, id: Id, agent: Id)
    ensures edges + PlanEdges(linked, parent, made, agent) + PlanEdges(linked, parent, [id], agent)
            == edges + PlanEdges(linked, parent, made + [id], agent)
    ensures events + PlanEvents(linked, parent, made, agent) + ItemEvents(linked, parent, id, agent)
            == events + PlanEvents(linked, parent, made + [id], agent)
    ensures id !in made && Edge(HasTodo, parent, id) !in edges && Edge(TodoAssignedTo, id, agent) !in edges ==>
              && Edge(HasTodo, parent, id) !in edges + PlanEdges(linked, parent, made, agent)
              && Edge(TodoAssignedTo, id, agent) !in edges + PlanEdges(linked, parent, made, agent)
  {
    assert (made + [id])[..|made|] == made;
    LogAssoc(events, PlanEvents(linked, parent, made, agent), ItemEvents(linked, parent, id, agent));
  }

  /** One item: the entity and its edges. */
  method CreateTodo(s: WorkStore, plan: Plan, item: TodoItem, id: Id, agent: Id, runId: Id, now: Time)
    requires s.HasIds() && id != UNSET && plan.parent != UNSET && (agent == UNSET || agent in s.agents)
    requires Edge(HasTodo, plan.parent, id) !in s.edges && Edge(TodoAssignedTo, id, agent) !in s.edges
    modifies s`todos, s`edges, s`events
    ensures s.HasIds()
    ensures s.todos == old(s.todos)[id := NewTodo(plan, item, runId, now)]
    ensures s.edges == old(s.edges) + PlanEdges(plan.parent in s.tasks, plan.parent, [id], agent)
    ensures s.events == old(s.events) + ItemEvents(plan.parent in s.tasks, plan.parent, id, agent)
  {
    s.todos := s.todos[id := NewTodo(plan, item, runId, now)];
    LinkTodo(s, plan.parent, id, agent);
  }

  method LinkTodo(s: WorkStore, parent: Id, id: Id, agent: Id)
    requires s.HasIds() && id in s.todos && parent != UNSET && (agent == UNSET || agent in s.agents)
    requires Edge(HasTodo, parent, id) !in s.edges && Edge(TodoAssignedTo, id, agent) !in s.edges
    modifies s`edges, s`events
    ensures s.HasIds()
    ensures s.edges == old(s.edges) + PlanEdges(parent in s.tasks, parent, [id], agent)
    ensures s.events == old(s.events) + ItemEvents(parent in s.tasks, parent, id, agent)
  {
    Tasks.TodoEnds(s, parent, id);
    assert HasTodoEdges(parent, [id]) == {Edge(HasTodo, parent, id)};
    assert agent != UNSET ==> AgentEdges([id], agent) == {Edge(TodoAssignedTo, id, agent)};
    if parent in s.tasks {
      Tasks.Link(s, Edge(HasTodo, parent, id));
    } else {
      var refused := Tasks.CreateRelationship(s, Edge(HasTodo, parent, id));
    }
    if agent != UNSET {
      Tasks.TodoEnds(s, parent, id);
      Tasks.Link(s, Edge(TodoAssignedTo, id, agent));
    }
  }

  method DispatchRoots(s: WorkStore, items: seq<TodoItem>, ids: seq<Id>)
    requires s.Valid() && |ids| == |items|
    requires forall i :: 0 <= i < |ids| && IsRoot(items[i]) ==>
               ids[i] in s.todos && s.todos[ids[i]].status == TodoPending
    modifies s`todos, s`events
    ensures s.Valid() && s.todos == old(s.todos)
    ensures s.events == old(s.events) + DispatchEvents(RootIds(items, ids, |ids|))
  {
    for i := 0 to |ids|
      invariant s.Valid() && s.todos == old(s.todos)
      invariant s.events == old(s.events) + DispatchEvents(RootIds(items, ids, i))
    {
      if IsRoot(items[i]) {
        var _ := DispatchTaskTodo(s, ids[i]);
      }
    }
  }
}
