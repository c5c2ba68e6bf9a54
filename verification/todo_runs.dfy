/** Runs of the todo scheduler: reports on todos and decompositions of tasks, in any order, any number of times, with
    any order of edges and any snapshots. */
module TodoRuns {
  import opened WorkModel
  import opened TodoGraph
  import opened TodoScheduler

  /* ---- With unique ordinalities a report is a function ---- */

  /** The todos a report releases when ordinalities are unique. */
  function Released(todos: Board, edges: set<Edge>, id: Id, report: Report): set<Id>
    requires id in todos
  {
    if Releases(report)
    then Ready(Marked(todos, id, report), Kids(edges, todos[id].parentTaskId), todos[id].ordinality)
    else {}
  }

  function AfterReport(todos: Board, edges: set<Edge>, id: Id, report: Report): Board
    requires id in todos
  {
    Spread(Marked(todos, id, report), Kids(edges, todos[id].parentTaskId), todos[id].ordinality, report,
           Released(todos, edges, id, report))
  }

  /** The handlers compute this function, whatever order they visit edges and siblings in. */
  lemma HandlersComputeAfterReport(
      todos: Board, edges: set<Edge>, id: Id, report: Report, trail: Trail, after: Board)
    requires id in todos && Reported(todos, edges, id, report, trail, after)
    requires UniqueOrdinalities(todos, Kids(edges, todos[id].parentTaskId))
    ensures after == AfterReport(todos, edges, id, report)
    ensures Enumerates(trail.order, Released(todos, edges, id, report))
  {
    if Releases(report) {
      var kids := Kids(edges, todos[id].parentTaskId);
      SnapshotIrrelevant(Marked(todos, id, report), kids, todos[id].ordinality, trail.snap);
    }
  }

  /* ---- Runs ---- */

  /** The board, the edges, and how often each todo has been published for execution. */
  datatype Progress = Progress(todos: Board, edges: set<Edge>, published: multiset<Id>)

  /** A decomposition event as the handler carries it out: the plan, the ids its items get, the agent of the todos,
      whether the parent task exists, the run inherited, and the time. */
  datatype Batch = Batch(plan: Plan, ids: seq<Id>, agent: Id, linked: bool, runId: Id, now: Time)

  datatype TodoEvent = ReportOn(id: Id, report: Report) | PlanMade(batch: Batch)

  /** Identifiers of new todos are new. */
  ghost predicate NewIds(p: Progress, b: Batch) {
    && |b.plan.items| == |b.ids| && NoRepeats(b.ids)
    && (forall i :: 0 <= i < |b.ids| ==> b.ids[i] !in p.todos && p.published[b.ids[i]] == 0)
    && (forall e :: e in p.edges ==> e.to !in b.ids)
  }

  /** The todos made of the accepted items. */
  function Group(b: Batch): set<Id>
    requires |b.plan.items| == |b.ids|
  {
    set k | k in PlannedIds(b.plan.items, b.ids, |b.ids|)
  }

  function Decomposed(p: Progress, b: Batch): Progress
    requires |b.plan.items| == |b.ids|
  {
    Progress(Planned(p.todos, b.plan, b.ids, |b.ids|, b.runId, b.now),
             p.edges + PlanEdges(b.linked, b.plan.parent, PlannedIds(b.plan.items, b.ids, |b.ids|), b.agent),
             p.published + multiset(RootIds(b.plan.items, b.ids, |b.ids|)))
  }

  /** An event, the orders and snapshots its handler took, and what it left. */
  datatype Turn = Turn(event: TodoEvent, trail: Trail, after: Progress)

  /** One event, as the handlers specify it.  A report on a todo that is not in the store changes nothing, and neither
      does a decomposition that names no task. */
  ghost predicate Stepped(p: Progress, turn: Turn) {
    match turn.event
    case ReportOn(id, report) =>
      if id !in p.todos then turn.after == p
      else
        && turn.after.edges == p.edges
        && Reported(p.todos, p.edges, id, report, turn.trail, turn.after.todos)
        && turn.after.published == p.published + multiset(turn.trail.order)
    case PlanMade(b) =>
      if b.plan.parent == UNSET then turn.after == p else NewIds(p, b) && turn.after == Decomposed(p, b)
  }

  /** The state before turn `i` of a run from `p`. */
  function At(p: Progress, run: seq<Turn>, i: nat): Progress
    requires i <= |run|
  {
    if i == 0 then p else run[i - 1].after
  }

  function End(p: Progress, run: seq<Turn>): Progress {
    At(p, run, |run|)
  }

  /** Every turn is a step from the state the turn before it left. */
  ghost predicate IsChain(step: (Progress, Turn) -> bool, p: Progress, run: seq<Turn>) {
    forall i :: 0 <= i < |run| ==> step(At(p, run, i), run[i])
  }

  ghost predicate IsRun(p: Progress, run: seq<Turn>) {
    IsChain(Stepped, p, run)
  }

  lemma ChainSplits(step: (Progress, Turn) -> bool, p: Progress, first: seq<Turn>, more: seq<Turn>)
    ensures IsChain(step, p, first + more) <==> IsChain(step, p, first) && IsChain(step, End(p, first), more)
    ensures End(p, first + more) == End(End(p, first), more)
  {
    var all, mid := first + more, End(p, first);
    forall i | 0 <= i < |first|
      ensures step(At(p, all, i), all[i]) <==> step(At(p, first, i), first[i])
    {
      AtFirst(p, first, more, i);
    }
    forall i | 0 <= i < |more|
      ensures step(At(p, all, |first| + i), all[|first| + i]) <==> step(At(mid, more, i), more[i])
    {
      AtMore(p, first, more, i);
    }
    AtMore(p, first, more, |more|);
    if IsChain(step, p, first) && IsChain(step, mid, more) {
      forall i | 0 <= i < |all| ensures step(At(p, all, i), all[i]) {
        if i >= |first| { assert step(At(mid, more, i - |first|), more[i - |first|]); }
      }
    }
  }

  lemma AtFirst(p: Progress, first: seq<Turn>, more: seq<Turn>, i: nat)
    requires i <= |first|
    ensures At(p, first + more, i) == At(p, first, i)
  {
  }

  lemma AtMore(p: Progress, first: seq<Turn>, more: seq<Turn>, i: nat)
    requires i <= |more|
    ensures At(p, first + more, |first| + i) == At(End(p, first), more, i)
  {
  }

  lemma OneLink(step: (Progress, Turn) -> bool, p: Progress, turn: Turn)
    ensures IsChain(step, p, [turn]) <==> step(p, turn)
  {
    assert IsChain(step, p, [turn]) ==> step(At(p, [turn], 0), [turn][0]);
  }

  lemma RunThrough(p: Progress, first: seq<Turn>, more: seq<Turn>)
    requires IsRun(p, first) && IsRun(End(p, first), more)
    ensures IsRun(p, first + more) && End(p, first + more) == End(End(p, first), more)
  {
    ChainSplits(Stepped, p, first, more);
  }

  lemma AddLast(step: (Progress, Turn) -> bool, p: Progress, run: seq<Turn>, turn: Turn)
    requires IsChain(step, p, run) && step(End(p, run), turn)
    ensures IsChain(step, p, run + [turn]) && End(p, run + [turn]) == turn.after
  {
    OneLink(step, End(p, run), turn);
    ChainSplits(step, p, run, [turn]);
  }

  lemma DropLast(step: (Progress, Turn) -> bool, p: Progress, run: seq<Turn>)
    requires run != [] && IsChain(step, p, run)
    ensures var rest, last := run[..|run| - 1], run[|run| - 1];
            IsChain(step, p, rest) && step(End(p, rest), last) && End(p, run) == last.after
  {
    var rest, last := run[..|run| - 1], run[|run| - 1];
    assert run == rest + [last];
    ChainSplits(step, p, rest, [last]);
    OneLink(step, End(p, rest), last);
  }

  lemma OneMore(p: Progress, run: seq<Turn>, turn: Turn)
    requires IsRun(p, run) && Stepped(End(p, run), turn)
    ensures IsRun(p, run + [turn]) && End(p, run + [turn]) == turn.after
  {
    AddLast(Stepped, p, run, turn);
  }

  lemma OneLess(p: Progress, run: seq<Turn>)
    requires run != [] && IsRun(p, run)
    ensures var rest, last := run[..|run| - 1], run[|run| - 1];
            IsRun(p, rest) && Stepped(End(p, rest), last) && End(p, run) == last.after
  {
    DropLast(Stepped, p, run);
  }

  /** A run up to a turn, the turn, and the run from there. */
  lemma Around(p: Progress, run: seq<Turn>, i: nat)
    requires IsRun(p, run) && i < |run|
    ensures IsRun(p, run[..i]) && Stepped(End(p, run[..i]), run[i])
    ensures IsRun(run[i].after, run[i + 1..]) && End(run[i].after, run[i + 1..]) == End(p, run)
  {
    var first, more := run[..i + 1], run[i + 1..];
    assert run == first + more && first[..i] == run[..i] && first[i] == run[i];
    ChainSplits(Stepped, p, first, more);
    OneLess(p, first);
  }

  /** No decomposition event of this task. */
  ghost predicate NoNewPlan(parent: Id, run: seq<Turn>) {
    forall i :: 0 <= i < |run| && run[i].event.PlanMade? ==> run[i].event.batch.plan.parent != parent
  }

  ghost predicate SomeReportOn(group: set<Id>, run: seq<Turn>) {
    exists i :: 0 <= i < |run| && run[i].event.ReportOn? && run[i].event.id in group
  }

  /* ---- What a decomposition adds ---- */

  /** `k` is the todo made of item `i`. */
  ghost predicate IsPlanned(todos: Board, b: Batch, k: Id, i: int)
    requires |b.plan.items| == |b.ids|
  {
    && 0 <= i < |b.ids| && b.ids[i] == k && Accepted(b.plan.items[i])
    && k in todos && todos[k] == NewTodo(b.plan, b.plan.items[i], b.runId, b.now)
  }

  /** The group is what became of the accepted items. */
  ghost predicate ArePlanned(todos: Board, b: Batch)
    requires |b.plan.items| == |b.ids|
  {
    && (forall k :: k in Group(b) ==> exists i :: IsPlanned(todos, b, k, i))
    && (forall i :: 0 <= i < |b.ids| && Accepted(b.plan.items[i]) ==>
          b.ids[i] in Group(b) && IsPlanned(todos, b, b.ids[i], i))
  }

  /** New todos of `parent`, attached to it if it exists, next to everything there was. */
  ghost predicate Adds(p: Progress, b: Batch, q: Progress)
    requires |b.plan.items| == |b.ids|
  {
    && ArePlanned(q.todos, b)
    && Group(b) !! p.todos.Keys && q.todos.Keys == p.todos.Keys + Group(b)
    && (forall k :: k in p.todos ==> q.todos[k] == p.todos[k])
    && (forall k :: k in Group(b) ==> p.published[k] == 0 && forall t :: k !in Kids(p.edges, t))
    && (forall k :: q.published[k] == p.published[k] + if k in Group(b) && q.todos[k].dependsOn == [] then 1 else 0)
    && (forall t :: Kids(q.edges, t) == Kids(p.edges, t) + if b.linked && t == b.plan.parent then Group(b) else {})
  }

  lemma DecompositionAdds(p: Progress, b: Batch)
    requires NewIds(p, b)
    ensures Adds(p, b, Decomposed(p, b))
  {
    var q := Decomposed(p, b);
    PlannedBoard(p.todos, b.plan, b.ids, |b.ids|, b.runId, b.now);
    PlannedMembers(b.plan.items, b.ids, |b.ids|);
    GroupIsPlanned(p, b);
    forall k | k in Group(b) ensures p.published[k] == 0 && forall t :: k !in Kids(p.edges, t) {
      var i :| 0 <= i < |b.ids| && b.ids[i] == k;
      assert forall t :: k in Kids(p.edges, t) ==> Edge(HasTodo, t, k) in p.edges;
    }
    RootsPublished(p, b);
    forall t ensures Kids(q.edges, t) == Kids(p.edges, t) + if b.linked && t == b.plan.parent then Group(b) else {} {
      KidsAdded(p, b, t);
    }
  }

  lemma GroupIsPlanned(p: Progress, b: Batch)
    requires NewIds(p, b)
    ensures ArePlanned(Decomposed(p, b).todos, b)
  {
    var todos := Decomposed(p, b).todos;
    PlannedBoard(p.todos, b.plan, b.ids, |b.ids|, b.runId, b.now);
    PlannedMembers(b.plan.items, b.ids, |b.ids|);
    forall k | k in Group(b) ensures exists i :: IsPlanned(todos, b, k, i) {
      var i :| 0 <= i < |b.ids| && b.ids[i] == k && Accepted(b.plan.items[i]);
      assert IsPlanned(todos, b, k, i);
    }
  }

  /** Roots are published once, the others not at all, and no older todo again. */
  lemma RootsPublished(p: Progress, b: Batch)
    requires NewIds(p, b)
    ensures Group(b) <= Decomposed(p, b).todos.Keys
    ensures var q := Decomposed(p, b);
            forall k :: q.published[k] == p.published[k] + if k in Group(b) && q.todos[k].dependsOn == [] then 1 else 0
  {
    var q, roots := Decomposed(p, b), RootIds(b.plan.items, b.ids, |b.ids|);
    PlannedBoard(p.todos, b.plan, b.ids, |b.ids|, b.runId, b.now);
    PlannedMembers(b.plan.items, b.ids, |b.ids|);
    RootsOnce(b.plan.items, b.ids, |b.ids|);
    forall k ensures k in roots <==> k in Group(b) && q.todos[k].dependsOn == [] {
      if k in Group(b) {
        var i :| 0 <= i < |b.ids| && b.ids[i] == k && Accepted(b.plan.items[i]);
      }
    }
  }

  lemma KidsAdded(p: Progress, b: Batch, t: Id)
    requires |b.plan.items| == |b.ids|
    ensures Kids(Decomposed(p, b).edges, t)
            == Kids(p.edges, t) + if b.linked && t == b.plan.parent then Group(b) else {}
  {
    var added := PlanEdges(b.linked, b.plan.parent, PlannedIds(b.plan.items, b.ids, |b.ids|), b.agent);
    forall k ensures k in Kids(p.edges + added, t)
                     <==> k in Kids(p.edges, t) || (b.linked && t == b.plan.parent && k in Group(b))
    {
      assert k in Kids(p.edges + added, t) <==> Edge(HasTodo, t, k) in p.edges + added;
    }
  }

  /* ---- What every event keeps ---- */

  /** Todos are neither lost nor changed but for their statuses. */
  ghost predicate SameShape(a: Board, b: Board) {
    && b.Keys <= a.Keys
    && forall k :: k in b ==> a[k] == b[k].(status := a[k].status)
  }

  lemma ReportKeepsShape(todos: Board, edges: set<Edge>, id: Id, report: Report, trail: Trail, after: Board)
    requires id in todos && Reported(todos, edges, id, report, trail, after)
    ensures SameShape(after, todos) && after.Keys == todos.Keys
  {
  }

  /** The todo reported on is not blocked afterwards, and no other todo becomes so. */
  lemma ReportUnblocks(todos: Board, edges: set<Edge>, id: Id, report: Report, trail: Trail, after: Board)
    requires id in todos && Reported(todos, edges, id, report, trail, after)
    ensures id in after && after[id].status != TodoBlocked
    ensures forall k :: k in after && after[k].status == TodoBlocked ==> k in todos && todos[k].status == TodoBlocked
  {
  }

  /** Whatever happens, todos only change status, and none of them ever returns to blocked. */
  lemma StepKeepsShape(p: Progress, turn: Turn)
    requires Stepped(p, turn)
    ensures var e, after := turn.event, turn.after.todos;
            && SameShape(after, p.todos)
            && (forall k :: k in p.todos && after[k].status == TodoBlocked ==> p.todos[k].status == TodoBlocked)
            && (e.ReportOn? && e.id in p.todos ==> after[e.id].status != TodoBlocked)
  {
    match turn.event
    case ReportOn(id, report) =>
      if id in p.todos {
        ReportKeepsShape(p.todos, p.edges, id, report, turn.trail, turn.after.todos);
        ReportUnblocks(p.todos, p.edges, id, report, turn.trail, turn.after.todos);
      }
    case PlanMade(b) => if b.plan.parent != UNSET { DecompositionAdds(p, b); }
  }

  lemma {:induction false} RunKeepsShape(p: Progress, run: seq<Turn>)
    requires IsRun(p, run)
    ensures var after := End(p, run).todos;
            && SameShape(after, p.todos)
            && forall k :: k in p.todos && after[k].status == TodoBlocked ==> p.todos[k].status == TodoBlocked
  {
    if run != [] {
      var rest, last := run[..|run| - 1], run[|run| - 1];
      OneLess(p, run);
      RunKeepsShape(p, rest);
      StepKeepsShape(End(p, rest), last);
    }
  }

  /** So a todo that has had a report is never blocked again. */
  lemma ReportedStaysUnblocked(p: Progress, run: seq<Turn>, i: nat)
    requires IsRun(p, run) && i < |run| && run[i].event.ReportOn? && run[i].event.id in p.todos
    ensures var after, id := End(p, run).todos, run[i].event.id; id in after && after[id].status != TodoBlocked
  {
    Around(p, run, i);
    RunKeepsShape(p, run[..i]);
    StepKeepsShape(End(p, run[..i]), run[i]);
    RunKeepsShape(run[i].after, run[i + 1..]);
  }

  lemma StepKeepsKids(p: Progress, turn: Turn, parent: Id)
    requires Stepped(p, turn)
    ensures Kids(p.edges, parent) <= Kids(turn.after.edges, parent)
    ensures (turn.event.PlanMade? ==> turn.event.batch.plan.parent != parent) ==>
              Kids(turn.after.edges, parent) == Kids(p.edges, parent)
  {
    if turn.event.PlanMade? && turn.event.batch.plan.parent != UNSET { DecompositionAdds(p, turn.event.batch); }
  }

  lemma {:induction false} RunKeepsKids(p: Progress, run: seq<Turn>, parent: Id)
    requires IsRun(p, run)
    ensures Kids(p.edges, parent) <= Kids(End(p, run).edges, parent)
    ensures NoNewPlan(parent, run) ==> Kids(End(p, run).edges, parent) == Kids(p.edges, parent)
  {
    if run != [] {
      var rest, last := run[..|run| - 1], run[|run| - 1];
      OneLess(p, run);
      RunKeepsKids(p, rest, parent);
      StepKeepsKids(End(p, rest), last, parent);
    }
  }

  /* ---- The event log ---- */

  /** How often each todo is published for execution in a log. */
  function Dispatches(events: seq<Event>): multiset<Id> {
    if events == [] then multiset{}
    else
      var last := events[|events| - 1];
      Dispatches(events[..|events| - 1]) + (if last.EvTodoDispatched? then multiset{last.todoId} else multiset{})
  }

  lemma {:induction false} DispatchesConcat(a: seq<Event>, b: seq<Event>)
    ensures Dispatches(a + b) == Dispatches(a) + Dispatches(b)
  {
    if b == [] {
      assert a + b == a;
    } else {
      DispatchesConcat(a, b[..|b| - 1]);
      assert (a + b)[..|a + b| - 1] == a + b[..|b| - 1];
    }
  }

  lemma {:induction false} DispatchesOfOrder(order: seq<Id>)
    ensures Dispatches(DispatchEvents(order)) == multiset(order)
  {
    if order != [] {
      var rest := order[..|order| - 1];
      DispatchesOfOrder(rest);
      assert DispatchEvents(order)[..|order| - 1] == DispatchEvents(rest);
      assert order == rest + [order[|order| - 1]];
    }
  }

  lemma {:induction false} NoTodoEvents(events: seq<Event>)
    requires forall i :: 0 <= i < |events| ==> !events[i].EvTodoDispatched?
    ensures Dispatches(events) == multiset{}
  {
    if events != [] { NoTodoEvents(events[..|events| - 1]); }
  }

  /** One handler call on a todo, seen through the todos, the edges and the log, is one step. */
  lemma HandlerIsStep(
      todos: Board, edges: set<Edge>, id: Id, report: Report, trail: Trail, after: Board, log: seq<Event>,
      first: seq<Event>)
    requires id in todos && Reported(todos, edges, id, report, trail, after)
    requires Dispatches(first) == multiset{} && Dispatches(trail.news) == multiset{}
    ensures var q := Progress(after, edges, Dispatches(log + first + DispatchEvents(trail.order) + trail.news));
            Stepped(Progress(todos, edges, Dispatches(log)), Turn(ReportOn(id, report), trail, q))
  {
    DispatchesOfOrder(trail.order);
    DispatchesConcat(log + first + DispatchEvents(trail.order), trail.news);
    DispatchesConcat(log + first, DispatchEvents(trail.order));
    DispatchesConcat(log, first);
  }

  /** The settlement of the parent publishes no todo. */
  lemma SettlementDispatchesNothing(
      before: map<Id, Task>, parent: Id, verdict: Verdict, now: Time, after: map<Id, Task>, news: seq<Event>)
    requires Settled(before, parent, verdict, now, after, news)
    ensures Dispatches(news) == multiset{}
  {
    NoTodoEvents(news);
  }

  /** What HandleTodoCreated leaves, its log included, is one step too. */
  lemma CreationIsStep(todos: Board, edges: set<Edge>, log: seq<Event>, b: Batch, trail: Trail)
    requires b.plan.parent != UNSET && NewIds(Progress(todos, edges, Dispatches(log)), b)
    ensures var made := PlannedIds(b.plan.items, b.ids, |b.ids|);
            var q := Progress(Planned(todos, b.plan, b.ids, |b.ids|, b.runId, b.now),
                              edges + PlanEdges(b.linked, b.plan.parent, made, b.agent),
                              Dispatches(log + PlanEvents(b.linked, b.plan.parent, made, b.agent)
                                         + DispatchEvents(RootIds(b.plan.items, b.ids, |b.ids|))));
            Stepped(Progress(todos, edges, Dispatches(log)), Turn(PlanMade(b), trail, q))
  {
    var made, roots := PlannedIds(b.plan.items, b.ids, |b.ids|), RootIds(b.plan.items, b.ids, |b.ids|);
    var links := PlanEvents(b.linked, b.plan.parent, made, b.agent);
    OnlyLinks(b.linked, b.plan.parent, made, b.agent);
    assert forall i :: 0 <= i < |links| ==> links[i] in links;
    NoTodoEvents(links);
    DispatchesConcat(log + links, DispatchEvents(roots));
    DispatchesConcat(log, links);
    DispatchesOfOrder(roots);
  }
}
