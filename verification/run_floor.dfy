/** What the operations do to the history of any run: which of the events of run_pause.dfy each of them is, and exactly
    when it leaves a task awaiting direction in a run in progress. */
module RunFloor {
  import opened WorkModel
  import opened RunPause
  import Directions
  import Recovery
  import Rollback
  import RunClosure
  import RunLifecycle
  import RunStatusHandler
  import SplitRollUp
  import TaskGate
  import Tasks
  import TerminalEvent
  import TodoGraph
  import TodoScheduler

  /** The run with the tasks that started_task edges lead to from it. */
  function FloorOf(runs: map<Id, Run>, tasks: map<Id, Task>, edges: set<Edge>, id: Id): Floor
    requires id in runs
  {
    Floor(runs[id].status, map t | t in RunClosure.ClosureTasks(tasks, edges, id) :: tasks[t].status)
  }

  predicate AllHarmless(events: seq<FloorEvent>) {
    forall e :: e in events ==> Harmless(e)
  }

  lemma HarmlessJoin(first: seq<FloorEvent>, more: seq<FloorEvent>)
    requires AllHarmless(first) && AllHarmless(more)
    ensures AllHarmless(first + more)
  {
  }

  /** A new run has no tasks, and the others are as they were. */
  lemma NewRunIsEmpty(runs: map<Id, Run>, tasks: map<Id, Task>, edges: set<Edge>, id: Id, run: Run)
    requires id !in runs && run.status == RunPending && forall e :: e in edges ==> e.from != id
    ensures FloorOf(runs[id := run], tasks, edges, id) == Floor(RunPending, map[])
    ensures forall r :: r in runs ==> FloorOf(runs[id := run], tasks, edges, r) == FloorOf(runs, tasks, edges, r)
  {
    assert forall t :: t in RunClosure.ClosureTasks(tasks, edges, id) ==> Edge(StartedTask, id, t) in edges;
  }

  /* ---- Statuses of tasks ---- */

  function StatusMoves(order: seq<Id>, tasks: map<Id, Task>): seq<FloorEvent>
    requires forall t :: t in order ==> t in tasks
  {
    seq(|order|, i requires 0 <= i < |order| => StatusMoved(order[i], tasks[order[i]].status))
  }

  lemma {:induction false} MovesRun(f: Floor, order: seq<Id>, tasks: map<Id, Task>)
    requires forall t :: t in order ==> t in tasks && t in f.tasks
    ensures FloorRun(f, StatusMoves(order, tasks))
            == f.(tasks := map t | t in f.tasks :: if t in order then tasks[t].status else f.tasks[t])
  {
    if order != [] {
      var rest, last := order[..|order| - 1], order[|order| - 1];
      assert order == rest + [last];
      assert StatusMoves(order, tasks)[..|order| - 1] == StatusMoves(rest, tasks);
      MovesRun(f, rest, tasks);
    }
  }

  /** The edges that anchor tasks to this run are the same. */
  predicate SameAnchors(edges: set<Edge>, edges': set<Edge>, id: Id) {
    RunClosure.StartedTasks(edges', id) == RunClosure.StartedTasks(edges, id)
  }

  /** Whatever changes the statuses of tasks and nothing else about the run is a list of such changes, one for each task
      of the run whose status is another. */
  lemma TasksMoved(
      runs: map<Id, Run>, tasks: map<Id, Task>, edges: set<Edge>, id: Id, after: map<Id, Task>, edges': set<Edge>)
    returns (events: seq<FloorEvent>)
    requires id in runs && after.Keys == tasks.Keys && SameAnchors(edges, edges', id)
    ensures FloorOf(runs, after, edges', id) == FloorRun(FloorOf(runs, tasks, edges, id), events)
    ensures forall e :: e in events ==>
              && e.StatusMoved? && e.task in tasks && e.task in RunClosure.ClosureTasks(tasks, edges, id)
              && tasks[e.task].status != after[e.task].status == e.next
  {
    var ids := RunClosure.ClosureTasks(tasks, edges, id);
    var order := SomeOrder(set t | t in ids && after[t].status != tasks[t].status);
    events := StatusMoves(order, after);
    MovesRun(FloorOf(runs, tasks, edges, id), order, after);
    assert RunClosure.ClosureTasks(after, edges', id) == ids;
  }

  /** No task has come to await direction. */
  predicate NobodyParked(tasks: map<Id, Task>, after: map<Id, Task>) {
    forall t :: t in tasks && t in after && after[t].status == TaskAwaitingDirection ==>
      tasks[t].status == TaskAwaitingDirection
  }

  /** Cancel cascades, timeouts, settlements and roll-ups, releases, agent reports: nobody is parked, so nobody is
      exposed. */
  lemma HarmlessMoves(runs: map<Id, Run>, tasks: map<Id, Task>, edges: set<Edge>, id: Id, after: map<Id, Task>)
    returns (events: seq<FloorEvent>)
    requires id in runs && after.Keys == tasks.Keys && NobodyParked(tasks, after)
    ensures FloorOf(runs, after, edges, id) == FloorRun(FloorOf(runs, tasks, edges, id), events) && AllHarmless(events)
  {
    events := TasksMoved(runs, tasks, edges, id, after, edges);
  }

  /** The release of dependents, with `done` as UnblockDependents names it. */
  lemma ReleaseIsRun(
      runs: map<Id, Run>, tasks: map<Id, Task>, edges: set<Edge>, id: Id, done: set<Id>, now: Time)
    returns (events: seq<FloorEvent>)
    requires id in runs
    ensures FloorOf(runs, TaskGate.Opened(tasks, done, now), edges, id)
            == FloorRun(FloorOf(runs, tasks, edges, id), events)
    ensures AllHarmless(events)
  {
    events := HarmlessMoves(runs, tasks, edges, id, TaskGate.Opened(tasks, done, now));
  }

  lemma SettledParksNobody(
      tasks: map<Id, Task>, parent: Id, verdict: TodoScheduler.Verdict, now: Time, after: map<Id, Task>,
      news: seq<Event>)
    requires TodoScheduler.Settled(tasks, parent, verdict, now, after, news)
    ensures after.Keys == tasks.Keys && NobodyParked(tasks, after)
  {
  }

  lemma ParentSettledParksNobody(
      tasks: map<Id, Task>, todos: TodoGraph.Board, edges: set<Edge>, parent: Id, now: Time, trail: TodoScheduler.Trail,
      after: map<Id, Task>)
    requires TodoScheduler.ParentSettled(tasks, todos, edges, parent, now, trail, after)
    ensures after.Keys == tasks.Keys && NobodyParked(tasks, after)
  {
    var kids := TodoGraph.Kids(edges, parent);
    if kids <= todos.Keys {
      var group := TodoScheduler.GroupKids(todos, kids, trail.key);
      SettledParksNobody(tasks, parent, TodoScheduler.VerdictOf(todos, group), now, after, trail.news);
    }
  }

  lemma RollUpParksNobody(
      tasks: map<Id, Task>, edges: set<Edge>, parent: Id, now: Time, after: map<Id, Task>, news: seq<Event>)
    requires SplitRollUp.RolledUp(tasks, edges, parent, now, after, news)
    ensures after.Keys == tasks.Keys && NobodyParked(tasks, after)
    ensures forall t :: t in tasks && tasks[t].status == TaskAwaitingDirection ==> after[t] == tasks[t]
  {
    var children := SplitRollUp.Children(edges, parent);
    if parent != UNSET && children != {} && children <= tasks.Keys {
      SettledParksNobody(tasks, parent, SplitRollUp.ChildrenVerdict(tasks, children), now, after, news);
    }
  }

  /** The settlement of a task by its todos, after a report on one of them, a skip or an operator's failure. */
  lemma SettlementIsRun(
      runs: map<Id, Run>, todos: TodoGraph.Board, tasks: map<Id, Task>, edges: set<Edge>, id: Id, parent: Id, now: Time,
      trail: TodoScheduler.Trail, after: map<Id, Task>)
    returns (events: seq<FloorEvent>)
    requires id in runs && TodoScheduler.ParentSettled(tasks, todos, edges, parent, now, trail, after)
    ensures FloorOf(runs, after, edges, id) == FloorRun(FloorOf(runs, tasks, edges, id), events) && AllHarmless(events)
  {
    ParentSettledParksNobody(tasks, todos, edges, parent, now, trail, after);
    events := HarmlessMoves(runs, tasks, edges, id, after);
  }

  /** Any report of an agent on a task or todo, the settlements and roll-ups it leads to included. */
  lemma ReportIsRun(
      runs: map<Id, Run>, todos: TodoGraph.Board, tasks: map<Id, Task>, edges: set<Edge>, id: Id,
      r: Recovery.AgentReport,
      now: Time, out: Recovery.Outcome, todos': TodoGraph.Board, tasks': map<Id, Task>)
    returns (events: seq<FloorEvent>)
    requires id in runs && Recovery.ReportDone(todos, tasks, edges, r, now, out, todos', tasks')
    ensures FloorOf(runs, tasks', edges, id) == FloorRun(FloorOf(runs, tasks, edges, id), events) && AllHarmless(events)
  {
    ReportParksNobody(todos, tasks, edges, r, now, out, todos', tasks');
    events := HarmlessMoves(runs, tasks, edges, id, tasks');
  }

  lemma ReportParksNobody(
      todos: TodoGraph.Board, tasks: map<Id, Task>, edges: set<Edge>, r: Recovery.AgentReport, now: Time,
      out: Recovery.Outcome, todos': TodoGraph.Board, tasks': map<Id, Task>)
    requires Recovery.ReportDone(todos, tasks, edges, r, now, out, todos', tasks')
    ensures tasks'.Keys == tasks.Keys && NobodyParked(tasks, tasks')
  {
    if r.id in tasks {
      if !Recovery.Deferred(edges, r) && !r.report.Failed? {
        RollUpParksNobody(out.mid, edges, Recovery.RollsUpTo(tasks[r.id], r), now, tasks', out.news);
      }
    } else if r.id in todos && !r.report.Started? {
      ParentSettledParksNobody(tasks, todos', edges, todos[r.id].parentTaskId, now, out.trail, tasks');
    }
  }

  /* ---- Coming and going ---- */

  /** The one task whose edge or status an operation writes. */
  lemma OneTaskWritten(
      runs: map<Id, Run>, tasks: map<Id, Task>, edges: set<Edge>, id: Id, t: Id, task: Task, edges': set<Edge>)
    requires id in runs
    requires forall u :: u != t ==> (Edge(StartedTask, id, u) in edges' <==> Edge(StartedTask, id, u) in edges)
    requires Edge(StartedTask, id, t) in edges ==> Edge(StartedTask, id, t) in edges'
    ensures FloorOf(runs, tasks[t := task], edges', id)
            == if Edge(StartedTask, id, t) in edges' then
                 FloorStep(FloorOf(runs, tasks, edges, id), Joined(t, task.status))
               else FloorOf(runs, tasks, edges, id)
  {
    var ids, ids' := RunClosure.ClosureTasks(tasks, edges, id), RunClosure.ClosureTasks(tasks[t := task], edges', id);
    forall u ensures u in ids' <==> if u == t then Edge(StartedTask, id, t) in edges' else u in ids {
      assert u in RunClosure.StartedTasks(edges, id) <==> Edge(StartedTask, id, u) in edges;
      assert u in RunClosure.StartedTasks(edges', id) <==> Edge(StartedTask, id, u) in edges';
    }
  }

  /** Writing a task of which the run may have hold already: an arrival, a change of status, or nothing to it. */
  function WriteEvents(
      tasks: map<Id, Task>, edges: set<Edge>, id: Id, t: Id, status: TaskStatus, joins: bool): seq<FloorEvent> {
    if t in RunClosure.ClosureTasks(tasks, edges, id) then [StatusMoved(t, status)]
    else if joins then [Joined(t, status)]
    else []
  }

  lemma WriteIsEvent(
      runs: map<Id, Run>, tasks: map<Id, Task>, edges: set<Edge>, id: Id, t: Id, task: Task, edges': set<Edge>,
      joins: bool)
    requires id in runs && t in tasks
    requires forall u :: Edge(StartedTask, id, u) in edges' <==> Edge(StartedTask, id, u) in edges || (joins && u == t)
    ensures FloorOf(runs, tasks[t := task], edges', id)
            == FloorRun(FloorOf(runs, tasks, edges, id), WriteEvents(tasks, edges, id, t, task.status, joins))
  {
    var f, events := FloorOf(runs, tasks, edges, id), WriteEvents(tasks, edges, id, t, task.status, joins);
    assert t in RunClosure.ClosureTasks(tasks, edges, id) <==> Edge(StartedTask, id, t) in edges;
    OneTaskWritten(runs, tasks, edges, id, t, task, edges');
    if events != [] { OneEvent(f, events[0]); }
  }

  /** When a write leaves a clean run in progress with its task waiting. */
  lemma WriteExposes(
      runs: map<Id, Run>, tasks: map<Id, Task>, edges: set<Edge>, id: Id, t: Id, status: TaskStatus, joins: bool)
    requires id in runs && t in tasks && Clean(FloorOf(runs, tasks, edges, id))
    ensures Clean(FloorRun(FloorOf(runs, tasks, edges, id), WriteEvents(tasks, edges, id, t, status, joins)))
            <==> !(&& runs[id].status == RunInProgress && status == TaskAwaitingDirection
                   && (joins || t in RunClosure.ClosureTasks(tasks, edges, id)))
  {
    var f, events := FloorOf(runs, tasks, edges, id), WriteEvents(tasks, edges, id, t, status, joins);
    if events != [] {
      OneEvent(f, events[0]);
      StepKeepsClean(f, events[0]);
    }
  }

  /** CreateTask. */
  lemma CreationIsEvent(
      runs: map<Id, Run>, tasks: map<Id, Task>, edges: set<Edge>, id: Id, t: Id, task: Task, now: Time)
    requires id in runs && t !in tasks && Edge(StartedTask, id, t) !in edges
    ensures var edges' := edges + Tasks.CreationEdges(runs, task.workflowRunId, t);
            FloorOf(runs, tasks[t := Tasks.NewTask(task, now)], edges', id)
            == FloorRun(FloorOf(runs, tasks, edges, id),
                        if task.workflowRunId == id then [Joined(t, TaskPending)] else [])
  {
    var edges' := edges + Tasks.CreationEdges(runs, task.workflowRunId, t);
    OneTaskWritten(runs, tasks, edges, id, t, Tasks.NewTask(task, now), edges');
    OneEvent(FloorOf(runs, tasks, edges, id), Joined(t, TaskPending));
  }

  /** Whether an accepted update writes the anchor to run `id`. */
  predicate Stamps(current: Task, task: Task, id: Id) {
    task.workflowRunId == id && id != UNSET && current.workflowRunId == UNSET
  }

  /** An accepted UpdateTask, with any status and any run id. */
  lemma UpdateIsEvent(runs: map<Id, Run>, tasks: map<Id, Task>, edges: set<Edge>, id: Id, t: Id, task: Task, now: Time)
    requires id in runs && t in tasks
    ensures var after := tasks[t := Tasks.Merged(tasks[t], task, now)];
            FloorOf(runs, after, edges + Tasks.StampedEdges(runs, t, tasks[t], task), id)
            == FloorRun(FloorOf(runs, tasks, edges, id),
                        WriteEvents(tasks, edges, id, t, task.status, Stamps(tasks[t], task, id)))
  {
    WriteIsEvent(runs, tasks, edges, id, t, Tasks.Merged(tasks[t], task, now),
                 edges + Tasks.StampedEdges(runs, t, tasks[t], task), Stamps(tasks[t], task, id));
  }

  /** So an update exposes a task exactly if it leaves it awaiting direction in a run in progress, the run it stamps
      included. */
  lemma UpdateExposesExactlyIf(
      runs: map<Id, Run>, tasks: map<Id, Task>, edges: set<Edge>, id: Id, t: Id, task: Task, now: Time)
    requires id in runs && t in tasks && Clean(FloorOf(runs, tasks, edges, id))
    ensures var after := tasks[t := Tasks.Merged(tasks[t], task, now)];
            !Clean(FloorOf(runs, after, edges + Tasks.StampedEdges(runs, t, tasks[t], task), id))
            <==> && runs[id].status == RunInProgress && task.status == TaskAwaitingDirection
                 && (Stamps(tasks[t], task, id) || t in RunClosure.ClosureTasks(tasks, edges, id))
  {
    UpdateIsEvent(runs, tasks, edges, id, t, task, now);
    WriteExposes(runs, tasks, edges, id, t, task.status, Stamps(tasks[t], task, id));
  }

  /** An accepted AssignTask: the stamp, the gate and the new assignee. */
  lemma AssignmentIsEvent(
      runs: map<Id, Run>, tasks: map<Id, Task>, edges: set<Edge>, id: Id, t: Id, runId: Id, agent: Id, unmet: set<Id>,
      now: Time)
    requires id in runs && t in tasks && (TaskGate.Stamps(tasks[t], runId) ==> runId in runs)
    ensures var gated := TaskGate.Gated(TaskGate.Stamped(tasks[t], runId, now), unmet, now);
            var edges' := TaskGate.Reassigned(edges + TaskGate.StampEdges(runs, tasks[t], t, runId), t, agent);
            FloorOf(runs, tasks[t := gated], edges', id)
            == FloorRun(FloorOf(runs, tasks, edges, id),
                        WriteEvents(tasks, edges, id, t, gated.status, TaskGate.Stamps(tasks[t], runId) && runId == id))
  {
    WriteIsEvent(runs, tasks, edges, id, t, TaskGate.Gated(TaskGate.Stamped(tasks[t], runId, now), unmet, now),
                 TaskGate.Reassigned(edges + TaskGate.StampEdges(runs, tasks[t], t, runId), t, agent),
                 TaskGate.Stamps(tasks[t], runId) && runId == id);
  }

  /** An assignment refused for want of the run has written its id on the task; no run sees that. */
  lemma MissingRunIsNoEvent(
      runs: map<Id, Run>, tasks: map<Id, Task>, edges: set<Edge>, id: Id, t: Id, runId: Id, now: Time)
    requires id in runs && t in tasks
    ensures FloorOf(runs, tasks[t := TaskGate.Stamped(tasks[t], runId, now)], edges, id)
            == FloorOf(runs, tasks, edges, id)
  {
    var after := tasks[t := TaskGate.Stamped(tasks[t], runId, now)];
    assert RunClosure.ClosureTasks(after, edges, id) == RunClosure.ClosureTasks(tasks, edges, id);
  }

  /** An assignment exposes a task exactly if it stamps a run in progress on a task that awaits direction and has
      nothing unmet: the status of the task is not looked at. */
  lemma AssignmentExposesExactlyIf(
      runs: map<Id, Run>, tasks: map<Id, Task>, edges: set<Edge>, id: Id, t: Id, runId: Id, agent: Id, unmet: set<Id>,
      now: Time)
    requires id in runs && t in tasks && (TaskGate.Stamps(tasks[t], runId) ==> runId in runs)
    requires Clean(FloorOf(runs, tasks, edges, id))
    ensures var gated := TaskGate.Gated(TaskGate.Stamped(tasks[t], runId, now), unmet, now);
            var edges' := TaskGate.Reassigned(edges + TaskGate.StampEdges(runs, tasks[t], t, runId), t, agent);
            !Clean(FloorOf(runs, tasks[t := gated], edges', id))
            <==> && runs[id].status == RunInProgress && TaskGate.Stamps(tasks[t], runId) && runId == id
                 && tasks[t].status == TaskAwaitingDirection && unmet == {}
  {
    var gated := TaskGate.Gated(TaskGate.Stamped(tasks[t], runId, now), unmet, now);
    AssignmentIsEvent(runs, tasks, edges, id, t, runId, agent, unmet, now);
    WriteExposes(runs, tasks, edges, id, t, gated.status, TaskGate.Stamps(tasks[t], runId) && runId == id);
    CleanMeansNoWaiter(runs, tasks, edges, id, t);
  }

  lemma CleanMeansNoWaiter(runs: map<Id, Run>, tasks: map<Id, Task>, edges: set<Edge>, id: Id, t: Id)
    requires id in runs && t in tasks && Clean(FloorOf(runs, tasks, edges, id))
    ensures runs[id].status == RunInProgress && t in RunClosure.ClosureTasks(tasks, edges, id) ==>
              tasks[t].status != TaskAwaitingDirection
  {
    if t in RunClosure.ClosureTasks(tasks, edges, id) && tasks[t].status == TaskAwaitingDirection {
      assert t in Waiters(FloorOf(runs, tasks, edges, id));
    }
  }

  /** UnblockTask parks a task without a look at its run: in a run in progress it leaves it waiting. */
  lemma UnblockingExposesExactlyIf(
      runs: map<Id, Run>, tasks: map<Id, Task>, edges: set<Edge>, id: Id, t: Id, note: string, now: Time)
    requires id in runs && t in tasks && Clean(FloorOf(runs, tasks, edges, id))
    ensures var after := tasks[t := Tasks.Merged(tasks[t], TaskGate.Reconsidered(tasks[t], note), now)];
            && FloorOf(runs, after, edges, id)
               == FloorRun(FloorOf(runs, tasks, edges, id),
                           WriteEvents(tasks, edges, id, t, TaskAwaitingDirection, false))
            && (!Clean(FloorOf(runs, after, edges, id))
                <==> runs[id].status == RunInProgress && t in RunClosure.ClosureTasks(tasks, edges, id))
  {
    var task := Tasks.Merged(tasks[t], TaskGate.Reconsidered(tasks[t], note), now);
    WriteIsEvent(runs, tasks, edges, id, t, task, edges, false);
    WriteExposes(runs, tasks, edges, id, t, TaskAwaitingDirection, false);
  }

  /** LinkTaskToRun, and any started_task edge made by hand. */
  lemma LinkIsEvent(runs: map<Id, Run>, tasks: map<Id, Task>, edges: set<Edge>, id: Id, run: Id, t: Id)
    requires id in runs && t in tasks
    ensures FloorOf(runs, tasks, edges + {Edge(StartedTask, run, t)}, id)
            == FloorRun(FloorOf(runs, tasks, edges, id), WriteEvents(tasks, edges, id, t, tasks[t].status, run == id))
  {
    assert tasks[t := tasks[t]] == tasks;
    WriteIsEvent(runs, tasks, edges, id, t, tasks[t], edges + {Edge(StartedTask, run, t)}, run == id);
  }

  /** Edges with other labels are no event. */
  lemma OtherEdgesAreNoEvent(runs: map<Id, Run>, tasks: map<Id, Task>, edges: set<Edge>, edges': set<Edge>, id: Id)
    requires id in runs && forall e: Edge :: e.name == StartedTask ==> (e in edges' <==> e in edges)
    ensures FloorOf(runs, tasks, edges', id) == FloorOf(runs, tasks, edges, id)
  {
    assert forall t :: Edge(StartedTask, id, t) in edges' <==> Edge(StartedTask, id, t) in edges;
    assert RunClosure.ClosureTasks(tasks, edges', id) == RunClosure.ClosureTasks(tasks, edges, id);
  }

  /** DeleteRelationship of an anchor, and DeleteTask. */
  lemma DepartureIsEvent(runs: map<Id, Run>, tasks: map<Id, Task>, edges: set<Edge>, id: Id, t: Id)
    requires id in runs
    ensures FloorOf(runs, tasks, edges - {Edge(StartedTask, id, t)}, id)
            == FloorStep(FloorOf(runs, tasks, edges, id), Left(t))
    ensures FloorOf(runs, tasks - {t}, edges, id) == FloorStep(FloorOf(runs, tasks, edges, id), Left(t))
  {
    var ids := RunClosure.ClosureTasks(tasks, edges, id);
    var edges' := edges - {Edge(StartedTask, id, t)};
    assert forall u :: Edge(StartedTask, id, u) in edges' <==> Edge(StartedTask, id, u) in edges && u != t;
    assert RunClosure.ClosureTasks(tasks, edges', id) == ids - {t};
    assert RunClosure.ClosureTasks(tasks - {t}, edges, id) == ids - {t};
  }

  /* ---- Statuses of the run ---- */

  function RunMoves(id: Id, moved: Id, status: RunStatus, next: RunStatus): seq<FloorEvent> {
    if moved == id && status != next then [RunMoved(next)] else []
  }

  /** Any write of a run along the table: UpdateWorkflowRunStatus, FinalizeWorkflowRunCancellation, the budget calls. */
  lemma RunMoveIsEvent(runs: map<Id, Run>, tasks: map<Id, Task>, edges: set<Edge>, id: Id, moved: Id, run: Run)
    requires id in runs && moved in runs
    requires runs[moved].status == run.status || runs[moved].status.CanTransitionTo(run.status)
    ensures FloorOf(runs[moved := run], tasks, edges, id)
            == FloorRun(FloorOf(runs, tasks, edges, id), RunMoves(id, moved, runs[moved].status, run.status))
  {
    OneEvent(FloorOf(runs, tasks, edges, id), RunMoved(run.status));
  }

  /** The run and the statuses of tasks, nobody being parked: a cancellation with its cascade, a timeout with its. */
  lemma RunAndTasksMove(
      runs: map<Id, Run>, tasks: map<Id, Task>, edges: set<Edge>, id: Id, moved: Id, run: Run, after: map<Id, Task>)
    returns (events: seq<FloorEvent>)
    requires id in runs && moved in runs && runs[moved].status.CanTransitionTo(run.status)
    requires run.status != RunInProgress
    requires after.Keys == tasks.Keys && NobodyParked(tasks, after)
    ensures FloorOf(runs[moved := run], after, edges, id) == FloorRun(FloorOf(runs, tasks, edges, id), events)
    ensures AllHarmless(events)
  {
    var first := RunMoves(id, moved, runs[moved].status, run.status);
    RunMoveIsEvent(runs, tasks, edges, id, moved, run);
    var more := HarmlessMoves(runs[moved := run], tasks, edges, id, after);
    RunsJoin(FloorOf(runs, tasks, edges, id), first, more);
    HarmlessJoin(first, more);
    events := first + more;
  }

  /** CancelWorkflowRun. */
  lemma CancellationIsRun(
      runs: map<Id, Run>, tasks: map<Id, Task>, edges: set<Edge>, id: Id, cancelled: Id, reason: string, caller: string,
      deadline: Time, now: Time)
    returns (events: seq<FloorEvent>)
    requires id in runs && cancelled in runs && runs[cancelled].status == RunInProgress
    ensures var runs' := runs[cancelled := RunLifecycle.Cancelling(runs[cancelled], reason, caller, deadline, now)];
            var tasks' := RunLifecycle.CancelSome(tasks, RunLifecycle.CancellableTasks(tasks, cancelled), now);
            FloorOf(runs', tasks', edges, id) == FloorRun(FloorOf(runs, tasks, edges, id), events)
    ensures AllHarmless(events)
  {
    events := RunAndTasksMove(runs, tasks, edges, id, cancelled,
                              RunLifecycle.Cancelling(runs[cancelled], reason, caller, deadline, now),
                              RunLifecycle.CancelSome(tasks, RunLifecycle.CancellableTasks(tasks, cancelled), now));
  }

  /** HandleRunTimeout. */
  lemma TimeoutIsRun(runs: map<Id, Run>, tasks: map<Id, Task>, edges: set<Edge>, id: Id, stale: Id, now: Time)
    returns (events: seq<FloorEvent>)
    requires id in runs && stale in runs && runs[stale].status in {RunInProgress, RunPaused}
    ensures var runs' := runs[stale := RunLifecycle.StatusWritten(runs[stale], RunFailed, "stale", now)];
            var tasks' := RunLifecycle.FailSome(tasks, RunLifecycle.FailableTasks(tasks, stale), now);
            FloorOf(runs', tasks', edges, id) == FloorRun(FloorOf(runs, tasks, edges, id), events)
    ensures AllHarmless(events)
  {
    events := RunAndTasksMove(runs, tasks, edges, id, stale,
                              RunLifecycle.StatusWritten(runs[stale], RunFailed, "stale", now),
                              RunLifecycle.FailSome(tasks, RunLifecycle.FailableTasks(tasks, stale), now));
  }

  /** HandleEvent: the run it names moves to its target.  Only this starts a run, and so may expose a task. */
  lemma EventIsRun(
      runs: map<Id, Run>, tasks: map<Id, Task>, edges: set<Edge>, id: Id, topic: string, payload: TerminalEvent.Payload,
      now: Time)
    requires id in runs && RunStatusHandler.RunOf(payload) in runs
    ensures var moved := RunStatusHandler.RunOf(payload);
            match RunStatusHandler.Target(runs[moved], topic, payload, tasks,
                                          RunClosure.ClosureTasks(tasks, edges, moved))
            case None => true
            case Some(target) =>
              FloorOf(runs[moved := RunLifecycle.StatusWritten(runs[moved], target.0, target.1, now)], tasks, edges, id)
              == FloorRun(FloorOf(runs, tasks, edges, id), RunMoves(id, moved, runs[moved].status, target.0))
  {
    var moved := RunStatusHandler.RunOf(payload);
    var ids := RunClosure.ClosureTasks(tasks, edges, moved);
    RunStatusHandler.TargetsAreLegal(runs[moved], topic, payload, tasks, ids);
    var target := RunStatusHandler.Target(runs[moved], topic, payload, tasks, ids);
    if target.Some? {
      RunMoveIsEvent(runs, tasks, edges, id, moved,
                     RunLifecycle.StatusWritten(runs[moved], target.value.0, target.value.1, now));
    }
  }

  /* ---- Rolling back ---- */

  function Departures(order: seq<Id>): seq<FloorEvent> {
    seq(|order|, i requires 0 <= i < |order| => Left(order[i]))
  }

  lemma {:induction false} DeparturesRun(f: Floor, order: seq<Id>)
    ensures FloorRun(f, Departures(order)) == f.(tasks := map t | t in f.tasks && t !in order :: f.tasks[t])
  {
    if order == [] {
      assert f.tasks == map t | t in f.tasks && t !in order :: f.tasks[t];
    } else {
      var rest, last := order[..|order| - 1], order[|order| - 1];
      assert order == rest + [last];
      assert Departures(order)[..|order| - 1] == Departures(rest);
      DeparturesRun(f, rest);
    }
  }

  /** Tasks leave the run, and those that stay keep their statuses. */
  lemma TasksLeave(
      runs: map<Id, Run>, tasks: map<Id, Task>, edges: set<Edge>, id: Id, after: map<Id, Task>, edges': set<Edge>)
    returns (events: seq<FloorEvent>)
    requires id in runs
    requires forall t :: t in RunClosure.ClosureTasks(after, edges', id) ==>
               t in RunClosure.ClosureTasks(tasks, edges, id) && after[t].status == tasks[t].status
    ensures FloorOf(runs, after, edges', id) == FloorRun(FloorOf(runs, tasks, edges, id), events)
    ensures AllHarmless(events)
  {
    var order := SomeOrder(RunClosure.ClosureTasks(tasks, edges, id) - RunClosure.ClosureTasks(after, edges', id));
    events := Departures(order);
    DeparturesRun(FloorOf(runs, tasks, edges, id), order);
  }

  /** The cleanup takes every task it resets out of every run. */
  lemma CleanupIsRun(
      runs: map<Id, Run>, tasks: map<Id, Task>, edges: set<Edge>, id: Id, cleaned: Id, gone: set<Id>, now: Time)
    returns (events: seq<FloorEvent>)
    requires id in runs
    ensures var mine := Rollback.RunTasks(tasks, cleaned);
            FloorOf(runs, Rollback.ResetSome(tasks, mine, now), Rollback.CleanEdges(edges, mine, gone), id)
            == FloorRun(FloorOf(runs, tasks, edges, id), events)
    ensures AllHarmless(events)
  {
    var mine := Rollback.RunTasks(tasks, cleaned);
    var edges' := Rollback.CleanEdges(edges, mine, gone);
    forall t | t in RunClosure.StartedTasks(edges', id) ensures t in RunClosure.StartedTasks(edges, id) && t !in mine {
      assert Edge(StartedTask, id, t) in edges';
    }
    events := TasksLeave(runs, tasks, edges, id, Rollback.ResetSome(tasks, mine, now), edges');
  }

  /** RollbackWorkflowRun, on either outcome. */
  lemma RollbackIsRun(
      runs: map<Id, Run>, tasks: map<Id, Task>, todos: map<Id, Todo>, edges: set<Edge>, id: Id, back: Id,
      reason: string,
      now: Time, r: Result<Run>, runs': map<Id, Run>, tasks': map<Id, Task>, todos': map<Id, Todo>, edges': set<Edge>)
    returns (events: seq<FloorEvent>)
    requires id in runs && back in runs && runs[back].status.CanTransitionTo(RunRollingBack)
    requires Rollback.RolledBack(back, reason, now, runs, tasks, todos, edges, r, runs', tasks', todos', edges')
    ensures id in runs' && FloorOf(runs', tasks', edges', id) == FloorRun(FloorOf(runs, tasks, edges, id), events)
    ensures AllHarmless(events)
  {
    var locked := RunLifecycle.StatusWritten(runs[back], RunRollingBack, reason, now);
    var first := RunMoves(id, back, runs[back].status, RunRollingBack);
    RunMoveIsEvent(runs, tasks, edges, id, back, locked);
    var more := ReleaseIsHarmless(runs[back := locked], tasks, todos, edges, id, back, reason, now, r,
                                  runs', tasks', todos', edges');
    RunsJoin(FloorOf(runs, tasks, edges, id), first, more);
    HarmlessJoin(first, more);
    events := first + more;
  }

  lemma ReleaseIsHarmless(
      runs: map<Id, Run>, tasks: map<Id, Task>, todos: map<Id, Todo>, edges: set<Edge>, id: Id, back: Id,
      reason: string,
      now: Time, r: Result<Run>, runs': map<Id, Run>, tasks': map<Id, Task>, todos': map<Id, Todo>, edges': set<Edge>)
    returns (events: seq<FloorEvent>)
    requires id in runs && back in runs && runs[back].status == RunRollingBack
    requires Rollback.Released(back, reason, now, runs, tasks, todos, edges, r, runs', tasks', todos', edges')
    ensures id in runs' && FloorOf(runs', tasks', edges', id) == FloorRun(FloorOf(runs, tasks, edges, id), events)
    ensures AllHarmless(events)
  {
    var next := if r.Err? then RunRollbackFailed else RunRolledBack;
    var first: seq<FloorEvent> := [];
    if r.Ok? {
      first := CleanupIsRun(runs, tasks, edges, id, back, Rollback.RunTodos(todos, back), now);
    }
    assert FloorOf(runs, tasks', edges', id) == FloorRun(FloorOf(runs, tasks, edges, id), first);
    RunMoveIsEvent(runs, tasks', edges', id, back, runs'[back]);
    RunsJoin(FloorOf(runs, tasks, edges, id), first, RunMoves(id, back, RunRollingBack, next));
    HarmlessJoin(first, RunMoves(id, back, RunRollingBack, next));
    events := first + RunMoves(id, back, RunRollingBack, next);
  }

  /* ---- Escalation ---- */

  /** An accepted escalation of `t`: it pauses the run that the task names, which need not be one that has an anchor to
      it. */
  function EscalationEvents(runs: map<Id, Run>, tasks: map<Id, Task>, edges: set<Edge>, id: Id, t: Id): seq<FloorEvent>
    requires id in runs && t in tasks
  {
    if tasks[t].workflowRunId != id then WriteEvents(tasks, edges, id, t, TaskAwaitingDirection, false)
    else if t in RunClosure.ClosureTasks(tasks, edges, id) then [Escalated(t)]
    else if runs[id].status == RunInProgress then [RunMoved(RunPaused)]
    else []
  }

  /** EscalateToHumanDirection, as it specifies itself. */
  lemma EscalationIsEvent(runs: map<Id, Run>, tasks: map<Id, Task>, edges: set<Edge>, id: Id, t: Id, now: Time)
    requires id in runs && t in tasks
    requires Tasks.UpdateError(tasks, edges, t, tasks[t].(status := TaskAwaitingDirection)) == None
    ensures var next := tasks[t].(status := TaskAwaitingDirection);
            var runs' := Recovery.Paused(runs, tasks[t].workflowRunId, now);
            && id in runs'
            && FloorOf(runs', tasks[t := Tasks.Merged(tasks[t], next, now)], edges, id)
               == FloorRun(FloorOf(runs, tasks, edges, id), EscalationEvents(runs, tasks, edges, id, t))
  {
    var task := Tasks.Merged(tasks[t], tasks[t].(status := TaskAwaitingDirection), now);
    MidFloor(runs, tasks, edges, id, t, task);
    EscalationStep(runs, tasks, edges, id, t);
  }

  lemma EscalationStep(runs: map<Id, Run>, tasks: map<Id, Task>, edges: set<Edge>, id: Id, t: Id)
    requires id in runs && t in tasks
    requires Tasks.UpdateError(tasks, edges, t, tasks[t].(status := TaskAwaitingDirection)) == None
    ensures var f := FloorOf(runs, tasks, edges, id);
            FloorRun(f, EscalationEvents(runs, tasks, edges, id, t))
            == Written(f, t, TaskAwaitingDirection).(
                 run := if tasks[t].workflowRunId == id && f.run == RunInProgress then RunPaused else f.run)
  {
    var events := EscalationEvents(runs, tasks, edges, id, t);
    if events != [] { OneEvent(FloorOf(runs, tasks, edges, id), events[0]); }
  }

  /** It exposes the task exactly in a run in progress that has an anchor to it and is not the run it names. */
  lemma EscalationExposesExactlyIf(runs: map<Id, Run>, tasks: map<Id, Task>, edges: set<Edge>, id: Id, t: Id)
    requires id in runs && t in tasks && Clean(FloorOf(runs, tasks, edges, id))
    requires Tasks.UpdateError(tasks, edges, t, tasks[t].(status := TaskAwaitingDirection)) == None
    ensures !Clean(FloorRun(FloorOf(runs, tasks, edges, id), EscalationEvents(runs, tasks, edges, id, t)))
            <==> && runs[id].status == RunInProgress && tasks[t].workflowRunId != id
                 && t in RunClosure.ClosureTasks(tasks, edges, id)
  {
    var f, events := FloorOf(runs, tasks, edges, id), EscalationEvents(runs, tasks, edges, id, t);
    WriteExposes(runs, tasks, edges, id, t, TaskAwaitingDirection, false);
    if events != [] { OneEvent(f, events[0]); }
  }

  /* ---- Directions ---- */

  lemma WaitersAre(runs: map<Id, Run>, tasks: map<Id, Task>, edges: set<Edge>, id: Id)
    requires id in runs
    ensures Waiters(FloorOf(runs, tasks, edges, id)) == {}
            <==> !Directions.AnyAwaiting(tasks, RunClosure.ClosureTasks(tasks, edges, id))
  {
    var f, ids := FloorOf(runs, tasks, edges, id), RunClosure.ClosureTasks(tasks, edges, id);
    if t :| t in Waiters(f) { assert t in ids; }
    if t :| t in ids && tasks[t].status == TaskAwaitingDirection { assert t in Waiters(f); }
  }

  /** The check for a resumption of run `named`, seen from run `id`. */
  lemma ResumptionIsResumed(
      runs: map<Id, Run>, tasks: map<Id, Task>, edges: set<Edge>, id: Id, named: Id, cancelled: bool, now: Time)
    requires id in runs
    ensures var resumes := Directions.Resumes(runs, tasks, edges, named);
            && id in Directions.ResumedRuns(runs, named, resumes, cancelled, now)
            && FloorOf(Directions.ResumedRuns(runs, named, resumes, cancelled, now), tasks, edges, id)
               == var f := FloorOf(runs, tasks, edges, id); if named == id then Resumed(f, cancelled) else f
  {
    WaitersAre(runs, tasks, edges, id);
  }

  /** An accepted retry, mark-blocked or cancel. */
  function DirectedEvents(
      tasks: map<Id, Task>, edges: set<Edge>, id: Id, t: Id, d: Directions.Direction, held: bool): seq<FloorEvent>
    requires t in tasks && !d.Skip?
  {
    if tasks[t].workflowRunId != id
    then WriteEvents(tasks, edges, id, t, Directions.Directed(tasks[t], d).status, false)
    else if t !in RunClosure.ClosureTasks(tasks, edges, id) then if d.MarkBlocked? then [] else [Rechecked(d.Cancel?)]
    else match d
      case Retry(_) => [Retried(t, held)]
      case MarkBlocked(_) => [MarkedBlocked(t)]
      case Cancel => [CancelDirected(t)]
  }

  /** The update of the task itself and the resumption, when no split parent is rolled up. */
  lemma DirectionIsEvent(
      runs: map<Id, Run>, todos: TodoGraph.Board, tasks: map<Id, Task>, edges: set<Edge>, id: Id, t: Id,
      d: Directions.Direction, now: Time)
    requires id in runs && t in tasks && !d.Skip?
    requires Tasks.UpdateError(tasks, edges, t, Directions.Directed(tasks[t], d)) == None
    ensures var named, mid := tasks[t].workflowRunId,
            tasks[t := Tasks.Merged(tasks[t], Directions.Directed(tasks[t], d), now)];
            var resumes := Directions.MovesOn(todos, tasks, edges, t, d) && Directions.Resumes(runs, mid, edges, named);
            && id in Directions.ResumedRuns(runs, named, resumes, d.Cancel?, now)
            && FloorOf(Directions.ResumedRuns(runs, named, resumes, d.Cancel?, now), mid, edges, id)
               == FloorRun(FloorOf(runs, tasks, edges, id),
                           DirectedEvents(tasks, edges, id, t, d, Tasks.ActiveBlockers(tasks, edges, t) != {}))
    ensures AllHarmless(DirectedEvents(tasks, edges, id, t, d, Tasks.ActiveBlockers(tasks, edges, t) != {}))
  {
    var next, named := Directions.Directed(tasks[t], d), tasks[t].workflowRunId;
    var mid := tasks[t := Tasks.Merged(tasks[t], next, now)];
    MidFloor(runs, tasks, edges, id, t, Tasks.Merged(tasks[t], next, now));
    DirectedStep(runs, tasks, edges, id, t, d);
    if !d.MarkBlocked? { ResumptionIsResumed(runs, mid, edges, id, named, d.Cancel?, now); }
  }

  /** The floor once the task alone has been written. */
  function Written(f: Floor, t: Id, status: TaskStatus): Floor {
    if t in f.tasks then WithTask(f, t, status) else f
  }

  lemma MidFloor(runs: map<Id, Run>, tasks: map<Id, Task>, edges: set<Edge>, id: Id, t: Id, task: Task)
    requires id in runs && t in tasks
    ensures FloorOf(runs, tasks[t := task], edges, id) == Written(FloorOf(runs, tasks, edges, id), t, task.status)
  {
    WriteIsEvent(runs, tasks, edges, id, t, task, edges, false);
    OneEvent(FloorOf(runs, tasks, edges, id), StatusMoved(t, task.status));
  }

  lemma DirectedStep(runs: map<Id, Run>, tasks: map<Id, Task>, edges: set<Edge>, id: Id, t: Id, d: Directions.Direction)
    requires id in runs && t in tasks && !d.Skip?
    requires Tasks.UpdateError(tasks, edges, t, Directions.Directed(tasks[t], d)) == None
    ensures var f, next := FloorOf(runs, tasks, edges, id), Directions.Directed(tasks[t], d);
            FloorRun(f, DirectedEvents(tasks, edges, id, t, d, Tasks.ActiveBlockers(tasks, edges, t) != {}))
            == if tasks[t].workflowRunId == id && !d.MarkBlocked? then Resumed(Written(f, t, next.status), d.Cancel?)
               else Written(f, t, next.status)
    ensures AllHarmless(DirectedEvents(tasks, edges, id, t, d, Tasks.ActiveBlockers(tasks, edges, t) != {}))
  {
    var f := FloorOf(runs, tasks, edges, id);
    var events := DirectedEvents(tasks, edges, id, t, d, Tasks.ActiveBlockers(tasks, edges, t) != {});
    if events != [] { OneEvent(f, events[0]); }
  }

  lemma SameAwaiting(runs: map<Id, Run>, tasks: map<Id, Task>, edges: set<Edge>, id: Id, after: map<Id, Task>)
    requires after.Keys == tasks.Keys && NobodyParked(tasks, after)
    requires forall t :: t in tasks && tasks[t].status == TaskAwaitingDirection ==> after[t] == tasks[t]
    ensures Directions.Resumes(runs, after, edges, id) <==> Directions.Resumes(runs, tasks, edges, id)
  {
    var ids := RunClosure.ClosureTasks(tasks, edges, id);
    assert RunClosure.ClosureTasks(after, edges, id) == ids;
  }

  /** A direction, as HandleTaskDirection specifies it, and for any run: the skip of a todo with the settlement it leads
      to, and the roll-up of a cancelled child, included. */
  lemma DirectionIsRun(
      runs: map<Id, Run>, todos: TodoGraph.Board, tasks: map<Id, Task>, edges: set<Edge>, id: Id, t: Id,
      d: Directions.Direction, now: Time, steps: Directions.Steps, todos': TodoGraph.Board, tasks': map<Id, Task>)
    returns (events: seq<FloorEvent>)
    requires id in runs && t in tasks
    requires if d.Skip? then Directions.SkipDone(todos, tasks, edges, t, now, steps, todos', tasks')
             else Directions.DirectionDone(tasks, edges, t, d, now, steps, tasks')
    ensures var named := tasks[t].workflowRunId;
            var resumes := Directions.MovesOn(todos, tasks, edges, t, d)
              && Directions.Resumes(runs, tasks', edges, named);
            && id in Directions.ResumedRuns(runs, named, resumes, d.Cancel?, now)
            && FloorOf(Directions.ResumedRuns(runs, named, resumes, d.Cancel?, now), tasks', edges, id)
               == FloorRun(FloorOf(runs, tasks, edges, id), events)
    ensures AllHarmless(events)
  {
    if d.Skip? {
      events := SkipIsRun(runs, todos, tasks, edges, id, t, now, steps, todos', tasks');
    } else if Tasks.UpdateError(tasks, edges, t, Directions.Directed(tasks[t], d)) == None {
      events := AcceptedIsRun(runs, todos, tasks, edges, id, t, d, now, steps, tasks');
    } else {
      events := [];
    }
  }

  lemma AcceptedIsRun(
      runs: map<Id, Run>, todos: TodoGraph.Board, tasks: map<Id, Task>, edges: set<Edge>, id: Id, t: Id,
      d: Directions.Direction, now: Time, steps: Directions.Steps, tasks': map<Id, Task>)
    returns (events: seq<FloorEvent>)
    requires id in runs && t in tasks && !d.Skip? && Directions.DirectionDone(tasks, edges, t, d, now, steps, tasks')
    requires Tasks.UpdateError(tasks, edges, t, Directions.Directed(tasks[t], d)) == None
    ensures var named := tasks[t].workflowRunId;
            var resumes := Directions.MovesOn(todos, tasks, edges, t, d)
              && Directions.Resumes(runs, tasks', edges, named);
            && id in Directions.ResumedRuns(runs, named, resumes, d.Cancel?, now)
            && FloorOf(Directions.ResumedRuns(runs, named, resumes, d.Cancel?, now), tasks', edges, id)
               == FloorRun(FloorOf(runs, tasks, edges, id), events)
    ensures AllHarmless(events)
  {
    var named, held := tasks[t].workflowRunId, Tasks.ActiveBlockers(tasks, edges, t) != {};
    var first := DirectedEvents(tasks, edges, id, t, d, held);
    DirectionIsEvent(runs, todos, tasks, edges, id, t, d, now);
    RollUpParksNobody(steps.mid, edges, Directions.RollsUpTo(tasks[t], d), now, tasks', steps.news);
    SameAwaiting(runs, steps.mid, edges, named, tasks');
    var resumes := Directions.MovesOn(todos, tasks, edges, t, d) && Directions.Resumes(runs, tasks', edges, named);
    var more := HarmlessMoves(Directions.ResumedRuns(runs, named, resumes, d.Cancel?, now), steps.mid, edges, id,
                              tasks');
    RunsJoin(FloorOf(runs, tasks, edges, id), first, more);
    HarmlessJoin(first, more);
    events := first + more;
  }

  lemma SkipIsRun(
      runs: map<Id, Run>, todos: TodoGraph.Board, tasks: map<Id, Task>, edges: set<Edge>, id: Id, t: Id, now: Time,
      steps: Directions.Steps, todos': TodoGraph.Board, tasks': map<Id, Task>)
    returns (events: seq<FloorEvent>)
    requires id in runs && t in tasks && Directions.SkipDone(todos, tasks, edges, t, now, steps, todos', tasks')
    ensures var named := tasks[t].workflowRunId;
            var resumes := Directions.MovesOn(todos, tasks, edges, t, Directions.Skip)
                           && Directions.Resumes(runs, tasks', edges, named);
            && id in Directions.ResumedRuns(runs, named, resumes, false, now)
            && FloorOf(Directions.ResumedRuns(runs, named, resumes, false, now), tasks', edges, id)
               == FloorRun(FloorOf(runs, tasks, edges, id), events)
    ensures AllHarmless(events)
  {
    var named := tasks[t].workflowRunId;
    if steps.skipped.None? {
      events := if named == id then [Rechecked(false)] else [];
      ResumptionIsResumed(runs, tasks, edges, id, named, false, now);
      OneEvent(FloorOf(runs, tasks, edges, id), Rechecked(false));
    } else {
      SkipParksNobody(todos, tasks, edges, t, now, steps, todos', tasks');
      events := HarmlessMoves(runs, tasks, edges, id, tasks');
    }
  }

  lemma SkipParksNobody(
      todos: TodoGraph.Board, tasks: map<Id, Task>, edges: set<Edge>, t: Id, now: Time, steps: Directions.Steps,
      todos': TodoGraph.Board, tasks': map<Id, Task>)
    requires t in tasks && steps.skipped.Some?
    requires Directions.SkipDone(todos, tasks, edges, t, now, steps, todos', tasks')
    ensures tasks'.Keys == tasks.Keys && NobodyParked(tasks, tasks')
    ensures !Directions.MovesOn(todos, tasks, edges, t, Directions.Skip)
  {
    ParentSettledParksNobody(tasks, todos', edges, todos[steps.skipped.value].parentTaskId, now, steps.trail,
                             steps.mid);
    ReopenedParksNobody(steps.mid, edges, t, tasks[t], now);
  }

  lemma ReopenedParksNobody(mid: map<Id, Task>, edges: set<Edge>, t: Id, read: Task, now: Time)
    requires t in mid
    ensures var after := Directions.Reopened(mid, edges, t, read, now);
            after.Keys == mid.Keys && NobodyParked(mid, after)
  {
  }
}
