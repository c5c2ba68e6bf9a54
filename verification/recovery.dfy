/** Failure recovery of a task: agent reports, the retry ladder, and escalation to a human with the pause of the run
    (applyAITaskStatus to EscalateToHumanDirection in internal/server/event_dispatcher.go). */
module Recovery {
  import opened WorkModel
  import RunLifecycle
  import SplitRollUp
  import TaskGate
  import Tasks
  import TodoGraph
  import TodoScheduler

  const MAX_RECOVERY_RUNS: nat := 3

  /** The assignee named in a dispatch: the end of an assigned_to edge, "" if there is none. */
  ghost predicate IsAssignee(edges: set<Edge>, t: Id, agent: Id) {
    var found := Targets(edges, AssignedTo, t);
    if found == {} then agent == UNSET else agent in found
  }

  method FindAssignee(s: WorkStore, t: Id) returns (agent: Id)
    ensures IsAssignee(s.edges, t, agent)
  {
    var found := Targets(s.edges, AssignedTo, t);
    if found == {} {
      return UNSET;
    }
    agent :| agent in found;
  }

  /** An assignment decides who gets the next attempts. */
  lemma AttemptsGoToTheAssignee(edges: set<Edge>, t: Id, agent: Id, told: Id)
    ensures IsAssignee(TaskGate.Reassigned(edges, t, agent), t, told) <==> told == agent
    ensures IsAssignee(TaskGate.Unassigned(edges, t), t, told) <==> told == UNSET
  {
    TaskGate.ReassignKeepsOneAssignee(edges, t, agent);
    assert forall a :: a in Targets(TaskGate.Unassigned(edges, t), AssignedTo, t) ==>
      Edge(AssignedTo, t, a) in TaskGate.Unassigned(edges, t);
  }

  /* ---- The ladder ---- */

  function FailureCharged(task: Task, now: Time): Task {
    Tasks.Merged(task, task.(recoveryRunsUsed := task.recoveryRunsUsed + 1), now)
  }

  /** What a failure publishes once it has been charged: another attempt while the budget lasts, then a request to
      classify. */
  function LadderEvent(t: Id, charged: Task, agent: Id, reason: string, runId: Id): Event {
    if charged.recoveryRunsUsed < MAX_RECOVERY_RUNS then EvTaskAssigned(t, agent, runId)
    else EvClassifyFailure(t, charged.recoveryRunsUsed, reason, runId)
  }

  /** Charging leaves the status and everything else but the counter and the time stamps alone, so the update it makes
      is always accepted and announces nothing: the ladder always takes the failure over. */
  lemma ChargingIsQuiet(t: Id, task: Task, now: Time)
    ensures FailureCharged(task, now).status == task.status
    ensures FailureCharged(task, now).recoveryRunsUsed == task.recoveryRunsUsed + 1
    ensures FailureCharged(task, now).workflowRunId == task.workflowRunId
    ensures FailureCharged(task, now).(recoveryRunsUsed := task.recoveryRunsUsed, updatedAt := task.updatedAt,
                                       completedAt := task.completedAt) == task
    ensures Tasks.UpdateEvents(t, task, FailureCharged(task, now)) == []
  {
  }

  method HandleTaskFailureWithRetry(s: WorkStore, t: Id, reason: string, runId: Id, now: Time)
    returns (handled: bool, ghost agent: Id)
    requires s.HasIds() && t in s.tasks
    modifies s`tasks, s`edges, s`events
    ensures s.HasIds() && handled && s.edges == old(s.edges)
    ensures s.tasks == old(s.tasks)[t := FailureCharged(old(s.tasks[t]), now)]
    ensures IsAssignee(s.edges, t, agent)
    ensures s.events == old(s.events) + [LadderEvent(t, s.tasks[t], agent, reason, runId)]
    // One more failure is counted; the first two are answered by a new attempt, told to an assignee if there is one.
    ensures var used := old(s.tasks[t]).recoveryRunsUsed + 1;
            && s.tasks[t].recoveryRunsUsed == used && s.tasks[t].status == old(s.tasks[t]).status
            && s.events == old(s.events) + [if used <= 2 then EvTaskAssigned(t, agent, runId)
                                            else EvClassifyFailure(t, used, reason, runId)]
    ensures (exists a :: Edge(AssignedTo, t, a) in s.edges) ==> Edge(AssignedTo, t, agent) in s.edges
    ensures (forall a :: Edge(AssignedTo, t, a) !in s.edges) ==> agent == UNSET
  {
    assert forall a :: a in Targets(s.edges, AssignedTo, t) <==> Edge(AssignedTo, t, a) in s.edges;
    ChargingIsQuiet(t, s.tasks[t], now);
    var task := s.tasks[t].(recoveryRunsUsed := s.tasks[t].recoveryRunsUsed + 1);
    var assignee := FindAssignee(s, t);
    agent := assignee;
    var charged := Tasks.UpdateInPlace(s, t, task, now);
    if !charged {
      return false, agent;
    }
    if task.recoveryRunsUsed < MAX_RECOVERY_RUNS {
      s.Publish(EvTaskAssigned(t, assignee, runId));
    } else {
      s.Publish(EvClassifyFailure(t, task.recoveryRunsUsed, reason, runId));
    }
    handled := true;
  }

  /* ---- Agent reports ---- */

  datatype AgentReport = AgentReport(id: Id, report: TodoScheduler.Report, reason: string, runId: Id, hasSubtasks: bool)

  /** A report that ends a task in decompose mode is left to the settlement of its todos. */
  predicate Deferred(edges: set<Edge>, r: AgentReport) {
    (r.report.Completed? || r.report.Failed?) && (r.hasSubtasks || Targets(edges, HasTodo, r.id) != {})
  }

  function ReportedTask(task: Task, r: AgentReport): Task {
    task.(status := if r.report.Started? then TaskInProgress else TaskCompleted)
  }

  function ReportedRun(task: Task, r: AgentReport): Id {
    if r.runId == UNSET then task.workflowRunId else r.runId
  }

  /** The end a report puts to a task is rolled up to its split parent; a start is not. */
  function RollsUpTo(task: Task, r: AgentReport): Id {
    if r.report.Completed? then task.parentTaskId else UNSET
  }

  /** What a report leaves behind besides the store: the assignee told, the trail of a todo's report, the tasks before
      the roll-up and the events of the roll-up, and all events. */
  datatype Outcome = Outcome(
    agent: Id, trail: TodoScheduler.Trail, mid: map<Id, Task>, news: seq<Event>, events: seq<Event>)

  ghost predicate TaskMoved(
      before: map<Id, Task>, edges: set<Edge>, t: Id, next: Task, rollUp: Id, now: Time, out: Outcome,
      after: map<Id, Task>)
    requires t in before
  {
    && out.mid == (if Tasks.UpdateError(before, edges, t, next) == None
                   then before[t := Tasks.Merged(before[t], next, now)]
                   else before)
    && SplitRollUp.RolledUp(out.mid, edges, rollUp, now, after, out.news)
    && out.events == Tasks.ChangeEvents(before, out.mid, t) + out.news
  }

  /** A report on a task: a failure goes to the ladder, a start or a completion to its status and a completion on to the
      split parent, unless its todos are to decide. */
  ghost predicate TaskReported(
      before: map<Id, Task>, edges: set<Edge>, r: AgentReport, now: Time, out: Outcome, after: map<Id, Task>)
    requires r.id in before
  {
    if Deferred(edges, r) then after == before && out.events == []
    else if r.report.Failed? then
      && after == before[r.id := FailureCharged(before[r.id], now)]
      && IsAssignee(edges, r.id, out.agent)
      && out.events == [LadderEvent(r.id, after[r.id], out.agent, r.reason, ReportedRun(before[r.id], r))]
    else TaskMoved(before, edges, r.id, ReportedTask(before[r.id], r), RollsUpTo(before[r.id], r), now, out, after)
  }

  /** A report on a todo: its status, the cascade, and the settlement of its task. */
  ghost predicate TodoReported(
      todos: TodoGraph.Board, tasks: map<Id, Task>, edges: set<Edge>, r: AgentReport, now: Time, out: Outcome,
      todos': TodoGraph.Board, tasks': map<Id, Task>)
    requires r.id in todos
  {
    && TodoScheduler.Reported(todos, edges, r.id, r.report, out.trail, todos')
    && (if r.report.Started? then tasks' == tasks && out.trail.news == []
        else TodoScheduler.ParentSettled(tasks, todos', edges, todos[r.id].parentTaskId, now, out.trail, tasks'))
    && out.events == (if r.report.Started? then [] else [EvTodoCompleted(r.id, r.report.Status())])
                     + TodoGraph.DispatchEvents(out.trail.order) + out.trail.news
  }

  /** What a report does, to the task or todo it names; nothing if it names neither. */
  ghost predicate ReportDone(
      todos: TodoGraph.Board, tasks: map<Id, Task>, edges: set<Edge>, r: AgentReport, now: Time, out: Outcome,
      todos': TodoGraph.Board, tasks': map<Id, Task>)
  {
    if r.id in tasks then todos' == todos && TaskReported(tasks, edges, r, now, out, tasks')
    else if r.id in todos then TodoReported(todos, tasks, edges, r, now, out, todos', tasks')
    else todos' == todos && tasks' == tasks && out.events == []
  }

  const NOTHING_DONE := Outcome(UNSET, TodoScheduler.Trail(map[], [], UNSET, []), map[], [], [])

  /** Routes a report to the task or todo it names. */
  method ApplyAgentReport(s: WorkStore, r: AgentReport, now: Time) returns (ghost out: Outcome)
    requires s.Valid() && r.report != TodoScheduler.Skipped
    modifies s`tasks, s`todos, s`edges, s`events
    ensures s.Valid() && s.edges == old(s.edges)
    ensures ReportDone(old(s.todos), old(s.tasks), s.edges, r, now, out, s.todos, s.tasks)
    ensures s.events == old(s.events) + out.events
    // The end of a task that has todos, or is said to have subtasks, is not for its agent to report.
    ensures r.id in old(s.tasks) && !r.report.Started?
            && (r.hasSubtasks || exists k :: Edge(HasTodo, r.id, k) in s.edges) ==>
              s.tasks == old(s.tasks) && s.todos == old(s.todos) && s.events == old(s.events)
    // Otherwise a failure is counted and answered, and a start or a completion moves the task where the table allows
    // it.
    ensures r.id in old(s.tasks) && r.report.Failed?
            && !(r.hasSubtasks || exists k :: Edge(HasTodo, r.id, k) in s.edges) ==>
              var was, run := old(s.tasks)[r.id], if r.runId != UNSET then r.runId
              else old(s.tasks)[r.id].workflowRunId;
              && r.id in s.tasks && s.tasks[r.id].recoveryRunsUsed == was.recoveryRunsUsed + 1
              && s.tasks[r.id].status == was.status && |s.events| == |old(s.events)| + 1
              && var e := s.events[|old(s.events)|];
                 e.taskId == r.id && e.runId == run && if was.recoveryRunsUsed < 2 then e.EvTaskAssigned?
                                                       else e.EvClassifyFailure?
    ensures r.id in old(s.tasks) && !r.report.Failed? && old(s.tasks)[r.id].parentTaskId != r.id
            && (r.report.Started? || !(r.hasSubtasks || exists k :: Edge(HasTodo, r.id, k) in s.edges)) ==>
              var was, next := old(s.tasks)[r.id].status, if r.report.Started? then TaskInProgress else TaskCompleted;
              var held := was == TaskPending && next == TaskInProgress
                          && exists b :: Edge(Blocks, b, r.id) in s.edges && b in old(s.tasks)
                                         && !old(s.tasks)[b].status.IsTerminal();
              && r.id in s.tasks
              && s.tasks[r.id].status == if was.CanTransitionTo(next) && !held then next else was
  {
    ReportTells(s.tasks, s.edges, r);
    out := NOTHING_DONE;
    if r.id !in s.tasks {
      out := ReportTodo(s, r, now);
      return;
    }
    if Deferred(s.edges, r) {
      return;
    }
    var task := s.tasks[r.id];
    if r.report.Failed? {
      var handled, agent := HandleTaskFailureWithRetry(s, r.id, r.reason, ReportedRun(task, r), now);
      out := out.(agent := agent,
                  events := [LadderEvent(r.id, s.tasks[r.id], agent, r.reason, ReportedRun(task, r))]);
      return;
    }
    out := MoveTask(s, r.id, ReportedTask(task, r), RollsUpTo(task, r), now);
  }

  /** A move announces the end of its task once, exactly if it ends it. */
  lemma MoveTells(
      before: map<Id, Task>, edges: set<Edge>, t: Id, next: Task, rollUp: Id, now: Time, out: Outcome,
      after: map<Id, Task>)
    requires t in before && TaskMoved(before, edges, t, next, rollUp, now, out, after)
    requires rollUp != t && next.workflowRunId == before[t].workflowRunId
    ensures t in after
    ensures multiset(out.events)[EvTaskCompleted(t, next.status, next.workflowRunId)]
            == if before[t].status != after[t].status && next.status.IsTerminal() then 1 else 0
  {
    var e, changes := EvTaskCompleted(t, next.status, next.workflowRunId), Tasks.ChangeEvents(before, out.mid, t);
    SplitRollUp.NewsOfParent(out.mid, edges, rollUp, now, after, out.news);
    ChangeTells(before, edges, t, next, now, out.mid);
    CountBoth(changes, out.news, e);
    CountBoth(out.news, [], e);
  }

  lemma ChangeTells(before: map<Id, Task>, edges: set<Edge>, t: Id, next: Task, now: Time, mid: map<Id, Task>)
    requires t in before && next.workflowRunId == before[t].workflowRunId
    requires mid == if Tasks.UpdateError(before, edges, t, next) == None
             then before[t := Tasks.Merged(before[t], next, now)]
                    else before
    ensures t in mid
    ensures multiset(Tasks.ChangeEvents(before, mid, t))[EvTaskCompleted(t, next.status, next.workflowRunId)]
            == if before[t].status != mid[t].status && next.status.IsTerminal() then 1 else 0
  {
    if mid != before {
      Tasks.UpdateTells([], t, before[t], mid[t]);
      assert [] + Tasks.UpdateEvents(t, before[t], mid[t]) == Tasks.UpdateEvents(t, before[t], mid[t]);
    }
  }

  /** A completion reported for the last unfinished child of a split task settles it. */
  lemma CompletionRollsUp(
      before: map<Id, Task>, edges: set<Edge>, r: AgentReport, now: Time, out: Outcome, after: map<Id, Task>)
    requires r.id in before && TaskReported(before, edges, r, now, out, after) && r.report.Completed?
    requires !Deferred(edges, r)
    requires before[r.id].parentTaskId != UNSET && before[r.id].parentTaskId in before
    ensures out.mid.Keys == before.Keys && forall c :: c in before && c != r.id ==> out.mid[c] == before[c]
    ensures var mid, parent := out.mid, before[r.id].parentTaskId;
            var was := mid[parent].status;
            var over := && (exists c :: Edge(SubtaskOf, c, parent) in edges)
                        && forall c :: Edge(SubtaskOf, c, parent) in edges ==> c in mid && mid[c].status.IsTerminal();
            var won := forall c :: Edge(SubtaskOf, c, parent) in edges ==> c in mid && mid[c].status == TaskCompleted;
            && parent in after
            && after[parent].status == if !over || (was != TaskInProgress && was != TaskSplit) then was
                                       else if won then TaskCompleted else TaskFailed
  {
    SplitRollUp.RolledUpTells(out.mid, edges, before[r.id].parentTaskId, now, after, out.news);
  }

  /** When a report is left to the todos, and when the move it asks for is accepted. */
  lemma ReportTells(tasks: map<Id, Task>, edges: set<Edge>, r: AgentReport)
    requires r.report != TodoScheduler.Skipped
    ensures Deferred(edges, r) <==> !r.report.Started? && (r.hasSubtasks || exists k :: Edge(HasTodo, r.id, k) in edges)
    ensures r.id in tasks ==>
              (Tasks.UpdateError(tasks, edges, r.id, ReportedTask(tasks[r.id], r)) == None
               <==> var was, next := tasks[r.id].status, if r.report.Started? then TaskInProgress else TaskCompleted;
                    || was == next
                    || (was.CanTransitionTo(next)
                        && !(was == TaskPending && next == TaskInProgress
                             && exists b ::
                                  Edge(Blocks, b, r.id) in edges && b in tasks && !tasks[b].status.IsTerminal())))
  {
    assert forall k :: k in Targets(edges, HasTodo, r.id) <==> Edge(HasTodo, r.id, k) in edges;
    if k :| Edge(HasTodo, r.id, k) in edges { assert k in Targets(edges, HasTodo, r.id); }
    if Targets(edges, HasTodo, r.id) != {} { var k :| k in Targets(edges, HasTodo, r.id); }
    if r.id in tasks { Tasks.RefusalTells(tasks, edges, r.id, ReportedTask(tasks[r.id], r)); }
  }

  method ReportTodo(s: WorkStore, r: AgentReport, now: Time) returns (ghost out: Outcome)
    requires s.Valid() && r.report != TodoScheduler.Skipped
    modifies s`tasks, s`todos, s`edges, s`events
    ensures s.Valid() && s.edges == old(s.edges)
    ensures if r.id in old(s.todos)
            then TodoReported(old(s.todos), old(s.tasks), s.edges, r, now, out, s.todos, s.tasks)
            else s.todos == old(s.todos) && s.tasks == old(s.tasks) && out.events == []
    ensures s.events == old(s.events) + out.events
  {
    ghost var known := r.id in s.todos;
    ghost var trail := TodoScheduler.UpdateTodoStatus(s, r.id, r.report, now);
    ghost var first := if r.report.Started? then [] else [EvTodoCompleted(r.id, r.report.Status())];
    LogAssoc(old(s.events), first, TodoGraph.DispatchEvents(trail.order));
    LogAssoc(old(s.events), first + TodoGraph.DispatchEvents(trail.order), trail.news);
    out := NOTHING_DONE.(trail := trail,
                         events := if known then first + TodoGraph.DispatchEvents(trail.order) + trail.news else []);
  }

  /** Updates a task in place and rolls its end up, whether or not the update was accepted. */
  method MoveTask(s: WorkStore, t: Id, next: Task, rollUp: Id, now: Time) returns (ghost out: Outcome)
    requires s.HasIds() && t in s.tasks && next.workflowRunId == s.tasks[t].workflowRunId
    modifies s`tasks, s`edges, s`events
    ensures s.HasIds() && s.edges == old(s.edges)
    ensures TaskMoved(old(s.tasks), s.edges, t, next, rollUp, now, out, s.tasks)
    ensures s.events == old(s.events) + out.events
  {
    var _ := Tasks.UpdateInPlace(s, t, next, now);
    ghost var mid := s.tasks;
    ghost var news := SplitRollUp.MaybeCompleteSplitParent(s, rollUp, now);
    ghost var changes := Tasks.ChangeEvents(old(s.tasks), mid, t);
    LogAssoc(old(s.events), changes, news);
    out := NOTHING_DONE.(mid := mid, news := news, events := changes + news);
  }

  /* ---- Classification and escalation ---- */

  function PauseEvents(run: Run, id: Id, t: Id): seq<Event> {
    if run.status.CanTransitionTo(RunPaused) then [EvRunPaused(id, t)] else []
  }

  function Paused(runs: map<Id, Run>, id: Id, now: Time): map<Id, Run> {
    if id in runs && runs[id].status.CanTransitionTo(RunPaused)
    then runs[id := RunLifecycle.StatusWritten(runs[id], RunPaused, "", now)] else runs
  }

  /** The status change, the request for direction, and the pause of the run if it can be paused. */
  function EscalationEvents(t: Id, task: Task, out: Task, runs: map<Id, Run>): seq<Event> {
    Tasks.UpdateEvents(t, task, out)
    + [EvNeedsDirection(t, task.recoveryRunsUsed, task.workflowRunId)]
    + (if task.workflowRunId in runs then PauseEvents(runs[task.workflowRunId], task.workflowRunId, t) else [])
  }

  /** Parks the task until somebody directs it, and pauses its run if the run is in progress. */
  method EscalateToHumanDirection(s: WorkStore, t: Id, now: Time)
    requires s.Valid() && t in s.tasks
    modifies s`tasks, s`edges, s`runs, s`events, s`history
    ensures s.Valid() && s.edges == old(s.edges)
    ensures var task := old(s.tasks[t]);
            var next := task.(status := TaskAwaitingDirection);
            if Tasks.UpdateError(old(s.tasks), s.edges, t, next) == None then
              && s.tasks == old(s.tasks)[t := Tasks.Merged(task, next, now)]
              && s.runs == Paused(old(s.runs), task.workflowRunId, now)
              && s.events == old(s.events) + EscalationEvents(t, task, s.tasks[t], old(s.runs))
              && s.history == RunLifecycle.Logged(old(s.runs), old(s.history), task.workflowRunId,
                                                  RunLifecycle.StatusSet(RunPaused))
            else
              && s.tasks == old(s.tasks) && s.runs == old(s.runs)
              && s.events == old(s.events) && s.history == old(s.history)
    // Parked exactly if it may be; then direction is asked for once, and its run is paused exactly if it is in
    // progress.
    ensures var was, run := old(s.tasks)[t], old(s.tasks)[t].workflowRunId;
            var parks := was.status in {TaskAwaitingDirection, TaskInProgress, TaskBlocked};
            var pauses := parks && run in old(s.runs) && old(s.runs)[run].status == RunInProgress;
            var news := s.events[|old(s.events)|..];
            && t in s.tasks && s.tasks[t].status == (if parks then TaskAwaitingDirection else was.status)
            && s.runs.Keys == old(s.runs).Keys
            && (forall r :: r in s.runs ==>
                  if r == run && pauses then s.runs[r].status == RunPaused else s.runs[r] == old(s.runs)[r])
            && multiset(news)[EvNeedsDirection(t, was.recoveryRunsUsed, run)] == (if parks then 1 else 0)
            && multiset(news)[EvRunPaused(run, t)] == (if pauses then 1 else 0)
  {
    ParkThenPause(s, t, now);
    EscalationTells(old(s.tasks), s.edges, old(s.runs), t, now);
    EscalationAnnounces(old(s.events), old(s.tasks[t]), old(s.runs), t, s.tasks[t]);
  }

  method ParkThenPause(s: WorkStore, t: Id, now: Time)
    requires s.Valid() && t in s.tasks
    modifies s`tasks, s`edges, s`runs, s`events, s`history
    ensures s.Valid() && s.edges == old(s.edges)
    ensures var task := old(s.tasks[t]);
            var next := task.(status := TaskAwaitingDirection);
            if Tasks.UpdateError(old(s.tasks), s.edges, t, next) == None then
              && s.tasks == old(s.tasks)[t := Tasks.Merged(task, next, now)]
              && s.runs == Paused(old(s.runs), task.workflowRunId, now)
              && s.events == old(s.events) + EscalationEvents(t, task, s.tasks[t], old(s.runs))
              && s.history == RunLifecycle.Logged(old(s.runs), old(s.history), task.workflowRunId,
                                                  RunLifecycle.StatusSet(RunPaused))
            else
              && s.tasks == old(s.tasks) && s.runs == old(s.runs)
              && s.events == old(s.events) && s.history == old(s.history)
  {
    var task := s.tasks[t];
    var ok := Tasks.UpdateInPlace(s, t, task.(status := TaskAwaitingDirection), now);
    if !ok {
      return;
    }
    s.Publish(EvNeedsDirection(t, task.recoveryRunsUsed, task.workflowRunId));
    PauseRun(s, task.workflowRunId, t, now);
  }

  /** When an escalation is accepted, and which run it pauses. */
  lemma EscalationTells(tasks: map<Id, Task>, edges: set<Edge>, runs: map<Id, Run>, t: Id, now: Time)
    requires t in tasks
    ensures Tasks.UpdateError(tasks, edges, t, tasks[t].(status := TaskAwaitingDirection)) == None
            <==> tasks[t].status in {TaskAwaitingDirection, TaskInProgress, TaskBlocked}
    ensures var run, after := tasks[t].workflowRunId, Paused(runs, tasks[t].workflowRunId, now);
            && after.Keys == runs.Keys
            && forall r :: r in after ==>
              if r == run && runs[r].status == RunInProgress then after[r].status == RunPaused
                                          else after[r] == runs[r]
  {
  }

  /** What it announces. */
  lemma EscalationAnnounces(log: seq<Event>, was: Task, runs: map<Id, Run>, t: Id, out: Task)
    ensures var news, run := (log + EscalationEvents(t, was, out, runs))[|log|..], was.workflowRunId;
            && multiset(news)[EvNeedsDirection(t, was.recoveryRunsUsed, run)] == 1
            && multiset(news)[EvRunPaused(run, t)]
              == (if run in runs && runs[run].status == RunInProgress then 1 else 0)
  {
    var run := was.workflowRunId;
    Tasks.UpdateKinds(t, was, out);
    var ask, pause := EvNeedsDirection(t, was.recoveryRunsUsed, run), EvRunPaused(run, t);
    var updates, pauses := Tasks.UpdateEvents(t, was, out), if run in runs then PauseEvents(runs[run], run, t) else [];
    assert EscalationEvents(t, was, out, runs) == updates + [ask] + pauses;
    var news := EscalationEvents(t, was, out, runs);
    assert news == updates + [ask] + pauses;
    assert (log + news)[|log|..] == news;
    EscalationCounts(updates, pauses, ask, pause);
  }

  lemma EscalationCounts(updates: seq<Event>, pauses: seq<Event>, ask: Event, pause: Event)
    requires forall e :: e in updates ==> e.EvTaskUpdated? || e.EvTaskStatusChanged? || e.EvTaskCompleted?
    requires ask.EvNeedsDirection? && pause.EvRunPaused? && (pauses == [] || pauses == [pause])
    ensures var news := updates + [ask] + pauses;
            multiset(news)[ask] == 1 && multiset(news)[pause] == |pauses|
  {
    CountThree(updates, [ask], pauses, ask);
    CountThree(updates, [ask], pauses, pause);
  }

  lemma CountThree(a: seq<Event>, b: seq<Event>, c: seq<Event>, e: Event)
    ensures multiset(a + b + c)[e] == multiset(a)[e] + multiset(b)[e] + multiset(c)[e]
    ensures e !in a ==> multiset(a)[e] == 0
    ensures e !in c ==> multiset(c)[e] == 0
  {
  }

  method PauseRun(s: WorkStore, id: Id, t: Id, now: Time)
    requires s.Valid()
    modifies s`runs, s`events, s`history
    ensures s.Valid()
    ensures s.runs == Paused(old(s.runs), id, now)
    ensures s.events == old(s.events) + (if id in old(s.runs) then PauseEvents(old(s.runs)[id], id, t) else [])
    ensures s.history == RunLifecycle.Logged(old(s.runs), old(s.history), id, RunLifecycle.StatusSet(RunPaused))
  {
    if id == UNSET || id !in s.runs {
      return;
    }
    if s.runs[id].status.CanTransitionTo(RunPaused) {
      var _ := RunLifecycle.MoveRun(s, id, RunPaused, "", now);
      s.Publish(EvRunPaused(id, t));
    }
  }

  /** A transient failure is granted one more attempt, without charge; anything else goes to a human. */
  method HandleTaskFailureClassified(s: WorkStore, t: Id, transient: bool, now: Time) returns (ghost agent: Id)
    requires s.Valid()
    modifies s`tasks, s`edges, s`runs, s`events, s`history
    ensures s.Valid() && s.edges == old(s.edges)
    ensures t !in old(s.tasks) || transient ==>
              s.tasks == old(s.tasks) && s.runs == old(s.runs) && s.history == old(s.history)
    ensures t !in old(s.tasks) ==> s.events == old(s.events)
    ensures t in old(s.tasks) && transient ==>
              IsAssignee(s.edges, t, agent)
                && s.events == old(s.events) + [EvTaskAssigned(t, agent, old(s.tasks[t]).workflowRunId)]
    ensures t in old(s.tasks) && !transient ==>
              var next := old(s.tasks[t]).(status := TaskAwaitingDirection);
              if Tasks.UpdateError(old(s.tasks), s.edges, t, next) == None then
                && s.tasks == old(s.tasks)[t := Tasks.Merged(old(s.tasks[t]), next, now)]
                && s.runs == Paused(old(s.runs), next.workflowRunId, now)
                && s.events == old(s.events) + EscalationEvents(t, old(s.tasks[t]), s.tasks[t], old(s.runs))
                && s.history == RunLifecycle.Logged(old(s.runs), old(s.history), next.workflowRunId,
                                                    RunLifecycle.StatusSet(RunPaused))
              else
                && s.tasks == old(s.tasks) && s.runs == old(s.runs)
                && s.events == old(s.events) && s.history == old(s.history)
  {
    agent := UNSET;
    if t !in s.tasks {
      return;
    }
    if transient {
      var assignee := FindAssignee(s, t);
      agent := assignee;
      s.Publish(EvTaskAssigned(t, assignee, s.tasks[t].workflowRunId));
      return;
    }
    EscalateToHumanDirection(s, t, now);
  }
}
