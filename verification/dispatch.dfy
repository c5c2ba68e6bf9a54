/** One delivery of an agent's task.failed: Dispatch in internal/server/event_dispatcher.go runs the retry ladder and
    then the run status handler on the same event. */
module Dispatcher {
  import opened WorkModel
  import Recovery
  import RunClosure
  import RunLifecycle
  import RunStatusHandler
  import RunTraces
  import TerminalEvent
  import TodoGraph
  import TodoScheduler

  /** An event of the agents, which carry the id of their run, that names an entity. */
  predicate FromAgent(agentRun: Id, r: Recovery.AgentReport) {
    agentRun != UNSET && r.id != UNSET
  }

  /** The run that a failure event ends: the one it names, if that is in progress. */
  predicate Ends(runs: map<Id, Run>, payload: TerminalEvent.Payload, id: Id) {
    id == RunStatusHandler.RunOf(payload) && id in runs && runs[id].status == RunInProgress
  }

  function EndEvents(runs: map<Id, Run>, payload: TerminalEvent.Payload): seq<Event> {
    var id := RunStatusHandler.RunOf(payload);
    if Ends(runs, payload, id) then [EvRunStatus(id, RunFailed)] else []
  }

  /** What an agent's report does; an event of the program's own is not one. */
  ghost predicate Heard(
      todos: TodoGraph.Board, tasks: map<Id, Task>, edges: set<Edge>, agentRun: Id, r: Recovery.AgentReport, now: Time,
      out: Recovery.Outcome, todos': TodoGraph.Board, tasks': map<Id, Task>)
  {
    if FromAgent(agentRun, r) then Recovery.ReportDone(todos, tasks, edges, r, now, out, todos', tasks')
    else todos' == todos && tasks' == tasks && out.events == []
  }

  /** Whatever the ladder, or the todos, make of the failure, the run that the event names is failed if it is in
      progress: a task is dispatched again, for its second and third attempt, in a run that has failed. */
  method DispatchTaskFailed(
      s: WorkStore, agentRun: Id, r: Recovery.AgentReport, payload: TerminalEvent.Payload, now: Time)
    returns (ghost out: Recovery.Outcome)
    requires s.Valid() && r.report == TodoScheduler.Failed
    requires r.runId == TerminalEvent.TextOf(payload, "workflow_run_id")
    modifies s`tasks, s`todos, s`edges, s`runs, s`events, s`history
    ensures s.Valid() && s.edges == old(s.edges)
    ensures Heard(old(s.todos), old(s.tasks), s.edges, agentRun, r, now, out, s.todos, s.tasks)
    ensures s.runs == EndedRuns(old(s.runs), payload, now)
    ensures s.history == EndedHistory(old(s.runs), old(s.history), payload)
    ensures s.events == old(s.events) + out.events + EndEvents(old(s.runs), payload)
    ensures agentRun == UNSET || r.id == UNSET ==> s.tasks == old(s.tasks) && s.todos == old(s.todos)
    // The run named by the event fails, announced once, exactly if it is in progress, and no other run is touched.
    ensures var id := if TerminalEvent.TextOf(payload, "workflow_run_id") != ""
                      then TerminalEvent.TextOf(payload, "workflow_run_id")
                      else TerminalEvent.TextOf(payload, "WorkflowRunID");
            && s.runs.Keys == old(s.runs).Keys
            && (forall r :: r in s.runs ==>
                  if r == id && old(s.runs)[r].status == RunInProgress then s.runs[r].status == RunFailed
                  else s.runs[r] == old(s.runs)[r])
            && s.events == old(s.events) + out.events
                           + if id in old(s.runs) && old(s.runs)[id].status == RunInProgress
                           then [EvRunStatus(id, RunFailed)]
                             else []
  {
    out := HearTaskFailed(s, agentRun, r, now);
    HearFailure(s, payload, now);
    EndTells(old(s.runs), payload, now);
  }

  /** The run named by a task.failed fails exactly if it is in progress, and no other run is touched. */
  lemma EndTells(runs: map<Id, Run>, payload: TerminalEvent.Payload, now: Time)
    ensures var id := if TerminalEvent.TextOf(payload, "workflow_run_id") != ""
                      then TerminalEvent.TextOf(payload, "workflow_run_id")
                      else TerminalEvent.TextOf(payload, "WorkflowRunID");
            var after := EndedRuns(runs, payload, now);
            && after.Keys == runs.Keys
            && (forall r :: r in after ==>
                  if r == id && runs[r].status == RunInProgress then after[r].status == RunFailed
                  else after[r] == runs[r])
            && EndEvents(runs, payload)
               == if id in runs && runs[id].status == RunInProgress then [EvRunStatus(id, RunFailed)] else []
  {
  }

  function EndedRuns(runs: map<Id, Run>, payload: TerminalEvent.Payload, now: Time): map<Id, Run> {
    var id := RunStatusHandler.RunOf(payload);
    if Ends(runs, payload, id)
    then runs[id := RunLifecycle.StatusWritten(runs[id], RunFailed, RunStatusHandler.ReasonOf(payload), now)] else runs
  }

  function EndedHistory(
      runs: map<Id, Run>, history: map<Id, seq<RunStatus>>, payload: TerminalEvent.Payload): map<Id, seq<RunStatus>>
  {
    var id := RunStatusHandler.RunOf(payload);
    if Ends(runs, payload, id) then RunLifecycle.Logged(runs, history, id, RunLifecycle.StatusSet(RunFailed))
    else history
  }

  /** The dispatcher's part. */
  method HearTaskFailed(s: WorkStore, agentRun: Id, r: Recovery.AgentReport, now: Time)
    returns (ghost out: Recovery.Outcome)
    requires s.Valid() && r.report == TodoScheduler.Failed
    modifies s`tasks, s`todos, s`edges, s`events
    ensures s.Valid() && s.edges == old(s.edges)
    ensures Heard(old(s.todos), old(s.tasks), s.edges, agentRun, r, now, out, s.todos, s.tasks)
    ensures s.events == old(s.events) + out.events
  {
    out := Recovery.NOTHING_DONE;
    if FromAgent(agentRun, r) {
      out := Recovery.ApplyAgentReport(s, r, now);
    }
  }

  /** The run status handler's part. */
  method HearFailure(s: WorkStore, payload: TerminalEvent.Payload, now: Time)
    requires s.Valid()
    modifies s`runs, s`events, s`history
    ensures s.Valid()
    ensures s.runs == EndedRuns(old(s.runs), payload, now)
    ensures s.history == EndedHistory(old(s.runs), old(s.history), payload)
    ensures s.events == old(s.events) + EndEvents(old(s.runs), payload)
  {
    RunStatusHandler.HandleEvent(s, RunStatusHandler.TASK_FAILED, payload, now);
    FailureIsTarget(old(s.runs), payload, s.tasks, s.edges);
  }

  /** A task.failed moves a run in progress to failed and no other run anywhere. */
  lemma FailureIsTarget(runs: map<Id, Run>, payload: TerminalEvent.Payload, tasks: map<Id, Task>, edges: set<Edge>)
    ensures var id := RunStatusHandler.RunOf(payload);
            id in runs ==>
              RunStatusHandler.Target(runs[id], RunStatusHandler.TASK_FAILED, payload, tasks,
                                      RunClosure.ClosureTasks(tasks, edges, id))
              == if Ends(runs, payload, id) then Some((RunFailed, RunStatusHandler.ReasonOf(payload))) else None
  {
  }

  /** So a run does not outlive the first failure that names it: after the delivery it is in none of its open statuses,
      and no sequence of calls brings it back, however often its tasks are retried. */
  lemma FailureEndsTheRun(
      runs: map<Id, Run>, history: map<Id, seq<RunStatus>>, payload: TerminalEvent.Payload, id: Id,
      later: seq<RunTraces.RunEvent>)
    requires HistoriesMatch(runs, history) && Ends(runs, payload, id)
    ensures var after := RunLifecycle.Logged(runs, history, id, RunLifecycle.StatusSet(RunFailed));
            && RunTraces.AllLegal(after) && id in after
            && var last := RunTraces.Trace(after, later)[id];
            last != [] && !RunLifecycle.IsOpen(RunTraces.Last(last))
  {
    var after := RunLifecycle.Logged(runs, history, id, RunLifecycle.StatusSet(RunFailed));
    RunTraces.LoggedIsStep(runs, history, id, RunLifecycle.StatusSet(RunFailed));
    RunTraces.TracesGrowLegally(history, [RunTraces.Called(id, RunLifecycle.StatusSet(RunFailed))]);
    RunTraces.CallStaysLegal(history[id], RunLifecycle.StatusSet(RunFailed));
    RunTraces.NoWayBack(after, later, id);
  }
}
