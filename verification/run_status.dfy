/** Run status changes driven by events: internal/server/run_status_handler.go. */
module RunStatusHandler {
  import opened WorkModel
  import opened TerminalEvent
  import RunClosure
  import RunLifecycle

  const TASK_ASSIGNED := "task.assigned"
  const TASK_COMPLETED := "task.completed"
  const TASK_FAILED := "task.failed"
  const PIPELINE_STARTED := "pipeline.started"
  const FAILURE_TOPICS := {TASK_FAILED, "functions.job.failed", "run.failed", "git.merge.failed"}
  const TASKS_FAILED := "one or more tasks failed"

  /** The run an event belongs to, under either spelling of the field; "" if it names none. */
  function RunOf(payload: Payload): Id {
    var id := TextOf(payload, "workflow_run_id");
    if id != "" then id else TextOf(payload, "WorkflowRunID")
  }

  /** The first reason-like field that is not empty. */
  function ReasonOf(payload: Payload): string {
    var r := TextOf(payload, "reason");
    if r != "" then r else
    var r := TextOf(payload, "Reason");
    if r != "" then r else
    var r := TextOf(payload, "error");
    if r != "" then r else TextOf(payload, "message")
  }

  /** It is the first that is not empty, and empty only if all four are. */
  lemma ReasonTells(payload: Payload)
    ensures var texts := [TextOf(payload, "reason"), TextOf(payload, "Reason"), TextOf(payload, "error"),
                          TextOf(payload, "message")];
            && (ReasonOf(payload) == "" ==> forall i :: 0 <= i < 4 ==> texts[i] == "")
            && (ReasonOf(payload) != "" ==>
                  exists i :: 0 <= i < 4 && texts[i] == ReasonOf(payload) && forall j :: 0 <= j < i ==> texts[j] == "")
  {
    var texts := [TextOf(payload, "reason"), TextOf(payload, "Reason"), TextOf(payload, "error"),
                  TextOf(payload, "message")];
    var i := if texts[0] != "" then 0 else if texts[1] != "" then 1 else if texts[2] != "" then 2 else 3;
    assert texts[i] == ReasonOf(payload);
  }

  /* ---- Closing a run with its last task ---- */

  predicate AllTerminal(tasks: map<Id, Task>, ids: set<Id>)
    requires ids <= tasks.Keys
  {
    ids != {} && forall t :: t in ids ==> tasks[t].status.IsTerminal()
  }

  predicate AnyFailed(tasks: map<Id, Task>, ids: set<Id>)
    requires ids <= tasks.Keys
  {
    exists t :: t in ids && tasks[t].status == TaskFailed
  }

  /** The run can close exactly when it has tasks and all of them are terminal; as failed exactly when one failed. */
  method AllTasksTerminalStatus(s: WorkStore, runId: Id) returns (next: Option<RunStatus>, reason: string)
    requires runId in s.runs
    ensures var ids := RunClosure.ClosureTasks(s.tasks, s.edges, runId);
            && (next.Some? <==> AllTerminal(s.tasks, ids))
            && (next.Some? ==> next.value == if AnyFailed(s.tasks, ids) then RunFailed else RunCompleted)
            && reason == if next == Some(RunFailed) then TASKS_FAILED else ""
  {
    next, reason := None, "";
    var run, tasks, _, _ := RunClosure.GetWorkflowRunClosure(s, runId);
    ghost var ids := RunClosure.ClosureTasks(s.tasks, s.edges, runId);
    assert forall t :: t in ids ==> RunClosure.Entry(t, s.tasks[t]) in tasks;
    if |tasks| == 0 {
      return;
    }
    assert tasks[0].id in ids;
    var active, anyFailed := JudgeTasks(tasks);
    if active {
      return;
    }
    next := Some(if anyFailed then RunFailed else RunCompleted);
    reason := if anyFailed then TASKS_FAILED else "";
  }

  method JudgeTasks(tasks: seq<RunClosure.Entry<Task>>) returns (active: bool, anyFailed: bool)
    ensures active <==> exists x :: x in tasks && !x.entity.status.IsTerminal()
    ensures !active ==> (anyFailed <==> exists x :: x in tasks && x.entity.status == TaskFailed)
  {
    anyFailed := false;
    for i := 0 to |tasks|
      invariant forall x :: x in tasks[..i] ==> x.entity.status.IsTerminal()
      invariant anyFailed <==> exists x :: x in tasks[..i] && x.entity.status == TaskFailed
    {
      assert tasks[..i + 1] == tasks[..i] + [tasks[i]];
      match tasks[i].entity.status {
        case TaskCompleted | TaskCancelled =>
        case TaskFailed => anyFailed := true;
        case _ => return true, anyFailed;
      }
    }
    assert tasks[..|tasks|] == tasks;
    active := false;
  }

  /* ---- Any event ---- */

  /** The status an event moves the run to, and the reason; None if it leaves the run alone. */
  function Target(
      run: Run, topic: string, payload: Payload, tasks: map<Id, Task>, ids: set<Id>): Option<(RunStatus, string)>
    requires ids <= tasks.Keys
  {
    if run.status == RunPending then
      if topic == TASK_ASSIGNED || topic == PIPELINE_STARTED then Some((RunInProgress, "")) else None
    else if run.status != RunInProgress then None
    else if topic in FAILURE_TOPICS then Some((RunFailed, ReasonOf(payload)))
    else if Matches(run.terminalEvent, topic, payload) then Some((RunCompleted, ""))
    else if topic != TASK_COMPLETED || !AllTerminal(tasks, ids) then None
    else if AnyFailed(tasks, ids) then Some((RunFailed, TASKS_FAILED))
    else Some((RunCompleted, ""))
  }

  /** Every target is an edge of the transition table, so no event is ever refused; a run that is neither pending nor in
      progress is deaf to events, and only an event that names a failure, or a failed task, fails a run. */
  lemma TargetsAreLegal(run: Run, topic: string, payload: Payload, tasks: map<Id, Task>, ids: set<Id>)
    requires ids <= tasks.Keys
    ensures var target := Target(run, topic, payload, tasks, ids);
            && (target.Some? ==> run.status.CanTransitionTo(target.value.0))
            && (!(run.status in {RunPending, RunInProgress}) ==> target == None)
            && (target.Some? && target.value.0 == RunFailed ==>
                  topic in FAILURE_TOPICS || (AllTerminal(tasks, ids) && AnyFailed(tasks, ids)))
            && (target.Some? && target.value.0 == RunCompleted ==>
                  || Matches(run.terminalEvent, topic, payload)
                  || (topic == TASK_COMPLETED && AllTerminal(tasks, ids) && !AnyFailed(tasks, ids)))
  {
  }

  method HandleEvent(s: WorkStore, topic: string, payload: Payload, now: Time)
    requires s.Valid()
    modifies s`runs, s`events, s`history
    ensures s.Valid()
    ensures RunOf(payload) !in old(s.runs) ==>
              s.runs == old(s.runs) && s.events == old(s.events) && s.history == old(s.history)
    ensures RunOf(payload) in old(s.runs) ==>
              var id := RunOf(payload);
              var run := old(s.runs[id]);
              match Target(run, topic, payload, s.tasks, RunClosure.ClosureTasks(s.tasks, s.edges, id))
              case None => s.runs == old(s.runs) && s.events == old(s.events) && s.history == old(s.history)
              case Some(target) =>
                && s.runs == old(s.runs)[id := RunLifecycle.StatusWritten(run, target.0, target.1, now)]
                && s.events == old(s.events) + [EvRunStatus(id, target.0)]
                && s.history == RunLifecycle.Logged(old(s.runs), old(s.history), id, RunLifecycle.StatusSet(target.0))
    // Exactly which events start, complete and fail the run they name; no other run is touched.
    ensures forall id :: id in old(s.runs) ==>
              && id in s.runs
              && (s.runs[id] != old(s.runs)[id] ==>
                    id == TextOf(payload, "workflow_run_id") || id == TextOf(payload, "WorkflowRunID"))
    ensures var id := if TextOf(payload, "workflow_run_id") != "" then TextOf(payload, "workflow_run_id")
                      else TextOf(payload, "WorkflowRunID");
            id in old(s.runs) && id in s.runs ==>
              var was, after := old(s.runs)[id].status, s.runs[id].status;
              var matched := Matches(old(s.runs)[id].terminalEvent, topic, payload);
              var failure := topic in {"task.failed", "functions.job.failed", "run.failed", "git.merge.failed"};
              var closes := && topic == "task.completed" && !matched
                            && (exists t :: Edge(StartedTask, id, t) in s.edges && t in s.tasks)
                            && forall t :: Edge(StartedTask, id, t) in s.edges && t in s.tasks ==>
                                 s.tasks[t].status.IsTerminal();
              var broken := exists t :: Edge(StartedTask, id, t) in s.edges && t in s.tasks
                                        && s.tasks[t].status == TaskFailed;
              && (was == RunPending ==>
                    after == if topic in {"task.assigned", "pipeline.started"} then RunInProgress else RunPending)
              && (was == RunInProgress ==>
                    && (after == RunFailed <==> failure || (closes && broken))
                    && (after == RunCompleted <==> !failure && (matched || (closes && !broken)))
                    && (after in {RunFailed, RunCompleted, RunInProgress}))
              && (was != RunPending && was != RunInProgress ==> after == was)
  {
    MoveByEvent(s, topic, payload, now);
    EventTells(old(s.runs), topic, payload, s.tasks, s.edges, now, s.runs);
  }

  /** What an event does to the run it names, from each status: exactly which start a pending run, and exactly which
      complete or fail a run in progress.  No other run is touched. */
  lemma EventTells(
      runs: map<Id, Run>, topic: string, payload: Payload, tasks: map<Id, Task>, edges: set<Edge>, now: Time,
      after: map<Id, Run>)
    requires RunOf(payload) !in runs ==> after == runs
    requires RunOf(payload) in runs ==>
               var id := RunOf(payload);
               after == match Target(runs[id], topic, payload, tasks, RunClosure.ClosureTasks(tasks, edges, id))
                        case None => runs
                        case Some(target) => runs[id := RunLifecycle.StatusWritten(runs[id], target.0, target.1, now)]
    ensures forall id :: id in runs ==>
              && id in after
              && (after[id] != runs[id] ==>
                    id == TextOf(payload, "workflow_run_id") || id == TextOf(payload, "WorkflowRunID"))
    ensures var id := if TextOf(payload, "workflow_run_id") != "" then TextOf(payload, "workflow_run_id")
                      else TextOf(payload, "WorkflowRunID");
            id in runs && id in after ==>
              var was, next := runs[id].status, after[id].status;
              var matched := Matches(runs[id].terminalEvent, topic, payload);
              var failure := topic in {"task.failed", "functions.job.failed", "run.failed", "git.merge.failed"};
              var closes := && topic == "task.completed" && !matched
                            && (exists t :: Edge(StartedTask, id, t) in edges && t in tasks)
                            && forall t :: Edge(StartedTask, id, t) in edges && t in tasks ==>
                                 tasks[t].status.IsTerminal();
              var broken := exists t :: Edge(StartedTask, id, t) in edges && t in tasks
                                        && tasks[t].status == TaskFailed;
              && (was == RunPending ==>
                    next == if topic in {"task.assigned", "pipeline.started"} then RunInProgress else RunPending)
              && (was == RunInProgress ==>
                    && (next == RunFailed <==> failure || (closes && broken))
                    && (next == RunCompleted <==> !failure && (matched || (closes && !broken)))
                    && (next in {RunFailed, RunCompleted, RunInProgress}))
              && (was != RunPending && was != RunInProgress ==> next == was)
  {
    var id := RunOf(payload);
    if id in runs {
      EndOfTasks(tasks, edges, id);
    }
  }

  /** When the tasks of a run let it close, and how, in terms of the edges from the run. */
  lemma EndOfTasks(tasks: map<Id, Task>, edges: set<Edge>, id: Id)
    ensures var ids := RunClosure.ClosureTasks(tasks, edges, id);
            && (AllTerminal(tasks, ids)
                <==> && (exists t :: Edge(StartedTask, id, t) in edges && t in tasks)
                     && forall t :: Edge(StartedTask, id, t) in edges && t in tasks ==> tasks[t].status.IsTerminal())
            && (AnyFailed(tasks, ids)
                <==> exists t :: Edge(StartedTask, id, t) in edges && t in tasks && tasks[t].status == TaskFailed)
  {
    var ids := RunClosure.ClosureTasks(tasks, edges, id);
    assert forall t :: t in ids <==> Edge(StartedTask, id, t) in edges && t in tasks;
    if ids != {} { var t :| t in ids; }
  }

  /** Moves the run that the event names, if there is one, to the target of the event, if there is one. */
  method MoveByEvent(s: WorkStore, topic: string, payload: Payload, now: Time)
    requires s.Valid()
    modifies s`runs, s`events, s`history
    ensures s.Valid()
    ensures RunOf(payload) !in old(s.runs) ==>
              s.runs == old(s.runs) && s.events == old(s.events) && s.history == old(s.history)
    ensures RunOf(payload) in old(s.runs) ==>
              var id := RunOf(payload);
              var run := old(s.runs[id]);
              match Target(run, topic, payload, s.tasks, RunClosure.ClosureTasks(s.tasks, s.edges, id))
              case None => s.runs == old(s.runs) && s.events == old(s.events) && s.history == old(s.history)
              case Some(target) =>
                && s.runs == old(s.runs)[id := RunLifecycle.StatusWritten(run, target.0, target.1, now)]
                && s.events == old(s.events) + [EvRunStatus(id, target.0)]
                && s.history == RunLifecycle.Logged(old(s.runs), old(s.history), id, RunLifecycle.StatusSet(target.0))
  {
    var id := RunOf(payload);
    if id == "" || id !in s.runs {
      return;
    }
    var target := Decide(s, id, topic, payload);
    if target.Some? {
      TargetsAreLegal(s.runs[id], topic, payload, s.tasks, RunClosure.ClosureTasks(s.tasks, s.edges, id));
      var _ := RunLifecycle.MoveRun(s, id, target.value.0, target.value.1, now);
    }
  }

  method Decide(s: WorkStore, id: Id, topic: string, payload: Payload) returns (target: Option<(RunStatus, string)>)
    requires id in s.runs
    ensures target == Target(s.runs[id], topic, payload, s.tasks, RunClosure.ClosureTasks(s.tasks, s.edges, id))
  {
    var run := s.runs[id];
    if run.status == RunPending && (topic == TASK_ASSIGNED || topic == PIPELINE_STARTED) {
      return Some((RunInProgress, ""));
    }
    if run.status == RunInProgress && topic in FAILURE_TOPICS {
      return Some((RunFailed, ReasonOf(payload)));
    }
    if run.status == RunInProgress && run.terminalEvent != "" && Matches(run.terminalEvent, topic, payload) {
      return Some((RunCompleted, ""));
    }
    if run.status == RunInProgress && topic == TASK_COMPLETED {
      var closing, reason := AllTasksTerminalStatus(s, id);
      if closing.Some? {
        return Some((closing.value, reason));
      }
    }
    target := None;
  }
}
