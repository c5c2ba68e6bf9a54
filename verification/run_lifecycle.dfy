/** The life of a workflow run: creation and status changes (workflow_run.go), cancellation (workflow_run_cancel.go) and
    timeouts (workflow_run_watchdog.go). */
module RunLifecycle {
  import opened WorkModel
  import Tasks

  /* ---- What every history looks like ---- */

  /** How far along a status is; edges never lead back. */
  function Phase(s: RunStatus): nat {
    match s
    case RunPending => 0
    case RunInProgress => 0
    case RunPaused => 0
    case RunCancelling => 1
    case RunCompleted => 2
    case RunFailed => 2
    case RunCancelled => 2
    case RunRollingBack => 3
    case RunRollbackFailed => 3
    case RunRolledBack => 4
  }

  predicate IsOpen(s: RunStatus) { s == RunPending || s == RunInProgress || s == RunPaused }

  predicate IsOutcome(s: RunStatus) { s == RunCompleted || s == RunFailed || s == RunCancelled }

  lemma {:induction false} PhasesAdvance(h: seq<RunStatus>, i: nat, j: nat)
    requires LegalHistory(h) && i < j < |h|
    ensures Phase(h[i]) <= Phase(h[j])
    ensures Phase(h[i]) == Phase(h[j]) ==> Phase(h[i]) == 0 || Phase(h[i]) == 3
    decreases j - i
  {
    assert h[i].CanTransitionTo(h[i + 1]);
    if i + 1 < j { PhasesAdvance(h, i + 1, j); }
  }

  lemma {:induction false} RollbackHasOutcome(h: seq<RunStatus>, j: nat)
    requires LegalHistory(h) && j < |h| && Phase(h[j]) >= 3
    ensures exists i :: 0 <= i < j && IsOutcome(h[i])
  {
    if j > 0 {
      assert h[j - 1].CanTransitionTo(h[j]);
      if !IsOutcome(h[j - 1]) { RollbackHasOutcome(h, j - 1); }
    }
  }

  /** In every history: rolled_back is final; a run that leaves {pending, in_progress, paused} never returns there; it
      completes, fails or is cancelled at most once in all; and no rollback starts before one of these has happened. */
  lemma HistoryShape(h: seq<RunStatus>)
    requires LegalHistory(h)
    ensures forall i :: 0 <= i < |h| - 1 ==> h[i] != RunRolledBack
    ensures forall i, j :: 0 <= i < j < |h| && IsOpen(h[j]) ==> IsOpen(h[i])
    ensures forall i, j :: 0 <= i < j < |h| ==> !(IsOutcome(h[i]) && IsOutcome(h[j]))
    ensures forall j :: 0 <= j < |h| && h[j] in {RunRollingBack, RunRollbackFailed, RunRolledBack}
              ==> exists i :: 0 <= i < j && IsOutcome(h[i])
  {
    forall i, j | 0 <= i < j < |h|
      ensures (IsOpen(h[j]) ==> IsOpen(h[i])) && !(IsOutcome(h[i]) && IsOutcome(h[j]))
    {
      PhasesAdvance(h, i, j);
    }
    forall i | 0 <= i < |h| - 1 ensures h[i] != RunRolledBack { assert h[i].CanTransitionTo(h[i + 1]); }
    forall j | 0 <= j < |h| && Phase(h[j]) >= 3 ensures exists i :: 0 <= i < j && IsOutcome(h[i]) {
      RollbackHasOutcome(h, j);
    }
  }

  /** Some legal way from a status to rolled_back: cancelled, failed and completed runs can all be rolled back, and
      every open run can still get there. */
  function WayToRolledBack(s: RunStatus): seq<RunStatus> {
    match s
    case RunPending => [RunInProgress, RunFailed, RunRollingBack, RunRolledBack]
    case RunInProgress => [RunCompleted, RunRollingBack, RunRolledBack]
    case RunPaused => [RunCancelling, RunCancelled, RunRollingBack, RunRolledBack]
    case RunCancelling => [RunCancelled, RunRollingBack, RunRolledBack]
    case RunCompleted => [RunRollingBack, RunRolledBack]
    case RunFailed => [RunRollingBack, RunRolledBack]
    case RunCancelled => [RunRollingBack, RunRolledBack]
    case RunRollingBack => [RunRolledBack]
    case RunRollbackFailed => [RunRollingBack, RunRolledBack]
    case RunRolledBack => []
  }

  /** No history is a dead end before rolled_back. */
  lemma NoDeadEnd(h: seq<RunStatus>)
    requires LegalHistory(h)
    ensures var longer := h + WayToRolledBack(h[|h| - 1]); LegalHistory(longer) && longer[|longer| - 1] == RunRolledBack
  {
    var way := WayToRolledBack(h[|h| - 1]);
    var longer := h + way;
    forall i | 0 <= i < |longer| - 1 ensures longer[i].CanTransitionTo(longer[i + 1]) {
      if i < |h| - 1 { assert h[i].CanTransitionTo(h[i + 1]); }
    }
  }

  /** At every moment of the store's life each run's history has that shape. */
  lemma EveryRunHasAShape(s: WorkStore, run: Id)
    requires s.Valid() && run in s.runs
    ensures run in s.history && LegalHistory(s.history[run])
    ensures forall i :: 0 <= i < |s.history[run]| - 1 ==> s.history[run][i] != RunRolledBack
    ensures forall i, j :: 0 <= i < j < |s.history[run]| && IsOutcome(s.history[run][i]) ==>
              !IsOutcome(s.history[run][j]) && !IsOpen(s.history[run][j])
  {
    HistoryShape(s.history[run]);
  }

  /* ---- The statuses each call takes a run through ---- */

  /** The calls that can change a run's status.  Events, pauses and resumptions set a status; a rollback is `blocked` if
      a task of another run depends on a task of this one. */
  datatype RunCall =
    | StatusSet(next: RunStatus)
    | CancelAsked
    | CancelFinalized
    | TimedOut
    | RollbackAsked(blocked: bool)

  function Visits(status: RunStatus, call: RunCall): seq<RunStatus> {
    match call
    case StatusSet(next) => if status.CanTransitionTo(next) then [next] else []
    case CancelAsked => if status == RunInProgress then [RunCancelling] else []
    case CancelFinalized => if status == RunCancelling then [RunCancelled] else []
    case TimedOut => if status == RunInProgress || status == RunPaused then [RunFailed] else []
    case RollbackAsked(blocked) =>
      if status.CanTransitionTo(RunRollingBack)
      then [RunRollingBack, if blocked then RunRollbackFailed else RunRolledBack] else []
  }

  /** The histories after a call on run `id`; an unknown run has none. */
  function Logged(
      runs: map<Id, Run>, history: map<Id, seq<RunStatus>>, id: Id, call: RunCall): map<Id, seq<RunStatus>> {
    if id !in runs || id !in history || Visits(runs[id].status, call) == [] then history
    else history[id := history[id] + Visits(runs[id].status, call)]
  }

  /* ---- Creating a run ---- */

  predicate IsSpace(c: char) {
    var n := c as int;
    || 9 <= n <= 13 || n == 0x20 || n == 0x85 || n == 0xA0 || n == 0x1680 || 0x2000 <= n <= 0x200A
    || n == 0x2028 || n == 0x2029 || n == 0x202F || n == 0x205F || n == 0x3000
  }

  predicate Untrimmed(name: string) {
    name != "" && (IsSpace(name[0]) || IsSpace(name[|name| - 1]))
  }

  ghost predicate NamesUnique(runs: map<Id, Run>) {
    forall a, b :: a in runs && b in runs && runs[a].name == runs[b].name ==> a == b
  }

  function NewRun(name: string, terminalEvent: string, now: Time): Run {
    Run(name, RunPending, terminalEvent, "", now, NO_TIME, now, now, UNSET, UNSET, 0, 0, [], "", "", NO_TIME)
  }

  /** `generated` is the name made up when none is given. */
  function ChosenName(name: string, generated: string): string {
    if name == "" then generated else name
  }

  predicate NameTaken(runs: map<Id, Run>, name: string) {
    exists k :: k in runs && runs[k].name == name
  }

  function CreationError(runs: map<Id, Run>, name: string, generated: string): Option<WorkError> {
    if Untrimmed(name) then Some(ErrInvalidTask)
    else if NameTaken(runs, ChosenName(name, generated)) then Some(ErrRunNameExists)
    else None
  }

  /** Names stay unique. */
  method CreateWorkflowRun(s: WorkStore, id: Id, name: string, generated: string, now: Time) returns (r: Result<Run>)
    requires s.Valid() && s.Fresh(id)
    modifies s`runs, s`history
    ensures s.Valid()
    ensures r == match CreationError(old(s.runs), name, generated)
                 case Some(err) => Err(err)
                 case None => Ok(NewRun(ChosenName(name, generated), "", now))
    ensures s.runs == if r.Ok? then old(s.runs)[id := r.value] else old(s.runs)
    ensures s.history == if r.Ok? then old(s.history)[id := [RunPending]] else old(s.history)
    ensures NamesUnique(old(s.runs)) ==> NamesUnique(s.runs)
    ensures var chosen := if name == "" then generated else name;
            && (r.Ok? <==> && (name == "" || (!IsSpace(name[0]) && !IsSpace(name[|name| - 1])))
                           && forall k :: k in old(s.runs) ==> old(s.runs)[k].name != chosen)
            && (r.Ok? ==>
                  && r.value.name == chosen && r.value.status == RunPending && r.value.startedAt == now
                  && r.value.createdAt == now && r.value.completedAt == NO_TIME && r.value.parentRunId == UNSET
                  && r.value.budget == 0 && r.value.used == 0 && r.value.counted == [])
  {
    if Untrimmed(name) {
      return Err(ErrInvalidTask);
    }
    var chosen := ChosenName(name, generated);
    var taken := FindName(s, chosen);
    if taken {
      return Err(ErrRunNameExists);
    }
    r := Ok(NewRun(chosen, "", now));
    s.runs := s.runs[id := r.value];
    s.history := s.history[id := [RunPending]];
  }

  method FindName(s: WorkStore, name: string) returns (taken: bool)
    ensures taken <==> NameTaken(s.runs, name)
  {
    var rest := s.runs.Keys;
    while rest != {}
      invariant rest <= s.runs.Keys
      invariant forall k :: k in s.runs.Keys - rest ==> s.runs[k].name != name
      decreases rest
    {
      var k :| k in rest;
      rest := rest - {k};
      if s.runs[k].name == name {
        return true;
      }
    }
    taken := false;
  }

  /* ---- Changing the status ---- */

  function StatusWritten(run: Run, next: RunStatus, reason: string, now: Time): Run {
    run.(status := next,
         updatedAt := now,
         startedAt := if next == RunInProgress && run.startedAt == NO_TIME then now else run.startedAt,
         completedAt := if next in {RunCompleted, RunFailed, RunRolledBack, RunRollbackFailed} then now
         else run.completedAt,
         failureReason := if reason != "" then reason else run.failureReason)
  }

  /** Pending and paused are entered without a run event of their own. */
  function StatusEvents(id: Id, status: RunStatus): seq<Event> {
    if status == RunPending || status == RunPaused then [] else [EvRunStatus(id, status)]
  }

  method UpdateWorkflowRunStatus(s: WorkStore, id: Id, next: RunStatus, reason: string, now: Time)
    returns (r: Result<Run>)
    requires s.Valid()
    modifies s`runs, s`events, s`history
    ensures s.Valid()
    ensures id !in old(s.runs) ==> r == Err(ErrRunNotFound)
    ensures id in old(s.runs) ==>
              if old(s.runs[id]).status.CanTransitionTo(next) then
                && r == Ok(StatusWritten(old(s.runs[id]), next, reason, now))
                && s.runs == old(s.runs)[id := r.value]
                && s.events == old(s.events) + StatusEvents(id, next)
              else r == Err(ErrInvalidRunTransition)
    ensures r.Err? ==> s.runs == old(s.runs) && s.events == old(s.events)
    ensures r.Ok? ==>
              s.events == old(s.events) + if next == RunPending || next == RunPaused then []
              else [EvRunStatus(id, next)]
    ensures s.history == Logged(old(s.runs), old(s.history), id, StatusSet(next))
  {
    if id !in s.runs {
      return Err(ErrRunNotFound);
    }
    if !s.runs[id].status.CanTransitionTo(next) {
      return Err(ErrInvalidRunTransition);
    }
    var run := MoveRun(s, id, next, reason, now);
    return Ok(run);
  }

  /** A status change that the table allows. */
  method MoveRun(s: WorkStore, id: Id, next: RunStatus, reason: string, now: Time) returns (run: Run)
    requires s.Valid() && id in s.runs && s.runs[id].status.CanTransitionTo(next)
    modifies s`runs, s`events, s`history
    ensures s.Valid()
    ensures run == StatusWritten(old(s.runs[id]), next, reason, now)
    ensures s.runs == old(s.runs)[id := run] && s.events == old(s.events) + StatusEvents(id, next)
    ensures s.history == Logged(old(s.runs), old(s.history), id, StatusSet(next))
  {
    run := StatusWritten(s.runs[id], next, reason, now);
    s.PutRun(id, run);
    PublishRunStatus(s, id, next);
  }

  method PublishRunStatus(s: WorkStore, id: Id, status: RunStatus)
    modifies s`events
    ensures s.events == old(s.events) + StatusEvents(id, status)
  {
    match status {
      case RunPending | RunPaused =>
      case _ => s.Publish(EvRunStatus(id, status));
    }
  }

  /* ---- Cancelling ---- */

  predicate Cancellable(tasks: map<Id, Task>, runId: Id, t: Id) {
    t in tasks && tasks[t].workflowRunId == runId && !tasks[t].status.IsTerminal()
  }

  function Cancelled(task: Task, now: Time): Task {
    task.(status := TaskCancelled, updatedAt := now, completedAt := if task.completedAt == NO_TIME then now
          else task.completedAt)
  }

  /** The tasks once `done` of them have been cancelled. */
  function CancelSome(tasks: map<Id, Task>, done: set<Id>, now: Time): map<Id, Task> {
    map t | t in tasks :: if t in done then Cancelled(tasks[t], now) else tasks[t]
  }

  function CancellableTasks(tasks: map<Id, Task>, runId: Id): set<Id> {
    set t | t in tasks && Cancellable(tasks, runId, t)
  }

  function CancelEvents(order: seq<Id>, runId: Id, reason: string): seq<Event> {
    seq(|order|, i requires 0 <= i < |order| => EvTaskCancelled(order[i], runId, reason))
  }

  /** Every task of the run ends terminal, exactly the unfinished ones having become cancelled, and cancelling again
      finds nothing to do. */
  lemma CascadeSettlesRun(tasks: map<Id, Task>, runId: Id, now: Time)
    ensures var after := CancelSome(tasks, CancellableTasks(tasks, runId), now);
            && (forall t :: t in after && after[t].workflowRunId == runId ==> after[t].status.IsTerminal())
            && (forall t :: t in tasks ==>
                  (after[t].status != tasks[t].status
                   <==> tasks[t].workflowRunId == runId && !tasks[t].status.IsTerminal()))
            && (forall t :: t in tasks && tasks[t].status.IsTerminal() ==> after[t] == tasks[t])
            && (forall t :: t in tasks && tasks[t].workflowRunId == runId && !tasks[t].status.IsTerminal() ==>
                  && after[t] == tasks[t].(status := TaskCancelled, updatedAt := now,
                                           completedAt := after[t].completedAt)
                  && (tasks[t].completedAt != NO_TIME ==> after[t].completedAt == tasks[t].completedAt)
                  && (now != NO_TIME ==> after[t].completedAt != NO_TIME))
            && CancellableTasks(after, runId) == {}
    // The table lets every unfinished task be cancelled, so the cascade's own check never holds one back.
    ensures forall t :: t in CancellableTasks(tasks, runId) ==> tasks[t].status.CanTransitionTo(TaskCancelled)
  {
    var after := CancelSome(tasks, CancellableTasks(tasks, runId), now);
    forall t | t in after && after[t].workflowRunId == runId ensures after[t].status.IsTerminal() {
      assert t in CancellableTasks(tasks, runId) || tasks[t].status.IsTerminal();
    }
  }

  method CancelTask(s: WorkStore, t: Id, reason: string, now: Time)
    requires t in s.tasks
    modifies s`tasks, s`events
    ensures if old(s.tasks[t]).status.CanTransitionTo(TaskCancelled) then
              && s.tasks == old(s.tasks)[t := Cancelled(old(s.tasks[t]), now)]
              && s.events == old(s.events) + [EvTaskCancelled(t, old(s.tasks[t]).workflowRunId, reason)]
            else s.tasks == old(s.tasks) && s.events == old(s.events)
  {
    if !s.tasks[t].status.CanTransitionTo(TaskCancelled) {
      return;
    }
    s.tasks := s.tasks[t := Cancelled(s.tasks[t], now)];
    s.Publish(EvTaskCancelled(t, s.tasks[t].workflowRunId, reason));
  }

  lemma CancelOne(before: map<Id, Task>, done: set<Id>, now: Time, order: seq<Id>, t: Id, runId: Id, reason: string)
    requires t in before && t !in done && Enumerates(order, done)
    ensures CancelSome(before, done, now)[t] == before[t]
    ensures before[t].status.IsTerminal() || before[t].status.CanTransitionTo(TaskCancelled)
    ensures CancelSome(before, done, now)[t := Cancelled(before[t], now)] == CancelSome(before, done + {t}, now)
    ensures Enumerates(order + [t], done + {t})
    ensures CancelEvents(order + [t], runId, reason) == CancelEvents(order, runId, reason)
            + [EvTaskCancelled(t, runId, reason)]
  {
  }

  method CascadeTaskCancellation(s: WorkStore, runId: Id, reason: string, now: Time) returns (ghost order: seq<Id>)
    requires s.Valid()
    modifies s`tasks, s`events
    ensures s.Valid()
    ensures s.tasks == CancelSome(old(s.tasks), CancellableTasks(old(s.tasks), runId), now)
    ensures Enumerates(order, CancellableTasks(old(s.tasks), runId))
    ensures s.events == old(s.events) + CancelEvents(order, runId, reason)
  {
    ghost var before, done: set<Id> := s.tasks, {};
    order := [];
    var rest := set t | t in s.tasks && s.tasks[t].workflowRunId == runId;
    while rest != {}
      invariant rest <= before.Keys && done <= before.Keys
      invariant forall t :: t in done <==> t in CancellableTasks(before, runId) && t !in rest
      invariant s.tasks == CancelSome(before, done, now)
      invariant Enumerates(order, done)
      invariant s.events == old(s.events) + CancelEvents(order, runId, reason)
      decreases rest
    {
      var t :| t in rest;
      rest := rest - {t};
      CancelOne(before, done, now, order, t, runId, reason);
      if !s.tasks[t].status.IsTerminal() {
        CancelTask(s, t, reason, now);
        order, done := order + [t], done + {t};
      }
    }
    assert done == CancellableTasks(before, runId);
  }

  function Cancelling(run: Run, reason: string, caller: string, deadline: Time, now: Time): Run {
    run.(status := RunCancelling, updatedAt := now, cancelledBy := caller, cancelReason := reason,
         cancellingUntil := deadline)
  }

  /** Only a run in progress can be cancelled.  A repeated cancel changes neither state nor envelope and publishes
      nothing. */
  method CancelWorkflowRun(s: WorkStore, id: Id, reason: string, caller: string, deadline: Time, now: Time)
    returns (r: Result<Run>, ghost order: seq<Id>)
    requires s.Valid()
    modifies s`runs, s`tasks, s`events, s`history
    ensures s.Valid()
    ensures id !in old(s.runs) ==> r == Err(ErrRunNotFound)
    ensures id in old(s.runs) ==>
              match old(s.runs[id]).status
              case RunCancelling => r == Ok(old(s.runs[id]))
              case RunInProgress =>
                && r == Ok(Cancelling(old(s.runs[id]), reason, caller, deadline, now))
                && s.runs == old(s.runs)[id := r.value]
                && s.tasks == CancelSome(old(s.tasks), CancellableTasks(old(s.tasks), id), now)
                && Enumerates(order, CancellableTasks(old(s.tasks), id))
                && s.events == old(s.events) + CancelEvents(order, id, reason) + [EvRunStatus(id, RunCancelling)]
              case _ => r == Err(ErrCannotCancelRun)
    // One task.cancelled for each unfinished task of the run, and for no other.
    ensures id in old(s.runs) && old(s.runs[id]).status == RunInProgress ==>
              var news := s.events[|old(s.events)|..];
              && EvRunStatus(id, RunCancelling) in news
              && forall t :: multiset(news)[EvTaskCancelled(t, id, reason)]
                             == (if t in old(s.tasks) && old(s.tasks)[t].workflowRunId == id
                                    && !old(s.tasks)[t].status.IsTerminal() then 1 else 0)
    ensures !(id in old(s.runs) && old(s.runs[id]).status == RunInProgress) ==>
              s.runs == old(s.runs) && s.tasks == old(s.tasks) && s.events == old(s.events)
    ensures s.history == Logged(old(s.runs), old(s.history), id, CancelAsked)
  {
    order := [];
    if id !in s.runs {
      return Err(ErrRunNotFound), order;
    }
    var run := s.runs[id];
    if run.status == RunCancelling {
      return Ok(run), order;
    }
    if run.status != RunInProgress {
      return Err(ErrCannotCancelRun), order;
    }
    run, order := CancelInProgress(s, id, reason, caller, deadline, now);
    CancelTells(old(s.events), old(s.tasks), order, id, reason);
    r := Ok(run);
  }

  lemma CancelTells(log: seq<Event>, tasks: map<Id, Task>, order: seq<Id>, id: Id, reason: string)
    requires Enumerates(order, CancellableTasks(tasks, id))
    ensures var news := (log + CancelEvents(order, id, reason) + [EvRunStatus(id, RunCancelling)])[|log|..];
            && EvRunStatus(id, RunCancelling) in news
            && forall t :: multiset(news)[EvTaskCancelled(t, id, reason)]
                           == (if t in tasks && tasks[t].workflowRunId == id && !tasks[t].status.IsTerminal() then 1
                               else 0)
  {
    var events, last := CancelEvents(order, id, reason), [EvRunStatus(id, RunCancelling)];
    assert (log + events + last)[|log|..] == events + last;
    forall t ensures multiset(events + last)[EvTaskCancelled(t, id, reason)]
                     == (if t in CancellableTasks(tasks, id) then 1 else 0)
    {
      CountOnce(order, CancellableTasks(tasks, id), events, x => EvTaskCancelled(x, id, reason), t);
      CountBoth(events, last, EvTaskCancelled(t, id, reason));
    }
  }

  /** The envelope, the cascade and the event. */
  method CancelInProgress(s: WorkStore, id: Id, reason: string, caller: string, deadline: Time, now: Time)
    returns (run: Run, ghost order: seq<Id>)
    requires s.Valid() && id in s.runs && s.runs[id].status == RunInProgress
    modifies s`runs, s`tasks, s`events, s`history
    ensures s.Valid() && run == Cancelling(old(s.runs[id]), reason, caller, deadline, now)
    ensures s.runs == old(s.runs)[id := run]
    ensures s.tasks == CancelSome(old(s.tasks), CancellableTasks(old(s.tasks), id), now)
    ensures Enumerates(order, CancellableTasks(old(s.tasks), id))
    ensures s.events == old(s.events) + CancelEvents(order, id, reason) + [EvRunStatus(id, RunCancelling)]
    ensures s.history == Logged(old(s.runs), old(s.history), id, CancelAsked)
  {
    run := MarkCancelling(s, id, reason, caller, deadline, now);
    order := CancelTasks(s, id, reason, now);
  }

  /** The cascade and the event. */
  method CancelTasks(s: WorkStore, id: Id, reason: string, now: Time) returns (ghost order: seq<Id>)
    requires s.Valid()
    modifies s`tasks, s`events
    ensures s.Valid()
    ensures s.tasks == CancelSome(old(s.tasks), CancellableTasks(old(s.tasks), id), now)
    ensures Enumerates(order, CancellableTasks(old(s.tasks), id))
    ensures s.events == old(s.events) + CancelEvents(order, id, reason) + [EvRunStatus(id, RunCancelling)]
  {
    order := CascadeTaskCancellation(s, id, reason, now);
    PublishRunStatus(s, id, RunCancelling);
  }

  method MarkCancelling(s: WorkStore, id: Id, reason: string, caller: string, deadline: Time, now: Time)
    returns (run: Run)
    requires s.Valid() && id in s.runs && s.runs[id].status == RunInProgress
    modifies s`runs, s`history
    ensures s.Valid() && run == Cancelling(old(s.runs[id]), reason, caller, deadline, now)
    ensures s.runs == old(s.runs)[id := run]
    ensures s.history == Logged(old(s.runs), old(s.history), id, CancelAsked)
  {
    run := Cancelling(s.runs[id], reason, caller, deadline, now);
    s.PutRun(id, run);
  }

  function CancelFinished(run: Run, now: Time): Run {
    run.(status := RunCancelled, updatedAt := now, completedAt := now)
  }

  /** The deferred half of a cancel; does nothing unless the run is still cancelling. */
  method FinalizeWorkflowRunCancellation(s: WorkStore, id: Id, now: Time) returns (r: Result<Run>)
    requires s.Valid()
    modifies s`runs, s`events, s`history
    ensures s.Valid()
    ensures id !in old(s.runs) ==> r == Err(ErrRunNotFound)
    ensures id in old(s.runs) ==>
              r == Ok(if old(s.runs[id]).status == RunCancelling then CancelFinished(old(s.runs[id]), now)
                      else old(s.runs[id]))
    ensures if id in old(s.runs) && old(s.runs[id]).status == RunCancelling then
              s.runs == old(s.runs)[id := r.value] && s.events == old(s.events) + [EvRunStatus(id, RunCancelled)]
            else s.runs == old(s.runs) && s.events == old(s.events)
    ensures s.history == Logged(old(s.runs), old(s.history), id, CancelFinalized)
  {
    if id !in s.runs {
      return Err(ErrRunNotFound);
    }
    var run := s.runs[id];
    if run.status != RunCancelling {
      return Ok(run);
    }
    run := CancelFinished(run, now);
    s.PutRun(id, run);
    PublishRunStatus(s, id, RunCancelled);
    return Ok(run);
  }

  /* ---- Timeouts ---- */

  /** The unfinished tasks of a run that the transition table lets fail. */
  function FailableTasks(tasks: map<Id, Task>, runId: Id): set<Id> {
    set t | t in tasks && Cancellable(tasks, runId, t) && tasks[t].status.CanTransitionTo(TaskFailed)
  }

  function FailedByTimeout(task: Task, now: Time): Task {
    Tasks.Merged(task, task.(status := TaskFailed), now)
  }

  function FailSome(tasks: map<Id, Task>, done: set<Id>, now: Time): map<Id, Task> {
    map t | t in tasks :: if t in done then FailedByTimeout(tasks[t], now) else tasks[t]
  }

  /** For each task, the events of its update and then a task.failed. */
  function TimeoutEvents(tasks: map<Id, Task>, order: seq<Id>, runId: Id, now: Time): seq<Event>
    requires forall t :: t in order ==> t in tasks
  {
    if order == [] then []
    else
      var last := order[|order| - 1];
      TimeoutEvents(tasks, order[..|order| - 1], runId, now)
      + TimeoutEventsOf(last, tasks[last], runId, now)
  }

  function TimeoutEventsOf(t: Id, task: Task, runId: Id, now: Time): seq<Event> {
    Tasks.UpdateEvents(t, task, FailedByTimeout(task, now)) + [EvTaskFailed(t, runId, "run_timeout")]
  }

  /** A timeout fails the run exactly when it is in progress or paused: the table refuses it for a pending, cancelling
      or rolling-back run, although those are not terminal. */
  lemma TimeoutTargets(status: RunStatus)
    ensures status.CanTransitionTo(RunFailed) <==> status == RunInProgress || status == RunPaused
    ensures !status.IsTerminal() && !status.CanTransitionTo(RunFailed)
            <==> status == RunPending || status == RunCancelling || status == RunRollingBack
    ensures Visits(status, TimedOut) == Visits(status, StatusSet(RunFailed))
  {
  }

  method HandleRunTimeout(s: WorkStore, id: Id, now: Time) returns (r: Result<()>, ghost order: seq<Id>)
    requires s.Valid()
    modifies s`runs, s`tasks, s`edges, s`events, s`history
    ensures s.Valid() && s.edges == old(s.edges)
    ensures r.Err? <==> id in old(s.runs) && old(s.runs[id]).status in {RunPending, RunCancelling, RunRollingBack}
    ensures if id in old(s.runs) && old(s.runs[id]).status in {RunInProgress, RunPaused} then
              var failing := FailableTasks(old(s.tasks), id);
              && s.runs == old(s.runs)[id := StatusWritten(old(s.runs[id]), RunFailed, "stale", now)]
              && s.tasks == FailSome(old(s.tasks), failing, now)
              && Enumerates(order, failing)
              && s.events == old(s.events) + [EvRunStatus(id, RunFailed)] + TimeoutEvents(old(s.tasks), order, id, now)
            else s.runs == old(s.runs) && s.tasks == old(s.tasks) && s.events == old(s.events)
    ensures s.history == Logged(old(s.runs), old(s.history), id, TimedOut)
    // Exactly the run's tasks in progress and split fail with it, one task.failed each.
    ensures id in old(s.runs) && old(s.runs[id]).status in {RunInProgress, RunPaused} ==>
              var news := s.events[|old(s.events)|..];
              && s.tasks.Keys == old(s.tasks).Keys
              && forall t :: t in s.tasks ==>
                   var was := old(s.tasks)[t];
                   var fails := was.workflowRunId == id && was.status in {TaskInProgress, TaskSplit};
                   && (if fails then s.tasks[t].status == TaskFailed else s.tasks[t] == was)
                   && multiset(news)[EvTaskFailed(t, id, "run_timeout")] == (if fails then 1 else 0)
  {
    order := [];
    if id !in s.runs {
      return Ok(()), order;
    }
    TimeoutTargets(s.runs[id].status);
    if s.runs[id].status.IsTerminal() {
      return Ok(()), order;
    }
    if !s.runs[id].status.CanTransitionTo(RunFailed) {
      return Err(ErrInvalidRunTransition), order;
    }
    var failed := MoveRun(s, id, RunFailed, "stale", now);
    order := FailRunTasks(s, id, now);
    TimeoutTells(old(s.events), old(s.tasks), order, id, now);
    r := Ok(());
  }

  lemma TimeoutTells(log: seq<Event>, tasks: map<Id, Task>, order: seq<Id>, id: Id, now: Time)
    requires Enumerates(order, FailableTasks(tasks, id))
    ensures var news := (log + [EvRunStatus(id, RunFailed)] + TimeoutEvents(tasks, order, id, now))[|log|..];
            var after := FailSome(tasks, FailableTasks(tasks, id), now);
            forall t :: t in tasks ==>
              var fails := tasks[t].workflowRunId == id && tasks[t].status in {TaskInProgress, TaskSplit};
              && (if fails then after[t].status == TaskFailed else after[t] == tasks[t])
              && multiset(news)[EvTaskFailed(t, id, "run_timeout")] == (if fails then 1 else 0)
  {
    forall t | t in tasks
      ensures var fails := tasks[t].workflowRunId == id && tasks[t].status in {TaskInProgress, TaskSplit};
              && (t in FailableTasks(tasks, id) <==> fails)
              && multiset((log + [EvRunStatus(id, RunFailed)] + TimeoutEvents(tasks, order, id, now))[|log|..])
                   [EvTaskFailed(t, id, "run_timeout")] == (if fails then 1 else 0)
    {
      TimeoutCounts(log, tasks, order, id, now, t);
      WhoFails(tasks, id, t);
    }
  }

  lemma WhoFails(tasks: map<Id, Task>, id: Id, t: Id)
    requires t in tasks
    ensures t in FailableTasks(tasks, id)
            <==> tasks[t].workflowRunId == id && tasks[t].status in {TaskInProgress, TaskSplit}
  {
  }

  lemma TimeoutCounts(log: seq<Event>, tasks: map<Id, Task>, order: seq<Id>, id: Id, now: Time, t: Id)
    requires Enumerates(order, FailableTasks(tasks, id)) && t in tasks
    ensures multiset((log + [EvRunStatus(id, RunFailed)] + TimeoutEvents(tasks, order, id, now))[|log|..])
              [EvTaskFailed(t, id, "run_timeout")] == if t in FailableTasks(tasks, id) then 1 else 0
  {
    assert t in order <==> t in FailableTasks(tasks, id);
    NewsCount(log, [EvRunStatus(id, RunFailed)], TimeoutEvents(tasks, order, id, now),
              EvTaskFailed(t, id, "run_timeout"));
    TimeoutsCount(tasks, order, id, now, t);
  }

  lemma {:induction false} TimeoutsCount(tasks: map<Id, Task>, order: seq<Id>, id: Id, now: Time, t: Id)
    requires NoRepeats(order) && forall x :: x in order ==> x in tasks
    ensures multiset(TimeoutEvents(tasks, order, id, now))[EvTaskFailed(t, id, "run_timeout")]
            == if t in order then 1 else 0
  {
    if order != [] {
      var rest, last := order[..|order| - 1], order[|order| - 1];
      assert order == rest + [last];
      TimeoutsCount(tasks, rest, id, now, t);
      CountBoth(TimeoutEvents(tasks, rest, id, now), TimeoutEventsOf(last, tasks[last], id, now),
                EvTaskFailed(t, id, "run_timeout"));
      TimeoutCount(last, tasks[last], id, now, t);
    }
  }

  lemma TimeoutCount(last: Id, task: Task, id: Id, now: Time, t: Id)
    ensures multiset(TimeoutEventsOf(last, task, id, now))[EvTaskFailed(t, id, "run_timeout")] == if t == last then 1
            else 0
  {
    var updates, e := Tasks.UpdateEvents(last, task, FailedByTimeout(task, now)), EvTaskFailed(t, id, "run_timeout");
    assert e !in updates;
    CountBoth(updates, [EvTaskFailed(last, id, "run_timeout")], e);
  }

  method FailTask(s: WorkStore, t: Id, runId: Id, now: Time) returns (failed: bool)
    requires s.HasIds() && t in s.tasks && s.tasks[t].status != TaskFailed
    modifies s`tasks, s`edges, s`events
    ensures s.HasIds() && s.edges == old(s.edges)
    ensures failed <==> old(s.tasks[t]).status.CanTransitionTo(TaskFailed)
    ensures if failed then
              && s.tasks == old(s.tasks)[t := FailedByTimeout(old(s.tasks[t]), now)]
              && s.events == old(s.events) + TimeoutEventsOf(t, old(s.tasks[t]), runId, now)
            else s.tasks == old(s.tasks) && s.events == old(s.events)
  {
    failed := Tasks.UpdateInPlace(s, t, s.tasks[t].(status := TaskFailed), now);
    if failed {
      s.Publish(EvTaskFailed(t, runId, "run_timeout"));
    }
  }

  method FailRunTasks(s: WorkStore, id: Id, now: Time) returns (ghost order: seq<Id>)
    requires s.Valid()
    modifies s`tasks, s`edges, s`events
    ensures s.Valid() && s.edges == old(s.edges)
    ensures s.tasks == FailSome(old(s.tasks), FailableTasks(old(s.tasks), id), now)
    ensures Enumerates(order, FailableTasks(old(s.tasks), id))
    ensures s.events == old(s.events) + TimeoutEvents(old(s.tasks), order, id, now)
  {
    ghost var before, done: set<Id> := s.tasks, {};
    order := [];
    var rest := set t | t in s.tasks && s.tasks[t].workflowRunId == id;
    while rest != {}
      invariant rest <= before.Keys && done <= before.Keys
      invariant forall t :: t in done <==> t in FailableTasks(before, id) && t !in rest
      invariant s.HasIds() && s.edges == old(s.edges)
      invariant s.tasks == FailSome(before, done, now)
      invariant Enumerates(order, done)
      invariant s.events == old(s.events) + TimeoutEvents(before, order, id, now)
      decreases rest
    {
      var t :| t in rest;
      rest := rest - {t};
      FailOne(before, done, now, order, t, id);
      if !s.tasks[t].status.IsTerminal() {
        var failed := FailTask(s, t, id, now);
        if failed {
          LogAssoc(old(s.events), TimeoutEvents(before, order, id, now), TimeoutEventsOf(t, before[t], id, now));
          order, done := order + [t], done + {t};
        }
      }
    }
    assert done == FailableTasks(before, id);
  }

  lemma FailOne(before: map<Id, Task>, done: set<Id>, now: Time, order: seq<Id>, t: Id, runId: Id)
    requires t in before && t !in done && Enumerates(order, done) && done <= before.Keys
    ensures FailSome(before, done, now)[t] == before[t]
    ensures FailSome(before, done, now)[t := FailedByTimeout(before[t], now)] == FailSome(before, done + {t}, now)
    ensures Enumerates(order + [t], done + {t})
    ensures TimeoutEvents(before, order + [t], runId, now)
            == TimeoutEvents(before, order, runId, now) + TimeoutEventsOf(t, before[t], runId, now)
  {
    assert (order + [t])[..|order|] == order;
  }
}
