# CodeValdWork: a verified model of the orchestration engine

CodeValdWork turns plans into work. A *workflow run* anchors *tasks*; an AI decomposition splits a task into *todos* that
depend on each other by ordinality; reports from agents settle todos, todos settle their task, and tasks settle their
run. This project models that engine in Dafny and proves what its handlers promise together.

Everything acts on one store, the class `WorkModel.WorkStore`: maps of tasks, todos, runs and agents, a set of labelled
edges, and the log of published events. The handlers are methods that change the store step by step. Each is proved to
compute a function (or to meet a predicate) of the old state, whole state and log included, and the theorems about
whole histories are proved about those functions.

| file | what it covers |
|---|---|
| `work_model.dfy` | entities, status tables, edges, the store, legal run histories |
| `tasks.dfy` | relationships, creating and updating tasks |
| `todo_graph.dfy` | the failure cascade and the release of dependents among the todos of a task |
| `decomposition.dfy` | which decomposition of a task counts |
| `todo_scheduler.dfy` | reports on todos, decompositions, the settlement of the parent task |
| `todo_runs.dfy` | runs of reports and decompositions, in any order, with any snapshots |
| `todo_safety.dfy` | what every event of a run keeps: ownership, dispatch safety, blocked todos on track |
| `todo_verdict.dfy` | exactly which decompositions are always judged rightly |
| `todo_settlement.dfy` | from a decomposition event to the end of the parent task, retries included |
| `todo_agents.dfy` | the same when agents report only on todos published to them |
| `split_rollup.dfy` | the roll-up of a split task from its children |
| `write_gate.dfy`, `write_tracker.dfy` | the gate that holds a completion until its files are written: as a value, and as the mutex-guarded object with timers |
| `run_lifecycle.dfy`, `run_traces.dfy` | run statuses, cancellation, timeouts; what any sequence of calls can do to a run |
| `run_record.dfy` | what the record of a run says after any calls: its reason, its times, who cancelled it |
| `rollback.dfy` | rolling a run back |
| `failure_budget.dfy` | the failure budget and the lineage of recovery runs |
| `agents.dfy` | finding, making and resolving agents |
| `task_gate.dfy`, `gate_history.dfy` | assign-or-block and the release of blocked tasks; over whole histories, who is left blocked for nothing |
| `run_anchors.dfy` | the run id on a task and its started_task edge, over whole histories |
| `terminal_event.dfy`, `run_closure.dfy`, `run_status.dfy` | what a run reaches and how events move it |
| `recovery.dfy`, `retry_ladder.dfy` | agent reports, the retry ladder, escalation |
| `directions.dfy` | directions given to a task, the skip among them, and the resumption of its run |
| `run_pause.dfy`, `run_floor.dfy` | pausing over whole histories: who can await direction in a run in progress, and when a paused run is stranded; what each operation does to such a history |
| `dispatch.dfy` | one delivery of task.failed: the ladder, then the run status handler |

## Results to start from

- `TodoSettlement.DecompositionNeverMisjudged`. The program counts a blocked todo as a failed one when it settles the
  parent task. For a decomposition of any task, after any history of reports and decompositions of any tasks, and however
  ordinalities collide, that is right after every later run with a report on it **if and only if** no proper part of it is
  *stuck*: a set of todos each of which has a dependency that nobody provides, or that a todo of the set provides, or that
  a todo of another decomposition provides. Runs have any order, any redelivery, any order of edges and any snapshot, and
  decompositions of other tasks in between. `TodoSettlement.ParentEndsTruly` carries the result to the parent, in every
  status; `TodoSettlement.GroundedDecompositionIsSound` gives the harmless case, and `TodoVerdict.CollisionIsUnsound` the
  harmful one: a retry with a dependency on an ordinality used before.
- `TodoAgents.AgentsJudgeTrulyExactlyIf`. When agents start and complete only what was published to them, while operators
  may fail anything, the exact condition is weaker: no *sealed* part, a stuck proper part whose providers outside it are all
  within reach of the agents (`TodoAgents.SoundIsNotNeeded` tells the two conditions apart).
- `TodoGraph.BlockDependentTodos`. The recursive cascade terminates on every graph and fails exactly the least set closed
  under "blocked and dependent", whatever the edge order.
- `WriteGate.GateConserves` and `WriteGate.FiresExactlyIf`. Each registration is released exactly once or held in
  exactly one live wait, at every step of every history. Any registration of any history has been released **if and only
  if** its run has been registered again or timed out since, or each of its non-blank paths is confirmed: after it if it
  replaced a live wait, whose callback it releases, and otherwise after it or in the buffer it found.
- `RunTraces.NoWayBack`. Every operation that writes a run states in its postcondition which statuses it appends to the
  run's history (`RunLifecycle.Logged`). Over any sequence of these calls histories only grow, and along the table: a run
  rolled back never changes, an open status is never re-entered, and there is one outcome at most.
- `RunPause.AlwaysCleanExactlyIf` and `RunPause.StrandedExactlyIf`. No task awaits direction in a run in progress, at any
  moment of any history, if and only if the run is never started with a task parked, no parked task joins it while it is in
  progress, and none of its tasks is then parked but by an escalation. `RunFloor.AssignmentExposesExactlyIf`,
  `RunFloor.UpdateExposesExactlyIf`, `RunFloor.UnblockingExposesExactlyIf` and `RunFloor.EscalationExposesExactlyIf` say
  exactly when one call breaks it. A run is left paused with nobody to wait for exactly when its last waiting task is moved
  by anything but a retry or a cancel, or leaves.
- `TaskGate.AssignTask`, `RunStatusHandler.HandleEvent`, `Tasks.UpdateTask`, `Rollback.RollbackWorkflowRun` and
  `RunClosure.GetWorkflowRunClosure` say in their postconditions, in terms of the stored edges, statuses and published
  events alone, exactly when a task is dispatched, a run started, completed or failed, an end announced, a rollback
  refused, an entity listed and where.
- `RunRecord.EnvelopeStays`, `RunRecord.ReasonIsLast` and `RunRecord.EndIsLast`. What is on record of a run after any calls:
  the envelope of its one cancel, the last reason that was given, the time at which it last ended.
- `Directions.SkipCompletesExactlyIf`. What the skip of a todo makes of its task, for every status of the task.
- `GateHistory.StalledExactlyIf` and `GateHistory.PlainlyStalledExactlyIf`. Over any history, a task is left blocked with
  nothing unmet exactly if its last unmet dependency failed or was cancelled, or completed when its assignee could not be
  found (or, in the general form, unheard, unlinked or blocked by hand), and nothing has freed it since.
- `FailureBudget.BudgetAdmitsTheFirst` and `FailureBudget.ChildKeepsRoots`. Wherever the budget B is set among the calls, the
  children let through are exactly the first ones, up to B or to as many as came before it; a recovery run keeps every root
  pointer right exactly when it points at the top of its parent's chain.
- `RunAnchors.AnchorsAgreeIfRunsExist` and `RunAnchors.CleanupUndoesNaming`. After any history the run id on a task and its
  started_task edge agree exactly if no task names a run that does not exist; rolling a run back undoes what it stamped.
- `Dispatcher.DispatchTaskFailed`. One task.failed both retries the task, or settles its todo, and fails the run it names.

## Assumptions

- Storage calls succeed and a publisher is present.
- Handlers of the manager and the dispatcher run as atomic steps. The program starts them in goroutines without a lock
  (`internal/server/event_receiver.go`, line 74), so this is an assumption. The write gate needs none: its critical
  sections are the steps, and a timer may run at any time, even after `Stop`.
- Timestamps are naturals, 0 meaning "not set". The program compares RFC 3339 UTC strings lexicographically, which orders
  them like the instants they name (section 5.1 of RFC 3339). The clock is a parameter, read once per handler.
- Fresh identifiers, generated run names and decoded payloads are parameters. "" is an unset identifier. An identifier
  names one entity. There is one agency.
- Writing an entity back merges properties: a field the program leaves out of the patch keeps its stored value (so a task's
  due date and completion time survive an update that has none).
- Sets of edges are visited in any order, chosen by `:|`; results that depend on the order are stated as such.

## Where the code and its documentation disagree

The model follows the code.

- `handleTaskFailureWithRetry` is said to let the caller mark the task failed when the budget is used up
  (`internal/server/event_dispatcher.go`, lines 286-287). It takes over every failure: `Recovery.HandleTaskFailureWithRetry`
  has `handled` in its postcondition.
- `HandleRunTimeout` is said to fail a run that is not terminal, and its unfinished tasks (`workflow_run_watchdog.go`, lines
  92-93). The table refuses it for pending, cancelling and rolling-back runs, and for pending, blocked and
  awaiting-direction tasks: `RunLifecycle.TimeoutTargets`, `RunLifecycle.HandleRunTimeout`.
- The table lets a paused run be cancelled (`models.go`, line 525); `CancelWorkflowRun` refuses.
- `AssignTask` is said to fail before it changes anything (`assignment.go`, lines 46-47). True of a mismatch; a run that does not
  exist has been written on the task by the time the link to it fails.
- `depends_on` is said to be informational only (`relationship.go`, line 74); it gates assignment.
- Rollback is said to delete tasks (`task.go`, lines 334 and 347); it resets them.
- `maybeResumeWorkflowRun` is said to wait for blocked tasks too (`internal/server/event_dispatcher.go`, line 961); it waits for
  awaiting-direction only.
- The skip direction is said to reopen the task so that its todos can settle it
  (`internal/server/event_dispatcher.go`, lines 908-909). The settlement runs first and is refused; a failed or parked
  task is then left in progress, even with every todo settled (`Directions.SkipCompletesExactlyIf`, and
  `Directions.SkipStrandsTask` for an input). The run is resumed only by a skip that finds no failed todo
  (`Directions.HandleTaskDirection`).
- The run is said to be paused while any task of it awaits direction (`models.go`, line 47). An escalation while the run is
  pending does not pause it (`RunPause.EarlyEscalationStays`); neither does a parked task that is assigned to a run in
  progress (`RunFloor.AssignmentExposesExactlyIf`), an update that parks a task or stamps a run on a parked one
  (`RunFloor.UpdateExposesExactlyIf`), or `UnblockTask` (`RunFloor.UnblockingExposesExactlyIf`).
- Falling back on the agent that a decomposition names, `resolveAgentForTask` writes it without a role
  (`internal/server/event_dispatcher.go`, line 1150, and `task_impl_converters.go`, lines 191-200), which blanks the role of
  an agent that has one: `Agents.Resolved`.
- The doc comment of `UpdateWorkflowRunStatus` (`workflow_run.go`, lines 296-298) lists four transitions; the table has fifteen.
- `latestDecomposition` dereferences nil when no todo has a creation time and none has an empty decomposition id:
  `Decomposition.LatestDecomposition` says exactly when. `CreateTaskTodo` always sets the time, so handlers never get there.

## Model

| member | source | states |
|---|---|---|
| `TodoSettlement.DecompositionNeverMisjudged` | internal/server/event_dispatcher.go:676-721 | a task is decomposed after any run of reports and decompositions of any tasks: from then on, until it is decomposed again, the decomposition is judged truly after every run with a report on it, if and only if no proper part of it is stuck |
| `TodoVerdict.JudgedTrulyExactlyIfSound` | internal/server/event_dispatcher.go:691-701 | the same from any safe state in which the decomposition is unstarted |
| `TodoVerdict.StuckIsMisjudged` | internal/server/event_dispatcher.go:696-697 | the failing runs: redelivered starts put older todos in progress, everything else in the group is completed, and the stuck part is still blocked; the verdict is failed with no failed todo |
| `TodoSafety.AnyRunJudgesTruly` | internal/server/event_dispatcher.go:594-644 | from any safe state, mid-way too, and with decompositions of any task in between, this one included: any run with a report on the group leaves a true verdict if no proper part of it is stuck by then |
| `TodoSafety.VerdictIsSound` | internal/server/event_dispatcher.go:691-715 | a board on track is judged truly, or the blocked todos of the group form a stuck set |
| `TodoVerdict.CollisionIsUnsound` | internal/server/event_dispatcher.go:732-742 | one dependency on an ordinality that an older todo of the task has makes a decomposition of two or more todos unsound |
| `TodoVerdict.GroundedIsSound` | internal/server/event_dispatcher.go:676-721 | if every dependency is provided, by the group only and without a cycle, nothing is stuck |
| `TodoSettlement.ParentEndsTruly` | internal/server/event_dispatcher.go:703-721 | for a parent in any status, after any run and one more report: one in progress or split is completed exactly when every todo of its newest decomposition is completed or skipped, failed exactly when all are settled and one really failed; every other status stays |
| `TodoSettlement.LastReportJudgesTruly` | internal/server/event_dispatcher.go:594-644 | a handler call made after any run, as the methods specify it, leaves the newest decomposition newest and judged truly |
| `TodoSettlement.SettledByVerdict` | internal/server/event_dispatcher.go:708-721 | where each verdict takes a parent in each of the eight statuses; no other task is touched |
| `TodoSettlement.LaterIsNewest` | internal/server/event_dispatcher.go:545-574 | a decomposition under a new id, created later than every older todo, is the one that counts |
| `TodoSettlement.GroundedDecompositionIsSound` | internal/server/event_dispatcher.go:1025-1110 | resolvable, acyclic decompositions that no older todo provides for are sound, publish each todo at most once, and every blocked todo waits through blocked ones for a live one |
| `TodoVerdict.BlockedAlwaysWaitForLive` | internal/server/event_dispatcher.go:594-644 | after any run each blocked todo of a grounded decomposition heads a chain of blocked dependencies that ends in a pending or dispatched todo |
| `TodoSettlement.DecompositionStartsSafe` | internal/server/event_dispatcher.go:1025-1110 | the todos of a decomposition start in the invariant that every later result assumes, next to whatever todos there were |
| `TodoRuns.CreationIsStep` | internal/server/event_dispatcher.go:1051-1109 | what the decomposition handler writes and publishes, its log included, is one step of those runs |
| `TodoRuns.DecompositionAdds` | internal/server/event_dispatcher.go:1051-1109 | such a step adds the todos of the accepted items, blocked exactly if they have dependencies, attaches them to the parent if it exists, publishes each root once, and changes nothing else |
| `TodoSafety.RunIsSafe` | internal/server/event_dispatcher.go:594-644 | every reachable state keeps the invariant of a decomposition, whatever is reported and decomposed in between: its todos are the task's own, none is published twice, blocked ones are on track |
| `TodoSafety.RunIsTidy` | internal/server/event_dispatcher.go:1025-1110 | for every task, from a store without todos on: over any run of reports and decompositions its todos stay its own and each is published once at most, no blocked one at all |
| `TodoSafety.EmptyIsTidy` | internal/server/event_dispatcher.go:1025-1110 | a store without todos is where such runs can start |
| `TodoSafety.RunKeepsSound` | internal/server/event_dispatcher.go:676-721 | whether a part is stuck depends on the plan and not on what has happened to it |
| `TodoRuns.ReportedStaysUnblocked` | internal/server/event_dispatcher.go:594-644 | over any run, a todo that has had a report is never blocked again |
| `TodoSafety.StepKeepsSafe` | internal/server/event_dispatcher.go:594-644 | one report on any task, or one decomposition of any task, keeps the invariant |
| `TodoSafety.ReportKeepsOnTrack` | internal/server/event_dispatcher.go:634-643 | after any report a blocked todo has no failed dependency in its group and one that is not certainly satisfied |
| `TodoSafety.FailureLeavesWaiting` | internal/server/event_dispatcher.go:779-803 | a todo the failure cascade has spared depends on nothing failed |
| `TodoSafety.CompletionLeavesWaiting` | internal/server/event_dispatcher.go:725-775 | a todo a completion has not released still has a dependency that is not certainly satisfied, whatever the snapshot |
| `TodoSafety.StepPublishesReady` | internal/server/event_dispatcher.go:725-775 | an event publishes blocked and new todos only, once each, with every dependency provided by a completed or skipped todo |
| `TodoRuns.HandlersComputeAfterReport` | internal/server/event_dispatcher.go:594-644 | with unique ordinalities the handlers compute one function of the board, whatever order they visit edges and siblings in |
| `TodoRuns.HandlerIsStep` | internal/server/event_dispatcher.go:594-644 | a handler call, seen through board and event log, is one step of the runs the theorems speak of |
| `TodoRuns.SettlementDispatchesNothing` | internal/server/event_dispatcher.go:703-721 | settling the parent publishes no todo |
| `TodoSafety.OtherTaskUntouched` | internal/server/event_dispatcher.go:594-644 | a report on one task's todo changes no todo of another task |
| `TodoAgents.AgentsJudgeTrulyExactlyIf` | internal/server/event_dispatcher.go:676-721 | agents start and complete only what was published, operators may fail any todo, failed todos may be skipped: a freshly made decomposition whose dependencies have one provider each, of its own, is judged truly after every such run if and only if it has no sealed part |
| `TodoAgents.AgentsJudgeDecompositionTruly` | internal/server/event_dispatcher.go:1025-1110 | the same for the decompositions the handler makes, after any run: no dependency provided by two of the items or by an older todo |
| `TodoAgents.MisjudgedIsSealed` | internal/server/event_dispatcher.go:691-715 | a wrong verdict after such a run leaves a sealed part blocked |
| `TodoAgents.SealedIsMisjudged` | internal/server/event_dispatcher.go:580-591 | the failing runs: agents complete everything within reach, an operator fails the rest but for the sealed part, and no cascade gets into it |
| `TodoAgents.CompleteGrounded` | internal/server/event_dispatcher.go:725-775 | agents alone can complete every todo that is in no stuck part, and no other |
| `TodoAgents.RunStaysUnreached` | internal/server/event_dispatcher.go:725-803 | over any such run no todo of a stuck part is published, and a blocked todo's dependencies in stuck parts stay blocked with it |
| `TodoAgents.SoundIsNotNeeded` | internal/server/event_dispatcher.go:691-701 | an input that tells the two conditions apart: a stuck part that no such run exposes |
| `TodoGraph.BlockDependentTodos` | internal/server/event_dispatcher.go:779-803 | terminates on any dependency graph (fewer blocked todos at each level) and fails exactly the cascade of the ordinality, no other todo |
| `TodoGraph.CascadeIsLeast` | internal/server/event_dispatcher.go:777-803 | the cascade is the least set closed under "blocked and dependent on the ordinality or on a member" |
| `TodoGraph.CascadeTurn` | internal/server/event_dispatcher.go:785-802 | failing one dependent and everything below it leads from one stage of the edge-by-edge cascade to the next |
| `TodoGraph.UnblockDependentTodos` | internal/server/event_dispatcher.go:725-775 | releases, once each, exactly the blocked todos that name the ordinality and are satisfied in the status snapshot, though statuses change meanwhile |
| `TodoGraph.SnapshotIrrelevant` | internal/server/event_dispatcher.go:732-742 | with unique ordinalities every snapshot releases the same todos: those whose dependencies are all completed or skipped |
| `TodoGraph.SnapshotMattersIfAmbiguous` | internal/server/event_dispatcher.go:732-742 | with colliding ordinalities the order of the edges decides who is released if and only if some blocked dependent has each dependency satisfied by one todo while another todo of the same ordinality is not |
| `TodoGraph.TakeSnapshot` | internal/server/event_dispatcher.go:732-742 | the map built holds some sibling's status for each ordinality in use, and the siblings that exist |
| `TodoGraph.DispatchTaskTodo` | todo.go:45-78 | publishes an existing todo once, moving it from blocked to pending and from no other status |
| `Decomposition.LatestDecomposition` | internal/server/event_dispatcher.go:545-574 | in any map order: the order-preserved members of one decomposition that has a todo of maximal creation time; and exactly when the nil dereference happens |
| `Decomposition.GroupMembers` | internal/server/event_dispatcher.go:553-564 | a group holds the todos of its decomposition, all of them and no others |
| `Decomposition.GroupByKey` | internal/server/event_dispatcher.go:553-564 | one group for each decomposition in use, members in order, with the latest of their creation times |
| `TodoScheduler.UpdateTodoStatus` | internal/server/event_dispatcher.go:594-644 | the report's status, its cascade or release, the parent's settlement and the events of all three in order; nothing for an unknown todo |
| `TodoScheduler.SkipTodo` | internal/server/event_dispatcher.go:808-830 | as a completion, with the skipped status; an error and no change for an unknown todo |
| `TodoScheduler.FailTodoWithCascade` | internal/server/event_dispatcher.go:580-591 | as a failure report, without a todo.completed event |
| `TodoScheduler.MaybeCompleteParentTask` | internal/server/event_dispatcher.go:676-721 | settles the parent from the latest decomposition only, by the verdict, if the table allows it; its task.completed is published, once, exactly if its status changed; does nothing if a todo is missing |
| `TodoScheduler.SettlementTells` | internal/server/event_dispatcher.go:703-721 | a settlement announces the parent's end once, with the status reached and the parent's run, exactly if the verdict ended it, and publishes nothing about any other task |
| `TodoScheduler.SettlementMoves` | internal/server/event_dispatcher.go:708-721 | which parents a verdict ends, and how |
| `TodoScheduler.Judge` | internal/server/event_dispatcher.go:691-701 | open exactly if a todo is neither settled nor blocked, a success exactly if each is completed or skipped |
| `TodoScheduler.SomeGroup` | internal/server/event_dispatcher.go:682-690 | judging the entities of the winning group is judging the todos of the latest decomposition among the task's edges |
| `TodoScheduler.HandleTodoCreated` | internal/server/event_dispatcher.go:1025-1110 | the agent resolved or made; item by item, a todo exactly if the item is acceptable, with its fields, blocked exactly if it has dependencies, linked to the parent if that exists and to the agent if there is one, with the links announced; then each root published once, in order, and no other todo; the run id is the event's, or else the parent's |
| `TodoScheduler.BoardTells` | internal/server/event_dispatcher.go:1044-1066 | the todo made of each item, field by field, and that no other todo is made or changed |
| `TodoScheduler.EdgesTell` | internal/server/event_dispatcher.go:1072-1091 | the edges made: from an existing parent to each todo made, and from it to an agent that exists |
| `TodoScheduler.LogTells` | internal/server/event_dispatcher.go:1095-1109 | a new todo is published once if it is acceptable and has no dependencies, and otherwise not at all |
| `TodoScheduler.CreateTodo` | todo.go:17-40 | the entity of one item and its edges, with their events |
| `WriteGate.GateConserves` | internal/server/event_writes.go:55-160 | at every step of every history the registrations are those released, each once, and those held, each in one live wait; live waits miss a path; no run has both a live wait and an early buffer |
| `WriteGate.StepKeepsInv` | internal/server/event_writes.go:62-160 | each critical section keeps that invariant |
| `WriteGate.TimersAreExact` | internal/server/event_writes.go:101-109 | the timer of a completed, replaced or expired wait does nothing; the timer of a live wait releases exactly that wait |
| `WriteGate.AllTimersDrain` | internal/server/event_writes.go:101-160 | once the timers of all live waits have run, in any order and among any others, every callback has run exactly once and nothing is held |
| `WriteGate.FiresExactlyIf` | internal/server/event_writes.go:62-141 | for every registration of every history: its callback has run exactly if the run was registered again or its timer ran since, or each non-blank path was confirmed after it, or in the buffer it found; a registration that replaces a live wait finds none and waits for its own paths |
| `WriteGate.ReplacedIsReleased` | internal/server/event_writes.go:70-75 | a registration releases the live wait it replaces, at that moment and not by a later confirmation |
| `WriteGate.LiveHasNoBuffer` | internal/server/event_writes.go:79-90 | whatever the history, a run with a live wait has nothing in its buffer, so confirmations from before a replacing registration do not count for it |
| `WriteGate.FiresWhenComplete` | internal/server/event_writes.go:79-141 | the special case of one registration and no timeout: at every moment the callback has run exactly if the gate is registered and all non-blank paths are confirmed, in any interleaving |
| `WriteGate.ViewOther` | internal/server/event_writes.go:62-141 | events of other runs are invisible to a run |
| `WriteTracking.WriteTracker.WaitForWrites` | internal/server/event_writes.go:62-112 | on wait objects with identity, computes the registration step: at once for nothing to wait for; otherwise a live wait of the same run is released first and the new registration waits for its own unconfirmed paths |
| `WriteTracking.WriteTracker.OnFileWritten` | internal/server/event_writes.go:116-141 | computes the confirmation step, buffering early arrivals |
| `WriteTracking.WriteTracker.TimerExpired` | internal/server/event_writes.go:101-109 | for any wait ever created, computes the expiry of that registration and of no later wait of the same run |
| `WriteTracking.WriteTracker.FireLocked` | internal/server/event_writes.go:145-160 | releases the live wait of a run once and retires it |
| `WriteTracking.WriteTracker.Unconfirmed` | internal/server/event_writes.go:79-90 | what remains are the non-blank paths not confirmed early |
| `RunTraces.NoWayBack` | workflow_run.go:299-330 | between any two moments of any sequence of calls: a run rolled back has not changed, a run past its open statuses has not been in one since, a run that completed, failed or was cancelled has had no such outcome again |
| `RunTraces.TracesGrowLegally` | models.go:533-557 | over any sequence of calls on any runs, histories only grow, and along the table |
| `RunTraces.LoggedIsStep` | workflow_run.go:304-308 | what each operation promises about the histories is one step of those sequences, and the stored status is the last one visited |
| `RunTraces.RollbackIsFinal` | workflow_run_rollback.go:27-72 | a rollback with nothing in its way succeeds exactly from failed, completed, cancelled and rollback_failed, and then no call changes the run |
| `RunRecord.EnvelopeStays` | workflow_run_cancel.go:43-56 | over any calls: who cancelled a run, why and until when stays as the one accepted cancel said, the run is not open again, and no later cancel is accepted |
| `RunRecord.NoCancelNoEnvelope` | workflow_run_cancel.go:43-56 | without an accepted cancel there is none |
| `RunRecord.ReasonIsLast` | workflow_run.go:318-322 | over any calls the failure reason is the last one that an accepted status change gave |
| `RunRecord.ReasonStays` | workflow_run.go:318-322 | if none was given, the one from before |
| `RunRecord.StartStays` | workflow_run.go:310-312 | over any calls a start once recorded stays |
| `RunRecord.FirstStart` | workflow_run.go:310-312 | a run without one gets it from the accepted change to in_progress and from no other call |
| `RunRecord.EndIsLast` | workflow_run.go:313-316 | over any calls the end is the time of the last call that completed, failed, rolled back or finalised the run |
| `RunRecord.EndStays` | workflow_run.go:313-316 | if none did, the one from before |
| `RunRecord.MoveIsStamped` | workflow_run.go:308-309 | whatever moves the run stamps it with its own time |
| `RunRecord.IdentityStays` | workflow_run.go:299-330 | no call changes its name, terminal event, creation time or parent |
| `RunLifecycle.HistoryShape` | models.go:533-557 | what the table alone implies for a legal sequence of statuses: rolled_back last, no return to an open status, one outcome at most, a rollback only after an outcome |
| `RunLifecycle.EveryRunHasAShape` | models.go:533-557 | the histories that a valid store keeps have that shape; that they are the true ones is what the operations promise |
| `RunLifecycle.NoDeadEnd` | models.go:533-557 | every history can be continued to rolled_back |
| `WorkModel.WorkStore.PutRun` | workflow_run.go:322-326 | writes a run back; a status moves along the table and is appended to the run's history |
| `RunLifecycle.CreateWorkflowRun` | workflow_run.go:35-71 | refuses untrimmed and taken names, and keeps names unique |
| `RunLifecycle.UpdateWorkflowRunStatus` | workflow_run.go:299-388 | moves along table edges only, stamps start and end times, keeps an old failure reason if none is given, publishes the run event; appends exactly that status to the history; a refusal changes nothing |
| `RunLifecycle.CancelWorkflowRun` | workflow_run_cancel.go:27-68 | from in_progress writes the envelope and cancels exactly the unfinished tasks that carry the run id, one event with the reason each, however many tasks; repeated, changes and publishes nothing; refused otherwise |
| `RunLifecycle.CascadeSettlesRun` | workflow_run_cancel.go:105-128 | after the cascade every task of the run is terminal, exactly the unfinished ones changed, and a second cascade finds nothing; the table never holds one back |
| `RunLifecycle.CascadeTaskCancellation` | workflow_run_cancel.go:105-149 | the loop cancels exactly those tasks, in any order, with one event each |
| `RunLifecycle.FinalizeWorkflowRunCancellation` | workflow_run_cancel.go:73-100 | ends a cancelling run as cancelled, once; anything else is returned as it is |
| `RunLifecycle.HandleRunTimeout` | workflow_run_watchdog.go:94-133 | fails an in_progress or paused run, with the reason, and exactly its tasks in progress or split, with one task.failed for each of these and none for any other task; an error for pending, cancelling and rolling-back runs; nothing for the rest |
| `RunLifecycle.CancelTells` | workflow_run_cancel.go:105-149 | among the events of a cancellation there is one task.cancelled, with run and reason, for each unfinished task of the run and none for any other |
| `RunLifecycle.TimeoutTells` | workflow_run_watchdog.go:94-133 | which tasks a timeout fails, in terms of run id and status, and that task.failed is published for these, once each |
| `RunLifecycle.TimeoutTargets` | models.go:533-569 | the statuses that are not terminal and yet cannot fail |
| `Rollback.RollbackWorkflowRun` | workflow_run_rollback.go:27-72 | lets in exactly failed, completed, cancelled and rollback_failed runs; one let in is refused if and only if some depends_on edge leads from a live task of another run to a live task of its own, and then ends rollback_failed with tasks, todos and edges as they were; otherwise it ends rolled_back and cleaned up, with one event for each task reset; the history gets exactly the two statuses |
| `Rollback.DeleteWorkflowRunArtifacts` | workflow_run_rollback.go:76-147 | all or nothing: the whole cleanup, one event for each task, or an error and no change |
| `Rollback.FindForeignDependency` | workflow_run_rollback.go:86-106 | finds one exactly if a live task of another run depends on a task of this one |
| `Rollback.ForeignExactlyIf` | workflow_run_rollback.go:86-106 | the check in terms of edges: some depends_on edge goes from a live task with another non-empty run id to a live task of this run |
| `Rollback.RollbackTells` | workflow_run_rollback.go:27-72 | both outcomes of a rollback, status and reason included, in terms of the edges and tasks there were; no live task of another run depended on a task that is reset |
| `Rollback.RollbackAnnounces` | workflow_run_rollback.go:108-132 | among its events there is one task.rolled_back, with the run, for each task reset and none for any other |
| `Rollback.CleanupFootprint` | workflow_run_rollback.go:108-146 | nothing live carries the run id and no anchor reaches a reset task; a reset task is pending, without run and end, and keeps all other fields; all other tasks, todos and edges are untouched |
| `Rollback.CleanupOnce` | workflow_run_rollback.go:149-166 | cleaning up twice is cleaning up once, and nothing stands in the way of the second time |
| `Rollback.RemoveStartedTaskEdges` | workflow_run_rollback.go:151-166 | removes every anchor of the task and no other edge |
| `Rollback.DeleteEntityEdges` | workflow_run_rollback.go:170-178 | removes every edge at the entity and no other edge |
| `Rollback.DeleteTodos` | workflow_run_rollback.go:134-144 | deletes exactly the run's todos, with their edges |
| `FailureBudget.BudgetAdmitsTheFirst` | workflow_run_failure_budget.go:54-109 | over any calls, cancels and finalisations among them, and wherever a budget is set: the children ever told "not exhausted" are exactly the first ones, as many as were reported before a positive budget was in place, or up to the budget if that is more |
| `FailureBudget.BudgetFromTheStart` | workflow_run_failure_budget.go:54-109 | with a positive budget B in place from the start those are the first B distinct children |
| `FailureBudget.CounterCountsDistinctChildren` | workflow_run_failure_budget.go:65-97 | over any calls that write the run, the counter is the number of distinct children, listed without repeats, and a budget once set stays |
| `FailureBudget.FirstReportsAreTheChildren` | workflow_run_failure_budget.go:74-83 | the list counted has every reported child, once |
| `FailureBudget.SetFailureBudget` | workflow_run_failure_budget.go:29-52 | sets a root run's budget if it is 0 and its root pointer to itself; three refusals |
| `FailureBudget.IncrementFailureBudget` | workflow_run_failure_budget.go:65-97 | counts a child once and reports the counter, the budget and whether it is exceeded; two refusals |
| `FailureBudget.ChildKeepsRoots` | workflow_run_failure_budget.go:118-147 | a new child keeps all root pointers right if and only if its parent exists and it points at the top of the parent's chain |
| `FailureBudget.RootIsAccepted` | workflow_run_failure_budget.go:152-157 | the resolved root of any run is the top of its parent chain and a run the counter accepts |
| `FailureBudget.CallKeepsRoots` | workflow_run_failure_budget.go:29-97 | setting a budget, counting, changing status, cancelling and finalising keep all root pointers right |
| `FailureBudget.TopIsStable` | workflow_run_failure_budget.go:118-147 | the top of a chain never changes as runs are added |
| `FailureBudget.CreateRecoveryWorkflowRun` | workflow_run_failure_budget.go:118-147 | the child, or the refusal, in the order the code checks; left to choose the root itself it keeps all root pointers right |
| `TaskGate.AssignTask` | assignment.go:32-122 | accepted exactly if task, agent and run allow it; one assignee, the run stamped and linked on a task that has none; task.assigned is published, once, for this task, agent and run, if and only if every dependency exists and is terminal; the change to blocked, once, if and only if the task became blocked; a mismatch changes nothing, a missing run leaves its id behind |
| `TaskGate.GateTells` | assignment.go:94-121 | what the gate announces: the dispatch exactly if nothing is unmet, the change to blocked exactly if the task has become blocked, and no other event of either kind |
| `TaskGate.UnmetTells` | assignment.go:150-172 | nothing is unmet exactly if every target of a depends_on edge exists and is terminal |
| `TaskGate.StampKeepsAnchors` | assignment.go:46-65 | stamping keeps field and edge in agreement if and only if the run exists (or nothing is stamped) |
| `TaskGate.FindUnmetDependencies` | assignment.go:150-169 | exactly the dependencies that are missing or unfinished |
| `Agents.GetAgent` | agent.go:38-72 | found exactly if the key is an agent's id, or names no entity and is some agent's slug |
| `Agents.UpsertAgent` | agent.go:15-30 | the agent with that slug is overwritten, role and all, or made if there is none; refused without a slug |
| `Agents.UpsertKeepsSlugs` | agent.go:15-30 | slugs stay a key, no agent is lost, and the slug leads to that agent alone |
| `Agents.ResolveAgent` | internal/server/event_dispatcher.go:1136-1157 | an assignee of the task that can be found, or else the agent the event names, made if need be; none if it names none |
| `Agents.ResolvedTells` | internal/server/event_dispatcher.go:1139-1156 | who is chosen, when an agent is made, and when there is nobody |
| `TaskGate.ReassignKeepsOneAssignee` | assignment.go:67-87 | after an assignment the task has exactly that assignee, and no other task gets a second one |
| `TaskGate.UnblockDependents` | assignment_unblock.go:20-32 | pointwise release in one pass: exactly the dependents that are blocked with nothing unmet and a findable assignee become pending; one dispatch for each, to an assignee of it, and none for any other task; nothing let go has a dependency unmet, then or afterwards |
| `TaskGate.ReleaseTells` | assignment_unblock.go:70-86 | each task let go has one change of status and one dispatch among the events |
| `TaskGate.OneAssigneeResolves` | assignment_unblock.go:64-69 | with one assignee for each task at most, who is let go does not depend on the edge found first |
| `TaskGate.MaybeUnblockDependent` | assignment_unblock.go:38-89 | lets one dependent go only if it may, and always if every assignee it has can be found |
| `TaskGate.UnblockTask` | assignment_unblock.go:97-116 | parks a task that may await direction, with the note in its description; refused otherwise; no run is looked at |
| `TaskGate.UnassignTask` | assignment.go:194-211 | takes every assignee off the task and no other edge |
| `TaskGate.OpeningKeepsUnmet` | assignment_unblock.go:38-54 | letting tasks go changes nobody's unmet dependencies, so one pass is enough |
| `TaskGate.SecondUnblockIsIdle` | assignment_unblock.go:10-32 | a second call finds nothing to let go |
| `GateHistory.StalledExactlyIf` | assignment_unblock.go:10-89 | over any tasks made, deleted, assigned, unassigned, linked, moved, completed and released: a task is left blocked with nothing unmet if and only if it was so from the start, or some event took its last unmet dependency away without letting it go, or blocked it for nothing, and nothing has freed it since |
| `GateHistory.PlainlyStalledExactlyIf` | internal/server/event_dispatcher.go:165-178 | with every completion heard, nothing blocked by hand and no dependency unlinked: if and only if its last unmet dependency failed or was cancelled, or completed when its assignee could not be found, and nothing has freed it since |
| `GateHistory.StepStalls` | assignment.go:90-122 | one event: exactly which tasks it stalls and which it frees, a failed dependency that is assigned again and becomes blocked among the causes |
| `GateHistory.AssignmentIsEvent` | assignment.go:32-122 | AssignTask is that event of the history |
| `GateHistory.ReleaseIsEvent` | assignment_unblock.go:20-89 | so is UnblockDependents, for tasks with one assignee each |
| `GateHistory.CompletionIsEvent` | internal/server/event_dispatcher.go:159-186 | so is an update that completes a task together with the release that the dispatcher runs when it hears of it |
| `GateHistory.UpdateIsEvent` | task_impl_task.go:91-162 | so is any other accepted update |
| `GateHistory.TasksMoved` | workflow_run_cancel.go:105-149 | cancel cascades, timeouts, settlements and rollbacks are lists of status changes |
| `GateHistory.LinkIsEvent` | relationship.go:199-306 | so are depends_on edges made and deleted |
| `GateHistory.CreationIsEvent` | task_impl_task.go:29-65 | so is CreateTask |
| `GateHistory.DeletionIsEvent` | task_impl_task.go:164-177 | so is DeleteTask: whoever depends on the task has something unmet again |
| `GateHistory.UnassignmentIsEvent` | assignment.go:194-211 | so is UnassignTask |
| `GateHistory.FailureStalls` | internal/server/event_dispatcher.go:159-178 | the same last dependency leaves a task stalled if it fails and lets it go if it completes |
| `RunAnchors.LinksAreExact` | task_impl_task.go:23-65 | over any history of runs and tasks created, tasks deleted, runs named by assignments, run ids stamped or kept by updates, and runs cleaned up: an edge leads from a run to a live task exactly if the task carries the id of that run and the run exists |
| `RunAnchors.AnchorsAgreeIfRunsExist` | assignment.go:46-65 | after any history field and edge agree on all tasks if and only if no task carries the id of a run that does not exist |
| `RunAnchors.RunIdSticks` | assignment.go:50-64 | no history replaces one run id by another; only a cleanup of that run takes it off a live task |
| `RunAnchors.CleanupUndoesNaming` | workflow_run_rollback.go:108-132 | naming any tasks for a run, in any order and repeatedly, and then cleaning the run up leaves every run id and every anchor as they were |
| `RunAnchors.CreateIsTaskMade` | task_impl_task.go:29-65 | CreateTask is that event of the history |
| `RunAnchors.UpdateIsRunWritten` | task_impl_task.go:125-132 | UpdateTask is that event, whatever run id its caller puts on the task |
| `RunAnchors.WriteKeepsExactly` | task_impl_task.go:127-132 | an update keeps links exact if and only if it keeps the run id, stamps a first one, or swaps one missing run for another |
| `RunAnchors.StampIsRunNamed` | assignment.go:46-65 | AssignTask is that event, also when the run is missing; a mismatch is an event without effect |
| `RunAnchors.GateIsSilent` | assignment.go:67-107 | the new assignee, the gate and the edges of todos leave the history alone |
| `RunAnchors.StatusChangesAreSilent` | workflow_run_cancel.go:105-149 | so do cancel cascade, timeout and the release of dependents |
| `RunAnchors.CleanupIsRunCleaned` | workflow_run_rollback.go:108-146 | the cleanup is that event; afterwards no anchor reaches a task it reset and the closure of the run has no task |
| `RunAnchors.DeleteIsTaskDeleted` | task_impl_task.go:164-177 | DeleteTask is that event; the edges of the task stay |
| `Tasks.CreateRelationship` | relationship.go:199-282 | for each of the twelve labels the kinds of both ends, with the error of the first check that fails; idempotent: a stored edge is neither stored nor published again |
| `Tasks.DeleteRelationship` | relationship.go:284-306 | takes away that edge and no other, or reports that there is none |
| `Tasks.DeleteTask` | task_impl_task.go:164-177 | takes away the task and leaves its edges; refused for a task that is not there |
| `Tasks.LinkTaskToRun` | workflow_run.go:146-159 | succeeds exactly if run and task exist |
| `Tasks.CreateTask` | task_impl_task.go:29-65 | a pending task with the default priority, the anchor if the run exists, and the event |
| `Tasks.UpdateTask` | task_impl_task.go:91-162 | refused exactly if the task is missing, the table has no such edge, or an unfinished task blocks a start, and then nothing changes; otherwise the merged task and the anchor when a run id is stamped; task.completed once if the status changed to a terminal one, the change of status once if it changed, task.updated once if one of the five fields did, and none of them otherwise |
| `Tasks.RefusalTells` | task_impl_task.go:92-105 | when each of the three refusals is given, in terms of statuses and blocks edges |
| `Tasks.UpdateTells` | task_impl_task.go:134-160 | how often an update announces an end, a change of status and a change of fields |
| `Tasks.MergeTells` | task_impl_task.go:107-117 | what is stored: the creation time stays, a due date, an estimate or an end once set stays unless a new one is given, and a task that ends has an end |
| `Tasks.FindActiveBlockers` | task_impl_task.go:308-327 | exactly the unfinished tasks that block the task |
| `Tasks.UpdateKeepsAnchors` | task_impl_task.go:127-132 | an update keeps field and edge in agreement if and only if it keeps the run id or stamps an existing run on a task that had none |
| `Tasks.CreationKeepsAnchors` | task_impl_task.go:52-58 | a new task is in agreement if and only if it names no run or an existing one |
| `RunClosure.GetWorkflowRunClosure` | workflow_run.go:182-293 | exactly the existing tasks at started_task edges, by creation time; exactly the existing todos at started_todo edges or at those tasks, by parent and ordinality; exactly the edges of the run and of its tasks; each once |
| `RunClosure.ClosureTells` | workflow_run.go:182-260 | what is listed, in terms of edges alone |
| `RunClosure.OrderTells` | workflow_run.go:262-289 | each entity once, tasks by creation time, todos by parent and then by ordinality |
| `RunClosure.LexLessTells` | workflow_run.go:284-289 | the order of parents is that of strings: the first difference decides, a proper prefix comes first |
| `RunClosure.TodoLessIsOrder` | workflow_run.go:284-289 | the comparison of todos is one that can be sorted by |
| `RunClosure.WalkTasks` | workflow_run.go:231-260 | the edges at the tasks, each once, and the todos they lead to |
| `RunStatusHandler.HandleEvent` | internal/server/run_status_handler.go:46-94 | a pending run starts exactly at task.assigned or pipeline.started; a run in progress fails exactly at a failure topic, or at task.completed that is not its terminal event with all tasks of its closure terminal, at least one, and one failed; it completes exactly if it does not fail by topic and its terminal event matches, or at task.completed with all of them terminal and none failed; no other run and no other status is touched |
| `RunStatusHandler.TargetsAreLegal` | internal/server/run_status_handler.go:62-86 | targets are table edges, so no event is refused; only pending and in_progress runs react; a run fails only by a failure event or with all its tasks terminal and one failed, and completes only by its terminal event or with all its tasks terminal and none failed |
| `RunStatusHandler.EventTells` | internal/server/run_status_handler.go:62-86 | exactly which events start, complete and fail a run, in terms of topic, payload, edges and task statuses |
| `RunStatusHandler.ReasonTells` | internal/server/run_status_handler.go:118-125 | the reason is the first of the four fields that is not empty, and empty only if all are |
| `RunStatusHandler.AllTasksTerminalStatus` | internal/server/run_status_handler.go:130-154 | a run can close exactly if its closure has tasks and all are terminal, as failed exactly if one failed |
| `TerminalEvent.PrintedConditionMatches` | internal/server/run_status_handler.go:165-188 | round trip: a condition printed from a topic and qualifiers matches exactly the events with its topic whose payload has each value named, missing and non-string fields counting as empty and a qualifier without "=" asking for nothing |
| `TerminalEvent.AnyCondition` | internal/server/run_status_handler.go:165-188 | every condition is a printed one, so the round trip speaks of all conditions but the empty one, which matches nothing |
| `TerminalEvent.SplitPrinted` | internal/server/run_status_handler.go:176-181 | splitting printed qualifiers gives them back one by one |
| `Directions.HandleTaskDirection` | internal/server/event_dispatcher.go:838-958 | every direction: task, todos and events; a paused run moves on exactly if no task of its closure awaits direction afterwards and the direction is an accepted retry or cancel, or a skip that found no failed todo |
| `Directions.DirectionTells` | internal/server/event_dispatcher.go:852-947 | what an accepted direction makes of the task: status, history, description and note |
| `Directions.DirectionAnnounces` | internal/server/event_dispatcher.go:869-942 | a retry announces one dispatch, to the assignee or nobody, a cancel one cancellation, each once, and no other direction either |
| `Directions.CancelRollsUp` | internal/server/event_dispatcher.go:944-946 | a cancelled child is rolled up to its split parent; no other direction touches another task |
| `Directions.MovesOnTells` | internal/server/event_dispatcher.go:916-957 | which directions go on to look at the run, for each status and direction |
| `Directions.SkipCompletesExactlyIf` | internal/server/event_dispatcher.go:892-917 | after any run of a sound decomposition, the skip as the handler specifies it completes its task exactly if the task already was completed, or was in progress or split and every todo is now completed or skipped; it never leaves the task failed |
| `Directions.SkipSettlesTheTask` | internal/server/event_dispatcher.go:808-830 | the settlement inside a skip is that of the directed task |
| `Directions.SkipOutcome` | internal/server/event_dispatcher.go:904-914 | the status a skip leaves, for each status before and each verdict |
| `Directions.SkipStrandsTask` | internal/server/event_dispatcher.go:908-914 | the input that defeats the comment: a parked task with one failed todo is left in progress with every todo skipped |
| `Directions.SkipByDirection` | internal/server/event_dispatcher.go:892-917 | skips one failed todo with the full cascade of a skip, then writes the task read before back as in progress, with all events; without a failed todo changes nothing and lets the run move on |
| `Directions.SkippedTells` | internal/server/event_dispatcher.go:899-907 | the todo skipped is a failed one of the task, and its end is published |
| `Directions.SkipTells` | internal/server/event_dispatcher.go:908-914 | the copy written back differs from the task read in status and direction history only |
| `Directions.MaybeResumeWorkflowRun` | internal/server/event_dispatcher.go:963-1006 | a paused run moves on exactly if no task it started awaits direction: to failed, with the reason, after a cancel, back to in_progress with run.resumed otherwise; any other run is left alone |
| `Directions.ResumptionTells` | internal/server/event_dispatcher.go:963-1006 | the same in terms of edges, statuses and events |
| `RunPause.InProgressWaiters` | internal/server/event_dispatcher.go:507-530 | over any escalations, directions, arrivals and departures of tasks, other status changes and run status changes: while the run is in progress its tasks awaiting direction are exactly those exposed, which waited when it was started, joined it waiting, or were parked in it otherwise than by an escalation, and have waited ever since |
| `RunPause.AlwaysCleanExactlyIf` | internal/server/event_dispatcher.go:507-530 | a run is never in progress with a task awaiting direction if and only if it is not so at first and no event exposes one |
| `RunPause.HarmlessKeepsClean` | internal/server/event_dispatcher.go:507-530 | no history without a start, a parked arrival or a parking but by escalation ever breaks that |
| `RunPause.EarlyEscalationStays` | internal/server/event_dispatcher.go:514-515 | a failing input: an escalation while the run is pending |
| `RunPause.ParkedTaskJoins` | assignment.go:46-65 | another: a parked task comes to a run in progress |
| `RunPause.StrandedExactlyIf` | internal/server/event_dispatcher.go:919-927 | a run is left paused with nobody awaiting direction exactly when its only waiting task is marked blocked, moved by anything but a retry or cancel, deleted or unlinked, or when it is paused while nobody in it waits |
| `RunPause.StrandedUntil` | internal/server/event_dispatcher.go:963-977 | which events end that state, and that no other does |
| `RunFloor.AssignmentIsEvent` | assignment.go:32-122 | what AssignTask does to the history of any run: an arrival, a change of status or nothing |
| `RunFloor.AssignmentExposesExactlyIf` | assignment.go:46-65 | an assignment leaves a task awaiting direction in a clean run in progress if and only if it stamps that run on a parked task with nothing unmet |
| `RunFloor.UpdateIsEvent` | task_impl_task.go:91-162 | the same for UpdateTask, with any status and run id |
| `RunFloor.UpdateExposesExactlyIf` | task_impl_task.go:91-162 | an update does if and only if it leaves the task parked in a run in progress, the one it stamps included |
| `RunFloor.UnblockingExposesExactlyIf` | assignment_unblock.go:97-116 | UnblockTask does if and only if the run is in progress and has the task |
| `RunFloor.EscalationIsEvent` | internal/server/event_dispatcher.go:436-531 | an escalation is an event of the run the task names and of any run with an anchor to it |
| `RunFloor.EscalationExposesExactlyIf` | internal/server/event_dispatcher.go:507-530 | an escalation does if and only if the run in progress has an anchor to the task and is not the run the task names |
| `RunFloor.CreationIsEvent` | task_impl_task.go:29-65 | CreateTask is the arrival of a pending task in the run it names |
| `RunFloor.NewRunIsEmpty` | workflow_run.go:35-71 | a new run starts its history pending and without tasks, and the other runs are as they were |
| `RunFloor.MissingRunIsNoEvent` | assignment.go:52-58 | an assignment refused for want of the run is no event of any run |
| `RunFloor.OtherEdgesAreNoEvent` | relationship.go:199-306 | nor are edges with other labels |
| `RunFloor.LinkIsEvent` | workflow_run.go:146-159 | LinkTaskToRun is an arrival with the task's status |
| `RunFloor.DepartureIsEvent` | task_impl_task.go:164-177 | DeleteTask and the deletion of an anchor are departures |
| `RunFloor.ReleaseIsRun` | assignment_unblock.go:20-89 | the release of dependents exposes nobody |
| `RunFloor.SettlementIsRun` | internal/server/event_dispatcher.go:703-721 | nor does the settlement of a task by its todos |
| `RunFloor.ReportIsRun` | internal/server/event_dispatcher.go:235-308 | nor does any agent report, with the settlements and roll-ups it leads to |
| `RunFloor.RunMoveIsEvent` | workflow_run.go:299-330 | a status written along the table is that event of the run and none of the others |
| `RunFloor.CancellationIsRun` | workflow_run_cancel.go:27-149 | nor does a cancellation with its cascade |
| `RunFloor.TimeoutIsRun` | workflow_run_watchdog.go:94-133 | nor does a timeout |
| `RunFloor.RollbackIsRun` | workflow_run_rollback.go:27-146 | nor does a rollback, on either outcome: its tasks leave every run |
| `RunFloor.EventIsRun` | internal/server/run_status_handler.go:46-94 | an event moves the run it names, so that only one that starts a run can expose a task |
| `RunFloor.DirectionIsRun` | internal/server/event_dispatcher.go:838-958 | a direction, as the handler specifies it and for any run, the skip of a todo and the roll-up of a cancelled child included, is a list of events that expose nobody |
| `Dispatcher.DispatchTaskFailed` | internal/server/event_dispatcher.go:111-141 | one task.failed: whatever the report does to the task or todo it names, tasks, todos and events, and then the run the event names fails, with its reason, exactly if it is in progress |
| `Dispatcher.EndTells` | internal/server/event_dispatcher.go:135-140 | the run named fails exactly if it is in progress; no other run is touched |
| `Dispatcher.FailureEndsTheRun` | internal/server/event_dispatcher.go:135-140 | after that no sequence of calls brings the run back to an open status |
| `SplitRollUp.MaybeCompleteSplitParent` | internal/server/split_handler.go:132-178 | a parent in progress or split ends exactly if it has children and each exists and is terminal: completed if each is completed, failed otherwise, a cancelled child counting as failed; its end is announced once; no other task is touched |
| `SplitRollUp.RolledUpTells` | internal/server/split_handler.go:132-178 | the status of the parent after a roll-up, in terms of subtask edges and the children's statuses |
| `RetryLadder.LadderCountsFailures` | internal/server/event_dispatcher.go:318-382 | over any failures, classifications, directions and other status updates the n-th failure leaves n charged and publishes one note: a new attempt for the first two, a request to classify from then on |
| `RetryLadder.LadderKeepsStatus` | internal/server/event_dispatcher.go:318-325 | failures and transient classifications never move the task |
| `RetryLadder.MovedIsUpdateTask` | task_impl_task.go:91-113 | the updates in those sequences are what UpdateTask does in the store |
| `Recovery.ChargingIsQuiet` | internal/server/event_dispatcher.go:318-325 | charging a failure changes neither status nor run and announces nothing |
| `Recovery.HandleTaskFailureWithRetry` | internal/server/event_dispatcher.go:318-382 | always takes the failure over: charges it and publishes exactly the ladder's event |
| `Recovery.ApplyAgentReport` | internal/server/event_dispatcher.go:235-308 | routes a report to task or todo; a task that has todos, or is said to have subtasks, is left to them; a failure goes to the ladder and nothing else; otherwise the task moves to the status reported if the table allows it and nothing blocks it, its end is announced once, and a completion is rolled up to the split parent |
| `Recovery.ReportTells` | internal/server/event_dispatcher.go:257-295 | when a report is left to the todos, and when the move it asks for is accepted |
| `Recovery.MoveTells` | internal/server/event_dispatcher.go:290-295 | a reported move announces the end of its task once, exactly if it ends it |
| `Recovery.CompletionRollsUp` | internal/server/event_dispatcher.go:303-307 | the completion of the last unfinished child settles the split parent |
| `Recovery.AttemptsGoToTheAssignee` | internal/server/event_dispatcher.go:327-353 | after an assignment the next attempts go to that agent |
| `Recovery.EscalateToHumanDirection` | internal/server/event_dispatcher.go:436-531 | parks the task exactly if it is in progress, blocked or parked already; then asks for direction once, and pauses the run it names, with one event, exactly if that is in progress; otherwise nothing |
| `Recovery.EscalationTells` | internal/server/event_dispatcher.go:436-530 | when an escalation is accepted, and which run it pauses |
| `Recovery.EscalationAnnounces` | internal/server/event_dispatcher.go:494-530 | what it announces, and how often |
| `Recovery.HandleTaskFailureClassified` | internal/server/event_dispatcher.go:388-430 | transient: one more attempt, no charge; anything else: escalation |

## Left out

- Import jobs (`import.go`): the worker and the cancel goroutine may overwrite each other's outcome.
- The handler that splits a task into children (`internal/server/split_handler.go`): the roll-up is one level and children with dependencies are not dispatched again.
- gRPC handlers, conversions, the ArangoDB backend, JSON, logging, contexts: no state of their own.
- Projects, tags, deliverables, acceptance criteria and the reviewer: create, read, update and delete; they are in the model only as ends of edges.
- HandleTaskTimeout, LinkTodoToRun and the list queries: easy members.
- has_todo and assigned_to edges made or deleted by hand through CreateRelationship and DeleteRelationship: histories of todos have the edges the handlers make, and histories of the gate have the assignees that assignment makes.
- Edge properties; role names, titles and other payload details of published events.
- Run fields that no decision reads.
- The text of the error that names the two tasks of a foreign dependency; the stored reason is its constant part.
- The duration of timers: a timer may run at any moment after its wait is created.
- A nil callback given to the write gate, which is ignored; the handler that decides which completions are gated.
- Which terminal events run UnblockDependents: the dispatcher calls it for completed tasks only.
- Two operations of one handler that read different clocks: `now` is one value per handler.
- Status updates of a run by hand are events of `RunPause` and `RunTraces`; who may make them is not modelled.
- Tasks.UpdateTask: a difference between a task's stored tags and its has_tag edges, which also announces an update, is not modelled.
- TodoGraph.UnblockDependentTodos: which of the todos that share an ordinality the snapshot shows is left open, as map order leaves it.
- TaskGate.UnblockDependents: for a task with several assignees the first edge decides, so a task some of whose assignees cannot be found may or may not be let go.
- FailureBudget.CreateRecoveryWorkflowRun: a root chosen by the caller is taken as it is, so lineages are kept right only when it is left empty.
- TodoAgents.AgentsJudgeTrulyExactlyIf: for decompositions whose dependencies have at most one provider, of their own; with colliding ordinalities the exact condition is known for unrestricted reports only (TodoVerdict.JudgedTrulyExactlyIfSound).
- GateHistory.ReleaseIsEvent: as for UnblockDependents, tasks have one assignee each.
