/** Directions given to a task and the resumption of its run: handleTaskDirection and maybeResumeWorkflowRun in
    internal/server/event_dispatcher.go. */
module Directions {
  import opened WorkModel
  import Recovery
  import RunClosure
  import RunLifecycle
  import SplitRollUp
  import Tasks
  import TodoGraph
  import TodoRuns
  import TodoSafety
  import TodoScheduler
  import TodoSettlement

  /* ---- Resuming ---- */

  const CANCELLED_BY_DIRECTION := "task cancelled by direction"

  /** Where a paused run goes once nothing in it awaits direction any more. */
  function Resumption(cancelled: bool): (RunStatus, string) {
    if cancelled then (RunFailed, CANCELLED_BY_DIRECTION) else (RunInProgress, "")
  }

  predicate AnyAwaiting(tasks: map<Id, Task>, ids: set<Id>) {
    exists t :: t in ids && t in tasks && tasks[t].status == TaskAwaitingDirection
  }

  /** A paused run moves on exactly when no task of its closure awaits direction. */
  predicate Resumes(runs: map<Id, Run>, tasks: map<Id, Task>, edges: set<Edge>, id: Id) {
    id in runs && runs[id].status == RunPaused && !AnyAwaiting(tasks, RunClosure.ClosureTasks(tasks, edges, id))
  }

  function ResumedRuns(runs: map<Id, Run>, id: Id, resumes: bool, cancelled: bool, now: Time): map<Id, Run> {
    if resumes && id in runs
    then runs[id := RunLifecycle.StatusWritten(runs[id], Resumption(cancelled).0, Resumption(cancelled).1, now)]
    else runs
  }

  function ResumedHistory(
      runs: map<Id, Run>, history: map<Id, seq<RunStatus>>, id: Id, resumes: bool,
      cancelled: bool): map<Id, seq<RunStatus>>
  {
    if resumes then RunLifecycle.Logged(runs, history, id, RunLifecycle.StatusSet(Resumption(cancelled).0)) else history
  }

  function ResumeEvents(id: Id, t: Id, resumes: bool, cancelled: bool): seq<Event> {
    if !resumes then []
    else if cancelled then [EvRunStatus(id, RunFailed)]
    else [EvRunStatus(id, RunInProgress), EvRunResumed(id, t)]
  }

  method MaybeResumeWorkflowRun(s: WorkStore, id: Id, t: Id, cancelled: bool, now: Time)
    requires s.Valid()
    modifies s`runs, s`events, s`history
    ensures s.Valid()
    ensures var resumes := Resumes(old(s.runs), s.tasks, s.edges, id);
            && s.runs == ResumedRuns(old(s.runs), id, resumes, cancelled, now)
            && s.history == ResumedHistory(old(s.runs), old(s.history), id, resumes, cancelled)
            && s.events == old(s.events) + ResumeEvents(id, t, resumes, cancelled)
    // A paused run moves on exactly if no task started by it awaits direction.
    ensures s.runs.Keys == old(s.runs).Keys
    ensures id in old(s.runs) ==>
              var moves := && old(s.runs)[id].status == RunPaused
                           && forall u :: Edge(StartedTask, id, u) in s.edges && u in s.tasks ==>
                                s.tasks[u].status != TaskAwaitingDirection;
              if !moves then s.runs == old(s.runs) && s.events == old(s.events)
              else if cancelled then
                && s.runs[id].status == RunFailed && s.runs[id].failureReason == "task cancelled by direction"
                && s.events == old(s.events) + [EvRunStatus(id, RunFailed)]
              else
                && s.runs[id].status == RunInProgress && s.runs[id].failureReason == old(s.runs)[id].failureReason
                && s.events == old(s.events) + [EvRunStatus(id, RunInProgress), EvRunResumed(id, t)]
  {
    ResumptionTells(s.runs, s.tasks, s.edges, id, t, cancelled, now);
    ResumeUnlessAwaited(s, id, t, cancelled, now);
  }

  lemma ResumptionTells(
      runs: map<Id, Run>, tasks: map<Id, Task>, edges: set<Edge>, id: Id, t: Id, cancelled: bool, now: Time)
    ensures var resumes := Resumes(runs, tasks, edges, id);
            var after, news := ResumedRuns(runs, id, resumes, cancelled, now), ResumeEvents(id, t, resumes, cancelled);
            && after.Keys == runs.Keys
            && (id in runs ==>
                  var moves := && runs[id].status == RunPaused
                               && forall u :: Edge(StartedTask, id, u) in edges && u in tasks ==>
                                    tasks[u].status != TaskAwaitingDirection;
                  if !moves then after == runs && news == []
                  else if cancelled then
                    && after[id].status == RunFailed && after[id].failureReason == "task cancelled by direction"
                    && news == [EvRunStatus(id, RunFailed)]
                  else
                    && after[id].status == RunInProgress && after[id].failureReason == runs[id].failureReason
                    && news == [EvRunStatus(id, RunInProgress), EvRunResumed(id, t)])
  {
    assert forall u ::
      u in RunClosure.ClosureTasks(tasks, edges, id) <==> Edge(StartedTask, id, u) in edges && u in tasks;
  }

  method ResumeUnlessAwaited(s: WorkStore, id: Id, t: Id, cancelled: bool, now: Time)
    requires s.Valid()
    modifies s`runs, s`events, s`history
    ensures s.Valid()
    ensures var resumes := Resumes(old(s.runs), s.tasks, s.edges, id);
            && s.runs == ResumedRuns(old(s.runs), id, resumes, cancelled, now)
            && s.history == ResumedHistory(old(s.runs), old(s.history), id, resumes, cancelled)
            && s.events == old(s.events) + ResumeEvents(id, t, resumes, cancelled)
  {
    if id !in s.runs || s.runs[id].status != RunPaused {
      return;
    }
    var awaiting := SomeTaskAwaits(s, id);
    if awaiting {
      return;
    }
    ResumeRun(s, id, t, cancelled, now);
  }

  method ResumeRun(s: WorkStore, id: Id, t: Id, cancelled: bool, now: Time)
    requires s.Valid() && id in s.runs && s.runs[id].status == RunPaused
    modifies s`runs, s`events, s`history
    ensures s.Valid()
    ensures s.runs == ResumedRuns(old(s.runs), id, true, cancelled, now)
    ensures s.history == ResumedHistory(old(s.runs), old(s.history), id, true, cancelled)
    ensures s.events == old(s.events) + ResumeEvents(id, t, true, cancelled)
  {
    var next, reason := RunInProgress, "";
    if cancelled {
      next, reason := RunFailed, CANCELLED_BY_DIRECTION;
    }
    var _ := RunLifecycle.MoveRun(s, id, next, reason, now);
    if next == RunInProgress {
      s.Publish(EvRunResumed(id, t));
    }
  }

  method SomeTaskAwaits(s: WorkStore, id: Id) returns (found: bool)
    requires id in s.runs
    ensures found <==> AnyAwaiting(s.tasks, RunClosure.ClosureTasks(s.tasks, s.edges, id))
  {
    var run, tasks, _, _ := RunClosure.GetWorkflowRunClosure(s, id);
    ghost var ids := RunClosure.ClosureTasks(s.tasks, s.edges, id);
    assert forall t :: t in ids ==> RunClosure.Entry(t, s.tasks[t]) in tasks;
    for i := 0 to |tasks|
      invariant forall j :: 0 <= j < i ==> tasks[j].entity.status != TaskAwaitingDirection
    {
      if tasks[i].entity.status == TaskAwaitingDirection {
        assert tasks[i] in tasks && tasks[i].id in ids;
        return true;
      }
    }
    found := false;
  }

  /* ---- Directions ---- */

  datatype Direction = Retry(instructions: string) | Skip | MarkBlocked(note: string) | Cancel

  function OptionName(d: Direction): string {
    match d
    case Retry(_) => "retry-with-instructions"
    case Skip => "skip"
    case MarkBlocked(_) => "mark-blocked"
    case Cancel => "cancel"
  }

  /** The task a direction asks for. */
  function Directed(task: Task, d: Direction): Task {
    var directed := task.(directionHistory := task.directionHistory + [OptionName(d)]);
    match d
    case Retry(text) =>
      directed.(status := TaskInProgress,
                description := if text == "" then task.description else task.description + "\n\nDirection: " + text)
    case Skip => directed.(status := TaskInProgress)
    case MarkBlocked(note) => directed.(status := TaskBlocked, blockerNote := note)
    case Cancel => directed.(status := TaskCancelled)
  }

  function DirectionEvents(t: Id, task: Task, d: Direction, agent: Id): seq<Event> {
    match d
    case Retry(_) => [EvTaskAssigned(t, agent, task.workflowRunId)]
    case Cancel => [EvTaskCancelled(t, task.workflowRunId, "")]
    case _ => []
  }

  /** Whose children are judged after a direction: those of the parent of a task that has been cancelled. */
  function RollsUpTo(task: Task, d: Direction): Id {
    if d.Cancel? then task.parentTaskId else UNSET
  }

  function FailedKids(todos: TodoGraph.Board, kids: set<Id>): set<Id> {
    set k | k in kids && k in todos && todos[k].status == TodoFailed
  }

  /** Whether a direction goes on to resume the run: an accepted retry or cancel, and a skip that finds no failed
      todo. */
  predicate MovesOn(todos: TodoGraph.Board, tasks: map<Id, Task>, edges: set<Edge>, t: Id, d: Direction) {
    && t in tasks
    && match d
       case Retry(_) => Tasks.UpdateError(tasks, edges, t, Directed(tasks[t], d)) == None
       case Cancel => Tasks.UpdateError(tasks, edges, t, Directed(tasks[t], d)) == None
       case MarkBlocked(_) => false
       case Skip => FailedKids(todos, TodoGraph.Kids(edges, t)) == {}
  }

  /** The tasks after the copy of the task read at the start has been written back as in progress, over whatever the
      settlement `mid` has made of it. */
  function Reopened(mid: map<Id, Task>, edges: set<Edge>, t: Id, read: Task, now: Time): map<Id, Task>
    requires t in mid
  {
    var next := Directed(read, Skip);
    if Tasks.UpdateError(mid, edges, t, next) == None then mid[t := Tasks.Merged(mid[t], next, now)] else mid
  }

  /** What a direction leaves behind besides the store: the assignee told, the todo skipped and the trail of the skip,
      the tasks after the first update, the events of the roll-up of a cancelled child, and all events before the
      resumption. */
  datatype Steps = Steps(
    agent: Id, skipped: Option<Id>, trail: TodoScheduler.Trail, mid: map<Id, Task>, news: seq<Event>,
    events: seq<Event>)

  const NO_TRAIL := TodoScheduler.Trail(map[], [], UNSET, [])

  /** A skip: the todo's cascade and settlement first, the task second. */
  ghost predicate SkipDone(
      todos: TodoGraph.Board, tasks: map<Id, Task>, edges: set<Edge>, t: Id, now: Time, steps: Steps,
      todos': TodoGraph.Board, tasks': map<Id, Task>)
    requires t in tasks
  {
    match steps.skipped
    case None =>
      FailedKids(todos, TodoGraph.Kids(edges, t)) == {} && todos' == todos && tasks' == tasks && steps.events == []
    case Some(id) =>
      && id in FailedKids(todos, TodoGraph.Kids(edges, t)) && t in steps.mid
      && TodoScheduler.Reported(todos, edges, id, TodoScheduler.Skipped, steps.trail, todos')
      && TodoScheduler.ParentSettled(tasks, todos', edges, todos[id].parentTaskId, now, steps.trail, steps.mid)
      && tasks' == Reopened(steps.mid, edges, t, tasks[t], now)
      && steps.events == [EvTodoCompleted(id, TodoSkipped)] + TodoGraph.DispatchEvents(steps.trail.order)
        + steps.trail.news
                         + Tasks.ChangeEvents(steps.mid, tasks', t)
  }

  /** Any other direction: nothing if the task's status does not admit it; a cancel is rolled up to the split parent. */
  ghost predicate DirectionDone(
      tasks: map<Id, Task>, edges: set<Edge>, t: Id, d: Direction, now: Time, steps: Steps, tasks': map<Id, Task>)
    requires t in tasks
  {
    if Tasks.UpdateError(tasks, edges, t, Directed(tasks[t], d)) != None then tasks' == tasks && steps.events == []
    else
      && steps.mid == tasks[t := Tasks.Merged(tasks[t], Directed(tasks[t], d), now)]
      && SplitRollUp.RolledUp(steps.mid, edges, RollsUpTo(tasks[t], d), now, tasks', steps.news)
      && (d.Retry? ==> Recovery.IsAssignee(edges, t, steps.agent))
      && steps.events == Tasks.UpdateEvents(t, tasks[t], steps.mid[t]) + DirectionEvents(t, tasks[t], d, steps.agent)
        + steps.news
  }

  /** Applies a direction.  A paused run moves on exactly if the direction is one that does and no task of its closure
      awaits direction afterwards. */
  method HandleTaskDirection(s: WorkStore, t: Id, d: Direction, now: Time) returns (ghost steps: Steps)
    requires s.Valid()
    modifies s`tasks, s`todos, s`edges, s`runs, s`events, s`history
    ensures s.Valid() && s.edges == old(s.edges)
    ensures t !in old(s.tasks) ==>
              && s.tasks == old(s.tasks) && s.todos == old(s.todos) && s.runs == old(s.runs)
              && s.events == old(s.events) && s.history == old(s.history)
    ensures t in old(s.tasks) ==>
              && (if d.Skip? then SkipDone(old(s.todos), old(s.tasks), s.edges, t, now, steps, s.todos, s.tasks)
                  else s.todos == old(s.todos) && DirectionDone(old(s.tasks), s.edges, t, d, now, steps, s.tasks))
              && var id := old(s.tasks[t]).workflowRunId;
              && var resumes := MovesOn(old(s.todos), old(s.tasks), s.edges, t, d)
                && Resumes(old(s.runs), s.tasks, s.edges, id);
              && s.runs == ResumedRuns(old(s.runs), id, resumes, d.Cancel?, now)
              && s.history == ResumedHistory(old(s.runs), old(s.history), id, resumes, d.Cancel?)
              && s.events == old(s.events) + steps.events + ResumeEvents(id, t, resumes, d.Cancel?)
    // Marking a task blocked, and skipping a failed todo, never touch a run.
    ensures d.MarkBlocked? ==> s.runs == old(s.runs)
    ensures d.Skip? && s.runs != old(s.runs) ==>
              forall k :: Edge(HasTodo, t, k) in s.edges && k in old(s.todos) ==> old(s.todos)[k].status != TodoFailed
  {
    FailedTells(s.todos, s.edges, t);
    steps := Steps(UNSET, None, NO_TRAIL, s.tasks, [], []);
    if t in s.tasks {
      steps := DirectAndResume(s, t, d, now);
    }
  }

  method DirectAndResume(s: WorkStore, t: Id, d: Direction, now: Time) returns (ghost steps: Steps)
    requires s.Valid() && t in s.tasks
    modifies s`tasks, s`todos, s`edges, s`runs, s`events, s`history
    ensures s.Valid() && s.edges == old(s.edges)
    ensures if d.Skip? then SkipDone(old(s.todos), old(s.tasks), s.edges, t, now, steps, s.todos, s.tasks)
            else s.todos == old(s.todos) && DirectionDone(old(s.tasks), s.edges, t, d, now, steps, s.tasks)
    ensures var id := old(s.tasks[t]).workflowRunId;
            var resumes := MovesOn(old(s.todos), old(s.tasks), s.edges, t, d)
              && Resumes(old(s.runs), s.tasks, s.edges, id);
            && s.runs == ResumedRuns(old(s.runs), id, resumes, d.Cancel?, now)
            && s.history == ResumedHistory(old(s.runs), old(s.history), id, resumes, d.Cancel?)
            && s.events == old(s.events) + steps.events + ResumeEvents(id, t, resumes, d.Cancel?)
  {
    var runId := s.tasks[t].workflowRunId;
    var moves;
    moves, steps := ApplyDirection(s, t, d, now);
    ResumeIf(s, moves, runId, t, d.Cancel?, now);
  }

  method ApplyDirection(s: WorkStore, t: Id, d: Direction, now: Time) returns (moves: bool, ghost steps: Steps)
    requires s.Valid() && t in s.tasks
    modifies s`tasks, s`todos, s`edges, s`events
    ensures s.Valid() && s.edges == old(s.edges)
    ensures if d.Skip? then SkipDone(old(s.todos), old(s.tasks), s.edges, t, now, steps, s.todos, s.tasks)
            else s.todos == old(s.todos) && DirectionDone(old(s.tasks), s.edges, t, d, now, steps, s.tasks)
    ensures moves <==> MovesOn(old(s.todos), old(s.tasks), s.edges, t, d)
    ensures s.events == old(s.events) + steps.events
  {
    if d.Skip? {
      moves, steps := SkipByDirection(s, t, now);
    } else {
      moves, steps := DirectTask(s, t, d, now);
    }
  }

  /** A direction that goes on resumes the task's run, if it has one. */
  method ResumeIf(s: WorkStore, moves: bool, id: Id, t: Id, cancelled: bool, now: Time)
    requires s.Valid()
    modifies s`runs, s`events, s`history
    ensures s.Valid()
    ensures var resumes := moves && Resumes(old(s.runs), s.tasks, s.edges, id);
            && s.runs == ResumedRuns(old(s.runs), id, resumes, cancelled, now)
            && s.history == ResumedHistory(old(s.runs), old(s.history), id, resumes, cancelled)
            && s.events == old(s.events) + ResumeEvents(id, t, resumes, cancelled)
  {
    if moves && id != UNSET {
      MaybeResumeWorkflowRun(s, id, t, cancelled, now);
    }
  }

  /** What an accepted direction makes of the task. */
  lemma DirectionTells(
      tasks: map<Id, Task>, edges: set<Edge>, t: Id, d: Direction, now: Time, steps: Steps, tasks': map<Id, Task>)
    requires t in tasks && !d.Skip? && DirectionDone(tasks, edges, t, d, now, steps, tasks')
    requires var next := if d.Retry? then TaskInProgress else if d.MarkBlocked? then TaskBlocked else TaskCancelled;
             Tasks.UpdateError(tasks, edges, t, tasks[t].(status := next)) == None
    ensures t in steps.mid && (forall u :: u in tasks && u != t ==> u in steps.mid && steps.mid[u] == tasks[u])
    ensures var was, after := tasks[t], steps.mid[t];
            match d
            case Retry(text) =>
              && after.status == TaskInProgress
              && after.directionHistory == was.directionHistory + ["retry-with-instructions"]
              && after.description == (if text == "" then was.description
                                       else was.description + "\n\nDirection: " + text)
              && after.blockerNote == was.blockerNote
            case MarkBlocked(note) =>
              && after.status == TaskBlocked && after.directionHistory == was.directionHistory + ["mark-blocked"]
              && after.description == was.description && after.blockerNote == note
            case _ =>
              && after.status == TaskCancelled && after.directionHistory == was.directionHistory + ["cancel"]
              && after.description == was.description && after.blockerNote == was.blockerNote
  {
  }

  /** What an accepted direction announces besides the update: a retry the dispatch to an assignee, a cancel the
      cancellation, each once, and nothing of the kind otherwise. */
  lemma DirectionAnnounces(
      tasks: map<Id, Task>, edges: set<Edge>, t: Id, d: Direction, now: Time, steps: Steps, tasks': map<Id, Task>)
    requires t in tasks && !d.Skip? && DirectionDone(tasks, edges, t, d, now, steps, tasks')
    requires Tasks.UpdateError(tasks, edges, t, Directed(tasks[t], d)) == None
    ensures var run := tasks[t].workflowRunId;
            && multiset(steps.events)[EvTaskAssigned(t, steps.agent, run)] == (if d.Retry? then 1 else 0)
            && multiset(steps.events)[EvTaskCancelled(t, run, "")] == (if d.Cancel? then 1 else 0)
            && forall e :: e in steps.events ==>
                 && (e.EvTaskAssigned? ==> e == EvTaskAssigned(t, steps.agent, run))
                 && (e.EvTaskCancelled? ==> e == EvTaskCancelled(t, run, ""))
    ensures d.Retry? && (exists a :: Edge(AssignedTo, t, a) in edges) ==> Edge(AssignedTo, t, steps.agent) in edges
  {
    var updates, run := Tasks.UpdateEvents(t, tasks[t], steps.mid[t]), tasks[t].workflowRunId;
    RollUpIsPlain(steps.mid, edges, RollsUpTo(tasks[t], d), now, tasks', steps.news);
    Tasks.UpdateKinds(t, tasks[t], steps.mid[t]);
    AnnouncementCounts(updates, DirectionEvents(t, tasks[t], d, steps.agent), steps.news,
                       EvTaskAssigned(t, steps.agent, run), EvTaskCancelled(t, run, ""));
    assert forall a :: a in Targets(edges, AssignedTo, t) <==> Edge(AssignedTo, t, a) in edges;
  }

  lemma AnnouncementCounts(updates: seq<Event>, told: seq<Event>, news: seq<Event>, attempt: Event, cancel: Event)
    requires forall e :: e in updates || e in news ==> e.EvTaskUpdated? || e.EvTaskStatusChanged? || e.EvTaskCompleted?
    requires attempt.EvTaskAssigned? && cancel.EvTaskCancelled? && (told == [] || told == [attempt] || told == [cancel])
    ensures var events := updates + told + news;
            && multiset(events)[attempt] == (if told == [attempt] then 1 else 0)
            && multiset(events)[cancel] == (if told == [cancel] then 1 else 0)
            && forall e :: e in events ==> (e.EvTaskAssigned? ==> e == attempt) && (e.EvTaskCancelled? ==> e == cancel)
  {
    Recovery.CountThree(updates, told, news, attempt);
    Recovery.CountThree(updates, told, news, cancel);
  }

  /** A cancelled child is rolled up to its split parent, and no other direction touches another task. */
  lemma CancelRollsUp(
      tasks: map<Id, Task>, edges: set<Edge>, t: Id, d: Direction, now: Time, steps: Steps, tasks': map<Id, Task>)
    requires t in tasks && !d.Skip? && DirectionDone(tasks, edges, t, d, now, steps, tasks')
    requires Tasks.UpdateError(tasks, edges, t, Directed(tasks[t], d)) == None
    ensures !d.Cancel? ==> tasks' == steps.mid
    ensures var mid, parent := steps.mid, tasks[t].parentTaskId;
            d.Cancel? && parent != UNSET && parent in mid ==>
              var was := mid[parent].status;
              var over := && (exists c :: Edge(SubtaskOf, c, parent) in edges)
                          && forall c :: Edge(SubtaskOf, c, parent) in edges ==> c in mid && mid[c].status.IsTerminal();
              var won := forall c :: Edge(SubtaskOf, c, parent) in edges ==> c in mid && mid[c].status == TaskCompleted;
              && parent in tasks'
              && tasks'[parent].status == if !over || (was != TaskInProgress && was != TaskSplit) then was
                                          else if won then TaskCompleted else TaskFailed
  {
    if d.Cancel? && tasks[t].parentTaskId != UNSET {
      SplitRollUp.RolledUpTells(steps.mid, edges, tasks[t].parentTaskId, now, tasks', steps.news);
    }
  }

  lemma RollUpIsPlain(
      mid: map<Id, Task>, edges: set<Edge>, parent: Id, now: Time, after: map<Id, Task>, news: seq<Event>)
    requires SplitRollUp.RolledUp(mid, edges, parent, now, after, news)
    ensures forall e :: e in news ==> e.EvTaskCompleted? || e.EvTaskStatusChanged?
  {
    var children := SplitRollUp.Children(edges, parent);
    if parent != UNSET && children != {} && children <= mid.Keys {
      TodoScheduler.SettlementTells(mid, parent, SplitRollUp.ChildrenVerdict(mid, children), now, after, news);
    }
  }

  /** Which directions go on to look at the run. */
  lemma MovesOnTells(todos: TodoGraph.Board, tasks: map<Id, Task>, edges: set<Edge>, t: Id, d: Direction)
    requires t in tasks
    ensures MovesOn(todos, tasks, edges, t, d)
            <==> var was := tasks[t].status;
                 match d
                 case Retry(_) =>
                   || was == TaskInProgress
                   || (&& was.CanTransitionTo(TaskInProgress)
                       && !(was == TaskPending
                            && exists b :: Edge(Blocks, b, t) in edges && b in tasks && !tasks[b].status.IsTerminal()))
                 case Cancel => was == TaskCancelled || was.CanTransitionTo(TaskCancelled)
                 case MarkBlocked(_) => false
                 case Skip => !exists k :: Edge(HasTodo, t, k) in edges && k in todos && todos[k].status == TodoFailed
  {
    FailedTells(todos, edges, t);
    if !d.Skip? { Tasks.RefusalTells(tasks, edges, t, Directed(tasks[t], d)); }
  }

  method DirectTask(s: WorkStore, t: Id, d: Direction, now: Time) returns (moves: bool, ghost steps: Steps)
    requires s.Valid() && t in s.tasks && !d.Skip?
    modifies s`tasks, s`edges, s`events
    ensures s.Valid() && s.edges == old(s.edges)
    ensures DirectionDone(old(s.tasks), s.edges, t, d, now, steps, s.tasks)
    ensures moves <==> MovesOn(s.todos, old(s.tasks), s.edges, t, d)
    ensures s.events == old(s.events) + steps.events
  {
    steps := Steps(UNSET, None, NO_TRAIL, s.tasks, [], []);
    var task := s.tasks[t];
    moves := Tasks.UpdateInPlace(s, t, Directed(task, d), now);
    if moves {
      ghost var updated, mid := Tasks.UpdateEvents(t, task, s.tasks[t]), s.tasks;
      var agent, news := Announce(s, t, task, d, now);
      steps := Steps(agent, None, NO_TRAIL, mid, news, updated + DirectionEvents(t, task, d, agent) + news);
      LogAssoc(old(s.events) + updated, DirectionEvents(t, task, d, agent), news);
      LogAssoc(old(s.events), updated, DirectionEvents(t, task, d, agent) + news);
      LogAssoc(updated, DirectionEvents(t, task, d, agent), news);
    }
    moves := moves && !d.MarkBlocked?;
  }

  /** Publishes an accepted direction; a cancelled child is rolled up. */
  method Announce(s: WorkStore, t: Id, task: Task, d: Direction, now: Time) returns (agent: Id, ghost news: seq<Event>)
    requires s.Valid() && t in s.tasks && !d.Skip?
    modifies s`tasks, s`edges, s`events
    ensures s.Valid() && s.edges == old(s.edges)
    ensures d.Retry? ==> Recovery.IsAssignee(s.edges, t, agent)
    ensures SplitRollUp.RolledUp(old(s.tasks), s.edges, RollsUpTo(task, d), now, s.tasks, news)
    ensures s.events == old(s.events) + DirectionEvents(t, task, d, agent) + news
  {
    agent, news := UNSET, [];
    match d {
      case Retry(_) =>
        agent := Recovery.FindAssignee(s, t);
        s.Publish(EvTaskAssigned(t, agent, task.workflowRunId));
      case Cancel =>
        s.Publish(EvTaskCancelled(t, task.workflowRunId, ""));
        news := SplitRollUp.MaybeCompleteSplitParent(s, task.parentTaskId, now);
      case MarkBlocked(_) =>
    }
  }

  /** Skips a failed todo of the task, with the whole cascade of a skip, and puts the task back in progress. */
  method SkipByDirection(s: WorkStore, t: Id, now: Time) returns (moves: bool, ghost steps: Steps)
    requires s.Valid() && t in s.tasks
    modifies s`tasks, s`todos, s`edges, s`events
    ensures s.Valid() && s.edges == old(s.edges)
    ensures SkipDone(old(s.todos), old(s.tasks), s.edges, t, now, steps, s.todos, s.tasks)
    ensures moves <==> MovesOn(old(s.todos), old(s.tasks), s.edges, t, Skip)
    ensures s.events == old(s.events) + steps.events
    // A failed todo is skipped if the task has one; if it has none nothing changes.
    ensures var failed := exists k :: Edge(HasTodo, t, k) in s.edges && k in old(s.todos)
                                      && old(s.todos)[k].status == TodoFailed;
            && (moves <==> !failed)
            && (failed ==> exists k :: && Edge(HasTodo, t, k) in s.edges && k in old(s.todos) && k in s.todos
                                       && old(s.todos)[k].status == TodoFailed && s.todos[k].status == TodoSkipped
                                       && EvTodoCompleted(k, TodoSkipped) in s.events[|old(s.events)|..])
            && (!failed ==> s.todos == old(s.todos) && s.tasks == old(s.tasks) && s.events == old(s.events))
  {
    FailedTells(s.todos, s.edges, t);
    steps := Steps(UNSET, None, NO_TRAIL, s.tasks, [], []);
    var failed := FindFailedKid(s, t);
    moves := failed == None;
    if failed.Some? {
      steps := SkipFailedKid(s, t, failed.value, now);
      SkippedTells(old(s.todos), old(s.tasks), s.edges, t, failed.value, now, steps, s.todos, s.tasks);
      assert s.events[|old(s.events)|..] == steps.events;
    }
  }

  lemma SkippedTells(
      todos: TodoGraph.Board, tasks: map<Id, Task>, edges: set<Edge>, t: Id, id: Id, now: Time, steps: Steps,
      todos': TodoGraph.Board, tasks': map<Id, Task>)
    requires t in tasks && SkipDone(todos, tasks, edges, t, now, steps, todos', tasks') && steps.skipped == Some(id)
    ensures Edge(HasTodo, t, id) in edges && id in todos && todos[id].status == TodoFailed
    ensures id in todos' && todos'[id].status == TodoSkipped
    ensures EvTodoCompleted(id, TodoSkipped) in steps.events
  {
  }

  lemma FailedTells(todos: TodoGraph.Board, edges: set<Edge>, t: Id)
    ensures FailedKids(todos, TodoGraph.Kids(edges, t)) != {}
            <==> exists k :: Edge(HasTodo, t, k) in edges && k in todos && todos[k].status == TodoFailed
  {
    if k :| Edge(HasTodo, t, k) in edges && k in todos && todos[k].status == TodoFailed {
      assert k in FailedKids(todos, TodoGraph.Kids(edges, t));
    }
    if k :| k in FailedKids(todos, TodoGraph.Kids(edges, t)) { assert Edge(HasTodo, t, k) in edges; }
  }

  /** The task written back after a skip is in progress and remembers the direction; nothing else of the copy has
      changed. */
  lemma SkipTells(mid: map<Id, Task>, edges: set<Edge>, t: Id, read: Task, now: Time)
    requires t in mid
    ensures var after := Reopened(mid, edges, t, read, now);
            && (forall u :: u in mid && u != t ==> u in after && after[u] == mid[u])
            && (after == mid
                || (&& t in after && after[t].status == TaskInProgress
                    && after[t].directionHistory == read.directionHistory + ["skip"]
                    && after[t].description == read.description && after[t].blockerNote == read.blockerNote
                    && after[t].workflowRunId == read.workflowRunId
                    && after[t].recoveryRunsUsed == read.recoveryRunsUsed))
  {
  }

  method SkipFailedKid(s: WorkStore, t: Id, id: Id, now: Time) returns (ghost steps: Steps)
    requires s.Valid() && t in s.tasks && id in FailedKids(s.todos, TodoGraph.Kids(s.edges, t))
    modifies s`tasks, s`todos, s`edges, s`events
    ensures s.Valid() && s.edges == old(s.edges) && steps.skipped == Some(id)
    ensures SkipDone(old(s.todos), old(s.tasks), s.edges, t, now, steps, s.todos, s.tasks)
    ensures s.events == old(s.events) + steps.events
  {
    var read := s.tasks[t];
    var _, trail := TodoScheduler.SkipTodo(s, id, now);
    ghost var mid := s.tasks;
    var _ := Tasks.UpdateInPlace(s, t, Directed(read, Skip), now);
    ghost var first := [EvTodoCompleted(id, TodoSkipped)] + TodoGraph.DispatchEvents(trail.order) + trail.news;
    steps := Steps(UNSET, Some(id), trail, mid, [], first + Tasks.ChangeEvents(mid, s.tasks, t));
    SkipLog(old(s.events), id, trail, Tasks.ChangeEvents(mid, s.tasks, t));
  }

  lemma SkipLog(log: seq<Event>, id: Id, trail: TodoScheduler.Trail, more: seq<Event>)
    ensures log + [EvTodoCompleted(id, TodoSkipped)] + TodoGraph.DispatchEvents(trail.order) + trail.news + more
            == log + ([EvTodoCompleted(id, TodoSkipped)] + TodoGraph.DispatchEvents(trail.order) + trail.news + more)
  {
  }

  method FindFailedKid(s: WorkStore, t: Id) returns (found: Option<Id>)
    ensures found.None? <==> FailedKids(s.todos, TodoGraph.Kids(s.edges, t)) == {}
    ensures found.Some? ==> found.value in FailedKids(s.todos, TodoGraph.Kids(s.edges, t))
  {
    ghost var failed := FailedKids(s.todos, TodoGraph.Kids(s.edges, t));
    var rest := TodoGraph.Kids(s.edges, t);
    while rest != {}
      invariant rest <= TodoGraph.Kids(s.edges, t) && failed <= rest
      decreases rest
    {
      var id :| id in rest;
      rest := rest - {id};
      if id in s.todos && s.todos[id].status == TodoFailed {
        assert id in failed;
        return Some(id);
      }
    }
    assert failed == {};
    found := None;
  }

  /* ---- What a skip makes of the task ---- */

  /** The status of a task after the skip of one of its todos: the settlement by the verdict, and then the copy read
      before it, written back as in progress if the table admits that and no blocking task holds it. */
  function SkippedStatus(status: TaskStatus, verdict: TodoScheduler.Verdict, held: bool): TaskStatus {
    match TodoSettlement.SettledStatus(status, verdict)
    case TaskCompleted => TaskCompleted
    case TaskCancelled => TaskCancelled
    case TaskBlocked => TaskBlocked
    case TaskSplit => TaskSplit
    case TaskPending => if held then TaskPending else TaskInProgress
    case _ => TaskInProgress
  }

  /** Over all statuses and verdicts: a skip ends a task exactly if it was completed before, or if all its todos have
      now succeeded and it was in progress or split.  It never leaves a task failed. */
  lemma SkipOutcome(
      before: map<Id, Task>, edges: set<Edge>, t: Id, verdict: TodoScheduler.Verdict, now: Time, mid: map<Id, Task>,
      news: seq<Event>)
    requires t in before && TodoScheduler.Settled(before, t, verdict, now, mid, news)
    ensures t in mid
    ensures var status := before[t].status;
            var after := Reopened(mid, edges, t, before[t], now)[t].status;
            && after == SkippedStatus(status, verdict, Tasks.ActiveBlockers(mid, edges, t) != {})
            && after != TaskFailed
            && (after == TaskCompleted
                <==> status == TaskCompleted
                     || (verdict == TodoScheduler.AllSucceeded && (status == TaskInProgress || status == TaskSplit)))
  {
    TodoSettlement.SettledByVerdict(before, t, verdict, now, mid, news);
  }

  /** With the task's todos its own, the settlement of a skip is that of the task itself. */
  lemma SkipSettlesTheTask(
      todos: TodoGraph.Board, tasks: map<Id, Task>, edges: set<Edge>, t: Id, now: Time, steps: Steps,
      todos': TodoGraph.Board, tasks': map<Id, Task>)
    requires t in tasks && SkipDone(todos, tasks, edges, t, now, steps, todos', tasks') && steps.skipped.Some?
    requires TodoSafety.Owned(todos, edges, t)
    ensures TodoScheduler.ParentSettled(tasks, todos', edges, t, now, steps.trail, steps.mid)
    ensures t in steps.mid && tasks' == Reopened(steps.mid, edges, t, tasks[t], now)
  {
  }

  /** Any run of a sound decomposition, and then a skip of one of the task's failed todos, with which the group has had
      a report. */
  ghost predicate SkippedAfter(
      p: TodoRuns.Progress, run: seq<TodoRuns.Turn>, t: Id, group: set<Id>, tasks: map<Id, Task>, now: Time,
      steps: Steps,
      todos': TodoGraph.Board, tasks': map<Id, Task>)
  {
    var mid := TodoRuns.End(p, run);
    && TodoSettlement.SoundRun(p, run, t, group) && t in tasks && steps.skipped.Some?
    && (steps.skipped.value in group || TodoRuns.SomeReportOn(group, run))
    && SkipDone(mid.todos, tasks, mid.edges, t, now, steps, todos', tasks')
  }

  /** Then the task is completed exactly if it already was, or was in progress or split and every todo of the
      decomposition is now completed or skipped: a failed or parked task is left in progress with nothing left to settle
      it. */
  lemma SkipCompletesExactlyIf(
      p: TodoRuns.Progress, run: seq<TodoRuns.Turn>, t: Id, group: set<Id>, tasks: map<Id, Task>, now: Time,
      steps: Steps,
      todos': TodoGraph.Board, tasks': map<Id, Task>)
    requires SkippedAfter(p, run, t, group, tasks, now, steps, todos', tasks')
    ensures t in tasks' && group <= todos'.Keys
    ensures tasks'[t].status == TaskCompleted
            <==> tasks[t].status == TaskCompleted
                 || ((tasks[t].status == TaskInProgress || tasks[t].status == TaskSplit)
                     && forall k :: k in group ==> todos'[k].status.Satisfies())
    ensures tasks'[t].status != TaskFailed
  {
    var mid, id := TodoRuns.End(p, run), steps.skipped.value;
    TodoSafety.RunIsSafe(p, run, t, group);
    SkipSettlesTheTask(mid.todos, tasks, mid.edges, t, now, steps, todos', tasks');
    TodoSettlement.LastReportJudgesTruly(p, run, t, group, id, TodoScheduler.Skipped, steps.trail, todos');
    TodoSettlement.NewestSettles(tasks, todos', mid.edges, t, group, now, steps.trail, steps.mid);
    SkipOutcome(tasks, mid.edges, t, TodoScheduler.VerdictOf(todos', group), now, steps.mid, steps.trail.news);
  }

  /** The input that defeats the comment in the code: a task that awaits direction, whose only todo has failed.  After
      the skip every todo is skipped, and the task is in progress. */
  lemma SkipStrandsTask(task: Task, todo: Todo, now: Time)
    returns (steps: Steps, todos': TodoGraph.Board, tasks': map<Id, Task>)
    requires task.status == TaskAwaitingDirection
    requires todo.status == TodoFailed && todo.parentTaskId == "t" && todo.dependsOn == []
    ensures SkipDone(map["k" := todo], map["t" := task], {Edge(HasTodo, "t", "k")}, "t", now, steps, todos', tasks')
    ensures todos' == map["k" := todo.(status := TodoSkipped)]
    ensures "t" in tasks' && tasks'["t"].status == TaskInProgress
  {
    var edges := {Edge(HasTodo, "t", "k")};
    var todos, tasks: map<Id, Task> := map["k" := todo], map["t" := task];
    assert TodoGraph.Kids(edges, "t") == {"k"};
    todos' := map["k" := todo.(status := TodoSkipped)];
    var trail := TodoScheduler.Trail(map[todo.ordinality := TodoSkipped], [], todo.decompRunId, []);
    OnlyTodoSkipped(todo, trail);
    OnlyTodoSettles(task, todo, trail, now);
    tasks' := Reopened(tasks, edges, "t", task, now);
    var events := [EvTodoCompleted("k", TodoSkipped)] + TodoGraph.DispatchEvents([]) + []
      + Tasks.ChangeEvents(tasks, tasks', "t");
    steps := Steps(UNSET, Some("k"), trail, tasks, [], events);
  }

  /** A parked task is not settled. */
  lemma OnlyTodoSettles(task: Task, todo: Todo, trail: TodoScheduler.Trail, now: Time)
    requires task.status == TaskAwaitingDirection && trail.key == todo.decompRunId && trail.news == []
    ensures TodoScheduler.ParentSettled(map["t" := task], map["k" := todo.(status := TodoSkipped)],
                                        {Edge(HasTodo, "t", "k")}, "t", now, trail, map["t" := task])
  {
    assert TodoGraph.Kids({Edge(HasTodo, "t", "k")}, "t") == {"k"};
    assert "k" in {"k"};
  }

  lemma OnlyTodoSkipped(todo: Todo, trail: TodoScheduler.Trail)
    requires todo.parentTaskId == "t" && todo.dependsOn == []
    requires trail.snap == map[todo.ordinality := TodoSkipped] && trail.order == []
    ensures TodoScheduler.Reported(map["k" := todo], {Edge(HasTodo, "t", "k")}, "k", TodoScheduler.Skipped, trail,
                                   map["k" := todo.(status := TodoSkipped)])
  {
    var todos: TodoGraph.Board, todos': TodoGraph.Board := map["k" := todo], map["k" := todo.(status := TodoSkipped)];
    assert TodoGraph.Kids({Edge(HasTodo, "t", "k")}, "t") == {"k"};
    assert todos' == TodoScheduler.Marked(todos, "k", TodoScheduler.Skipped);
    assert TodoGraph.IsSnapshot(todos', {"k"}, trail.snap);
    assert TodoGraph.ReadyIn(todos', {"k"}, todo.ordinality, trail.snap) == {};
    assert TodoGraph.WithStatus(todos', {}, TodoPending) == todos';
  }
}
