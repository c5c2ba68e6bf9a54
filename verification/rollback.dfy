/** Rolling a run back: workflow_run_rollback.go. */
module Rollback {
  import opened WorkModel
  import RunLifecycle

  /* ---- The cleanup as functions of the store's maps ---- */

  function RunTasks(tasks: map<Id, Task>, runId: Id): set<Id> {
    set t | t in tasks && tasks[t].workflowRunId == runId
  }

  function RunTodos(todos: map<Id, Todo>, runId: Id): set<Id> {
    set k | k in todos && todos[k].workflowRunId == runId
  }

  /** A live task of another run depends on task `t`. */
  predicate NeededElsewhere(tasks: map<Id, Task>, edges: set<Edge>, runId: Id, t: Id) {
    exists f :: f in Sources(edges, DependsOn, t) && f in tasks
                && tasks[f].workflowRunId != UNSET && tasks[f].workflowRunId != runId
  }

  predicate ForeignDependency(tasks: map<Id, Task>, edges: set<Edge>, runId: Id) {
    exists t :: t in RunTasks(tasks, runId) && NeededElsewhere(tasks, edges, runId, t)
  }

  function Reset(task: Task, now: Time): Task {
    task.(status := TaskPending, workflowRunId := UNSET, completedAt := NO_TIME, updatedAt := now)
  }

  function ResetSome(tasks: map<Id, Task>, done: set<Id>, now: Time): map<Id, Task> {
    map t | t in tasks :: if t in done then Reset(tasks[t], now) else tasks[t]
  }

  /** The edges without those that anchor a reset task and those at a deleted todo. */
  function CleanEdges(edges: set<Edge>, resetTasks: set<Id>, deletedTodos: set<Id>): set<Edge> {
    set e | e in edges && !(e.name == StartedTask && e.to in resetTasks) && e.from !in deletedTodos
      && e.to !in deletedTodos
  }

  function RolledBackEvents(order: seq<Id>, runId: Id): seq<Event> {
    seq(|order|, i requires 0 <= i < |order| => EvTaskRolledBack(order[i], runId))
  }

  /* ---- What the cleanup reaches and what it leaves alone ---- */

  lemma CleanupFootprint(tasks: map<Id, Task>, todos: map<Id, Todo>, edges: set<Edge>, runId: Id, now: Time)
    requires runId != UNSET && UNSET !in todos
    ensures var mine, gone := RunTasks(tasks, runId), RunTodos(todos, runId);
            var tasks', todos', edges' := ResetSome(tasks, mine, now), todos - gone, CleanEdges(edges, mine, gone);
            // Nothing live carries the run id, no run claims a task that did, and no edge is left at a todo that did.
            && tasks'.Keys == tasks.Keys
            && (forall t :: t in tasks' ==> tasks'[t].workflowRunId != runId)
            && (forall k :: k in todos' ==> todos'[k].workflowRunId != runId)
            && (forall t, r :: t in tasks && tasks[t].workflowRunId == runId ==> Edge(StartedTask, r, t) !in edges')
            && (forall e :: e in edges' ==> e.from !in todos - todos'.Keys && e.to !in todos - todos'.Keys)
            // A reset task keeps every other field; every other task and todo is untouched.
            && (forall t :: t in tasks && tasks[t].workflowRunId == runId ==>
                  && tasks'[t].status == TaskPending && tasks'[t].workflowRunId == UNSET
                  && tasks'[t].completedAt == NO_TIME && tasks'[t].updatedAt == now
                  && tasks[t] == tasks'[t].(status := tasks[t].status, workflowRunId := tasks[t].workflowRunId,
                                            completedAt := tasks[t].completedAt, updatedAt := tasks[t].updatedAt))
            && (forall t :: t in tasks && tasks[t].workflowRunId != runId ==> tasks'[t] == tasks[t])
            && (forall k :: k in todos && todos[k].workflowRunId != runId ==> k in todos' && todos'[k] == todos[k])
            // Only anchors of reset tasks and edges at deleted todos disappear, and none appears.
            && edges' <= edges
            && (forall e :: e in edges - edges' ==>
                (e.name == StartedTask && e.to in mine) || e.from in gone || e.to in gone)
  {
  }

  /** A second cleanup finds nothing to do, and nothing of another run stands in its way. */
  lemma CleanupOnce(tasks: map<Id, Task>, todos: map<Id, Todo>, edges: set<Edge>, runId: Id, now: Time, later: Time)
    requires runId != UNSET
    ensures var mine, gone := RunTasks(tasks, runId), RunTodos(todos, runId);
            var tasks', todos', edges' := ResetSome(tasks, mine, now), todos - gone, CleanEdges(edges, mine, gone);
            && !ForeignDependency(tasks', edges', runId)
            && ResetSome(tasks', RunTasks(tasks', runId), later) == tasks'
            && todos' - RunTodos(todos', runId) == todos'
            && CleanEdges(edges', RunTasks(tasks', runId), RunTodos(todos', runId)) == edges'
  {
    var tasks' := ResetSome(tasks, RunTasks(tasks, runId), now);
    assert RunTasks(tasks', runId) == {};
  }

  /** A dependency stands in the way of a rollback exactly if it leads from a live task of another run to a live task of
      this one. */
  lemma ForeignExactlyIf(tasks: map<Id, Task>, edges: set<Edge>, runId: Id)
    ensures ForeignDependency(tasks, edges, runId)
            <==> exists e :: && e in edges && e.name == DependsOn && e.from in tasks && e.to in tasks
                             && tasks[e.to].workflowRunId == runId
                             && tasks[e.from].workflowRunId != UNSET && tasks[e.from].workflowRunId != runId
  {
    if e :| && e in edges && e.name == DependsOn && e.from in tasks && e.to in tasks
            && tasks[e.to].workflowRunId == runId
            && tasks[e.from].workflowRunId != UNSET && tasks[e.from].workflowRunId != runId {
      assert e == Edge(DependsOn, e.from, e.to);
      assert NeededElsewhere(tasks, edges, runId, e.to);
    }
    if t :| t in RunTasks(tasks, runId) && NeededElsewhere(tasks, edges, runId, t) {
      var f :| f in Sources(edges, DependsOn, t) && f in tasks
               && tasks[f].workflowRunId != UNSET && tasks[f].workflowRunId != runId;
      assert Edge(DependsOn, f, t) in edges;
    }
  }

  /* ---- The handlers ---- */

  method FindForeignDependency(s: WorkStore, runId: Id) returns (found: bool)
    ensures found <==> ForeignDependency(s.tasks, s.edges, runId)
  {
    var rest := RunTasks(s.tasks, runId);
    while rest != {}
      invariant rest <= RunTasks(s.tasks, runId)
      invariant forall t :: t in RunTasks(s.tasks, runId) - rest ==> !NeededElsewhere(s.tasks, s.edges, runId, t)
      decreases rest
    {
      var t :| t in rest;
      rest := rest - {t};
      var froms := Sources(s.edges, DependsOn, t);
      while froms != {}
        invariant froms <= Sources(s.edges, DependsOn, t)
        invariant forall f :: f in Sources(s.edges, DependsOn, t) - froms && f in s.tasks ==>
                    s.tasks[f].workflowRunId == UNSET || s.tasks[f].workflowRunId == runId
        decreases froms
      {
        var f :| f in froms;
        froms := froms - {f};
        if f in s.tasks && s.tasks[f].workflowRunId != UNSET && s.tasks[f].workflowRunId != runId {
          return true;
        }
      }
    }
    found := false;
  }

  /** Resets the run's tasks and deletes its todos, unless a task of another run depends on one of its tasks; then
      nothing changes at all. */
  method DeleteWorkflowRunArtifacts(s: WorkStore, runId: Id, now: Time) returns (r: Result<()>, ghost order: seq<Id>)
    requires s.Valid()
    modifies s`tasks, s`todos, s`edges, s`events
    ensures s.Valid()
    ensures runId !in s.runs ==> r == Err(ErrRunNotFound)
    ensures runId in s.runs ==>
              r == if ForeignDependency(old(s.tasks), old(s.edges), runId) then Err(ErrForeignRunDependency) else Ok(())
    ensures r.Err? ==>
              s.tasks == old(s.tasks) && s.todos == old(s.todos) && s.edges == old(s.edges) && s.events == old(s.events)
    ensures r.Ok? ==>
              var mine, gone := RunTasks(old(s.tasks), runId), RunTodos(old(s.todos), runId);
              && s.tasks == ResetSome(old(s.tasks), mine, now)
              && s.todos == old(s.todos) - gone
              && s.edges == CleanEdges(old(s.edges), mine, gone)
              && Enumerates(order, mine)
              && s.events == old(s.events) + RolledBackEvents(order, runId)
  {
    order := [];
    if runId !in s.runs {
      return Err(ErrRunNotFound), order;
    }
    var foreign := FindForeignDependency(s, runId);
    if foreign {
      return Err(ErrForeignRunDependency), order;
    }
    order := ResetTasks(s, runId, now);
    DeleteTodos(s, runId);
    r := Ok(());
  }

  method ResetTasks(s: WorkStore, runId: Id, now: Time) returns (ghost order: seq<Id>)
    requires s.Valid()
    modifies s`tasks, s`edges, s`events
    ensures s.Valid()
    ensures var mine := RunTasks(old(s.tasks), runId);
            && s.tasks == ResetSome(old(s.tasks), mine, now)
            && s.edges == CleanEdges(old(s.edges), mine, {})
            && Enumerates(order, mine)
            && s.events == old(s.events) + RolledBackEvents(order, runId)
  {
    ghost var before, edges, mine, done: set<Id> := s.tasks, s.edges, RunTasks(s.tasks, runId), {};
    order := [];
    var rest := RunTasks(s.tasks, runId);
    while rest != {}
      invariant rest <= mine && done == mine - rest
      invariant s.tasks == ResetSome(before, done, now)
      invariant s.edges == CleanEdges(edges, done, {})
      invariant Enumerates(order, done)
      invariant s.events == old(s.events) + RolledBackEvents(order, runId)
      decreases rest
    {
      var t :| t in rest;
      rest := rest - {t};
      ResetOne(before, edges, done, now, order, t, runId);
      LogAssoc(old(s.events), RolledBackEvents(order, runId), [EvTaskRolledBack(t, runId)]);
      RemoveStartedTaskEdges(s, t);
      s.tasks := s.tasks[t := Reset(s.tasks[t], now)];
      s.Publish(EvTaskRolledBack(t, runId));
      order, done := order + [t], done + {t};
    }
  }

  method RemoveStartedTaskEdges(s: WorkStore, t: Id)
    modifies s`edges
    ensures s.edges == CleanEdges(old(s.edges), {t}, {})
  {
    var rest := Sources(s.edges, StartedTask, t);
    while rest != {}
      invariant forall e ::
                  e in s.edges <==> e in old(s.edges) && (e.name == StartedTask && e.to == t ==> e.from in rest)
      decreases rest
    {
      var f :| f in rest;
      rest := rest - {f};
      s.edges := s.edges - {Edge(StartedTask, f, t)};
    }
  }

  lemma ResetOne(before: map<Id, Task>, edges: set<Edge>, done: set<Id>, now: Time, order: seq<Id>, t: Id, runId: Id)
    requires t in before && t !in done && Enumerates(order, done)
    ensures ResetSome(before, done, now)[t] == before[t]
    ensures ResetSome(before, done, now)[t := Reset(before[t], now)] == ResetSome(before, done + {t}, now)
    ensures CleanEdges(CleanEdges(edges, done, {}), {t}, {}) == CleanEdges(edges, done + {t}, {})
    ensures Enumerates(order + [t], done + {t})
    ensures RolledBackEvents(order + [t], runId) == RolledBackEvents(order, runId) + [EvTaskRolledBack(t, runId)]
  {
  }

  method DeleteTodos(s: WorkStore, runId: Id)
    requires s.Valid()
    modifies s`todos, s`edges
    ensures s.Valid()
    ensures s.todos == old(s.todos) - RunTodos(old(s.todos), runId)
    ensures s.edges == CleanEdges(old(s.edges), {}, RunTodos(old(s.todos), runId))
  {
    ghost var gone := RunTodos(s.todos, runId);
    var rest := RunTodos(s.todos, runId);
    while rest != {}
      invariant rest <= gone
      invariant s.todos == old(s.todos) - (gone - rest)
      invariant s.edges == CleanEdges(old(s.edges), {}, gone - rest)
      decreases rest
    {
      var k :| k in rest;
      rest := rest - {k};
      DeleteEntityEdges(s, k);
      s.todos := s.todos - {k};
    }
  }

  /** Every edge that leaves or enters the entity. */
  method DeleteEntityEdges(s: WorkStore, id: Id)
    modifies s`edges
    ensures s.edges == CleanEdges(old(s.edges), {}, {id})
  {
    var rest := (set e | e in s.edges && e.from == id) + (set e | e in s.edges && e.to == id);
    while rest != {}
      invariant forall e :: e in s.edges <==> e in old(s.edges) && (e.from == id || e.to == id ==> e in rest)
      decreases rest
    {
      var e :| e in rest;
      rest := rest - {e};
      s.edges := s.edges - {e};
    }
  }

  const FOREIGN_DEPENDENCY := "run closure contains a task depended on by another workflow run"

  /** The store after cleaning up a run that holds the lock: rolled_back and cleaned up, or rollback_failed with
      everything else as it was if a task of another run depends on a task of this one. */
  ghost predicate Released(
      id: Id, reason: string, now: Time, runs: map<Id, Run>, tasks: map<Id, Task>, todos: map<Id, Todo>,
      edges: set<Edge>,
      r: Result<Run>, runs': map<Id, Run>, tasks': map<Id, Task>, todos': map<Id, Todo>, edges': set<Edge>)
    requires id in runs
  {
    if ForeignDependency(tasks, edges, id) then
      && r == Err(ErrForeignRunDependency)
      && runs' == runs[id := RunLifecycle.StatusWritten(runs[id], RunRollbackFailed, FOREIGN_DEPENDENCY, now)]
      && tasks' == tasks && todos' == todos && edges' == edges
    else
      var mine, gone := RunTasks(tasks, id), RunTodos(todos, id);
      && r == Ok(RunLifecycle.StatusWritten(runs[id], RunRolledBack, reason, now))
      && runs' == runs[id := r.value]
      && tasks' == ResetSome(tasks, mine, now) && todos' == todos - gone && edges' == CleanEdges(edges, mine, gone)
  }

  /** The store after a rollback that was let in. */
  ghost predicate RolledBack(
      id: Id, reason: string, now: Time, runs: map<Id, Run>, tasks: map<Id, Task>, todos: map<Id, Todo>,
      edges: set<Edge>,
      r: Result<Run>, runs': map<Id, Run>, tasks': map<Id, Task>, todos': map<Id, Todo>, edges': set<Edge>)
    requires id in runs
  {
    Released(id, reason, now, runs[id := RunLifecycle.StatusWritten(runs[id], RunRollingBack, reason, now)], tasks,
             todos, edges,
             r, runs', tasks', todos', edges')
  }

  function RollbackError(runs: map<Id, Run>, id: Id): Option<WorkError> {
    if id !in runs then Some(ErrRunNotFound)
    else if runs[id].status == RunRollingBack then Some(ErrRollbackConflict)
    else if !(runs[id].status in {RunFailed, RunCompleted, RunCancelled, RunRollbackFailed})
    then Some(ErrInvalidRunTransition)
    else None
  }

  /** What a rollback comes to, in terms of the edges and tasks there were.  No live task of another run depended on a
      task that is reset. */
  lemma RollbackTells(
      id: Id, reason: string, now: Time, runs: map<Id, Run>, tasks: map<Id, Task>, todos: map<Id, Todo>,
      edges: set<Edge>,
      r: Result<Run>, runs': map<Id, Run>, tasks': map<Id, Task>, todos': map<Id, Todo>, edges': set<Edge>)
    requires id in runs && RolledBack(id, reason, now, runs, tasks, todos, edges, r, runs', tasks', todos', edges')
    ensures r.Err?
            <==> exists e :: && e in edges && e.name == DependsOn && e.from in tasks && e.to in tasks
                             && tasks[e.to].workflowRunId == id
                             && tasks[e.from].workflowRunId != UNSET && tasks[e.from].workflowRunId != id
    ensures id in runs' && runs'[id].status == if r.Ok? then RunRolledBack else RunRollbackFailed
    ensures runs'[id].failureReason == if r.Err? then FOREIGN_DEPENDENCY
                                       else if reason != "" then reason else runs[id].failureReason
    ensures forall other :: other in runs && other != id ==> other in runs' && runs'[other] == runs[other]
    ensures r.Err? ==> tasks' == tasks && todos' == todos && edges' == edges
    ensures forall e :: && e in edges && e.name == DependsOn && e.from in tasks && e.to in tasks
                        && tasks[e.from].workflowRunId != UNSET && tasks[e.from].workflowRunId != id ==>
              e.to in tasks' && tasks'[e.to] == tasks[e.to]
  {
    ForeignExactlyIf(tasks, edges, id);
  }

  /** Refuses unless the run failed, completed, was cancelled or failed to roll back; a refusal changes nothing. */
  method RollbackWorkflowRun(s: WorkStore, id: Id, reason: string, now: Time)
    returns (r: Result<Run>, ghost order: seq<Id>)
    requires s.Valid()
    modifies s`runs, s`tasks, s`todos, s`edges, s`events, s`history
    ensures s.Valid()
    ensures match RollbackError(old(s.runs), id)
            case Some(err) =>
              && r == Err(err) && s.runs == old(s.runs) && s.tasks == old(s.tasks) && s.todos == old(s.todos)
              && s.edges == old(s.edges) && s.events == old(s.events)
            case None =>
              && RolledBack(id, reason, now, old(s.runs), old(s.tasks), old(s.todos), old(s.edges),
                            r, s.runs, s.tasks, s.todos, s.edges)
              && s.events == old(s.events) + RollbackEvents(id, r.Ok?, order)
              && (r.Ok? ==> Enumerates(order, RunTasks(old(s.tasks), id)))
    ensures var blocked := ForeignDependency(old(s.tasks), old(s.edges), id);
            s.history == RunLifecycle.Logged(old(s.runs), old(s.history), id, RunLifecycle.RollbackAsked(blocked))
    // A run that is let in fails to roll back exactly if a live task of another run depends on a live task of this one.
    ensures id in old(s.runs)
            && old(s.runs[id]).status in {RunFailed, RunCompleted, RunCancelled, RunRollbackFailed} ==>
              && (r.Err? <==> old(exists e :: && e in s.edges && e.name == DependsOn
                                              && e.from in s.tasks && e.to in s.tasks
                                              && s.tasks[e.to].workflowRunId == id
                                              && s.tasks[e.from].workflowRunId != UNSET
                                              && s.tasks[e.from].workflowRunId != id))
              && id in s.runs && s.runs[id].status == (if r.Ok? then RunRolledBack else RunRollbackFailed)
              && EvRunStatus(id, RunRollingBack) in s.events[|old(s.events)|..]
              && EvRunStatus(id, s.runs[id].status) in s.events[|old(s.events)|..]
    ensures id !in old(s.runs)
            || old(s.runs[id]).status !in {RunFailed, RunCompleted, RunCancelled, RunRollbackFailed} ==>
              r.Err? && s.runs == old(s.runs)
    // One task.rolled_back for each task of the run, and for no other.
    ensures r.Ok? ==> forall t :: multiset(s.events[|old(s.events)|..])[EvTaskRolledBack(t, id)]
                                  == (if t in old(s.tasks) && old(s.tasks)[t].workflowRunId == id then 1 else 0)
    // No live task of another run depended on a task that has been reset.
    ensures forall e :: && e in old(s.edges) && e.name == DependsOn && e.from in old(s.tasks) && e.to in old(s.tasks)
                        && old(s.tasks)[e.from].workflowRunId != UNSET && old(s.tasks)[e.from].workflowRunId != id ==>
              e.to in s.tasks && s.tasks[e.to] == old(s.tasks)[e.to]
  {
    order := [];
    var refusal := CheckRollback(s, id);
    if refusal.Some? {
      return Err(refusal.value), order;
    }
    r, order := Compensate(s, id, reason, now);
    StatusesAnnounced(old(s.events), id, r.Ok?, order);
    if r.Ok? { RollbackAnnounces(old(s.events), old(s.tasks), id, order); }
    RollbackTells(id, reason, now, old(s.runs), old(s.tasks), old(s.todos), old(s.edges),
                  r, s.runs, s.tasks, s.todos, s.edges);
  }

  lemma StatusesAnnounced(log: seq<Event>, id: Id, done: bool, order: seq<Id>)
    ensures var news := (log + RollbackEvents(id, done, order))[|log|..];
            EvRunStatus(id, RunRollingBack) in news
              && EvRunStatus(id, if done then RunRolledBack else RunRollbackFailed) in news
  {
    var events := RollbackEvents(id, done, order);
    assert (log + events)[|log|..] == events;
    assert events[0] == EvRunStatus(id, RunRollingBack);
    assert events[|events| - 1] == EvRunStatus(id, if done then RunRolledBack else RunRollbackFailed);
  }

  lemma RollbackAnnounces(log: seq<Event>, tasks: map<Id, Task>, id: Id, order: seq<Id>)
    requires Enumerates(order, RunTasks(tasks, id))
    ensures var news := (log + RollbackEvents(id, true, order))[|log|..];
            forall t :: multiset(news)[EvTaskRolledBack(t, id)]
                        == (if t in tasks && tasks[t].workflowRunId == id then 1 else 0)
  {
    var first, mid, last := [EvRunStatus(id, RunRollingBack)], RolledBackEvents(order, id),
    [EvRunStatus(id, RunRolledBack)];
    assert (log + RollbackEvents(id, true, order))[|log|..] == first + (mid + last);
    forall t ensures multiset(first + (mid + last))[EvTaskRolledBack(t, id)]
      == (if t in RunTasks(tasks, id) then 1 else 0) {
      CountBoth(first, mid + last, EvTaskRolledBack(t, id));
      CountBoth(mid, last, EvTaskRolledBack(t, id));
      CountOnce(order, RunTasks(tasks, id), mid, x => EvTaskRolledBack(x, id), t);
    }
  }

  method CheckRollback(s: WorkStore, id: Id) returns (refusal: Option<WorkError>)
    requires s.Valid()
    ensures refusal == RollbackError(s.runs, id)
    ensures refusal == None ==> id in s.runs && s.runs[id].status.CanTransitionTo(RunRollingBack)
    ensures refusal.Some? ==> forall blocked ::
              RunLifecycle.Logged(s.runs, s.history, id, RunLifecycle.RollbackAsked(blocked)) == s.history
  {
    if id !in s.runs {
      return Some(ErrRunNotFound);
    }
    if s.runs[id].status == RunRollingBack {
      return Some(ErrRollbackConflict);
    }
    if !s.runs[id].status.CanTransitionTo(RunRollingBack) {
      return Some(ErrInvalidRunTransition);
    }
    refusal := None;
  }

  function ReleaseEvents(id: Id, done: bool, order: seq<Id>): seq<Event> {
    if done then RolledBackEvents(order, id) + [EvRunStatus(id, RunRolledBack)]
    else [EvRunStatus(id, RunRollbackFailed)]
  }

  function RollbackEvents(id: Id, done: bool, order: seq<Id>): seq<Event> {
    [EvRunStatus(id, RunRollingBack)] + ReleaseEvents(id, done, order)
  }

  /** Takes the rolling_back lock, cleans up, and releases the lock one way or the other. */
  method Compensate(s: WorkStore, id: Id, reason: string, now: Time) returns (r: Result<Run>, ghost order: seq<Id>)
    requires s.Valid() && id in s.runs && s.runs[id].status.CanTransitionTo(RunRollingBack)
    modifies s`runs, s`tasks, s`todos, s`edges, s`events, s`history
    ensures s.Valid()
    ensures RolledBack(id, reason, now, old(s.runs), old(s.tasks), old(s.todos), old(s.edges),
                       r, s.runs, s.tasks, s.todos, s.edges)
    ensures s.events == old(s.events) + RollbackEvents(id, r.Ok?, order)
    ensures r.Ok? ==> Enumerates(order, RunTasks(old(s.tasks), id))
    ensures s.history == RunLifecycle.Logged(old(s.runs), old(s.history), id, RunLifecycle.RollbackAsked(r.Err?))
    ensures r.Err? <==> ForeignDependency(old(s.tasks), old(s.edges), id)
  {
    var locked := RunLifecycle.MoveRun(s, id, RunRollingBack, reason, now);
    r, order := CleanUpAndRelease(s, id, reason, now);
    LogAssoc(old(s.events), [EvRunStatus(id, RunRollingBack)], ReleaseEvents(id, r.Ok?, order));
    TwoSteps(old(s.runs), old(s.history), id, r.Err?);
  }

  lemma OneStep(runs: map<Id, Run>, history: map<Id, seq<RunStatus>>, id: Id, next: RunStatus)
    requires id in runs && id in history && runs[id].status.CanTransitionTo(next)
    ensures RunLifecycle.Logged(runs, history, id, RunLifecycle.StatusSet(next)) == history[id := history[id] + [next]]
  {
  }

  lemma TwoSteps(runs: map<Id, Run>, history: map<Id, seq<RunStatus>>, id: Id, blocked: bool)
    requires id in runs && id in history && runs[id].status.CanTransitionTo(RunRollingBack)
    ensures var locked := RunLifecycle.Logged(runs, history, id, RunLifecycle.StatusSet(RunRollingBack));
            && id in locked
            && locked[id := locked[id] + [if blocked then RunRollbackFailed else RunRolledBack]]
               == RunLifecycle.Logged(runs, history, id, RunLifecycle.RollbackAsked(blocked))
  {
    var h := history[id];
    assert h + [RunRollingBack] + [if blocked then RunRollbackFailed else RunRolledBack]
           == h + [RunRollingBack, if blocked then RunRollbackFailed else RunRolledBack];
  }

  method CleanUpAndRelease(s: WorkStore, id: Id, reason: string, now: Time)
    returns (r: Result<Run>, ghost order: seq<Id>)
    requires s.Valid() && id in s.runs && s.runs[id].status == RunRollingBack
    modifies s`runs, s`tasks, s`todos, s`edges, s`events, s`history
    ensures s.Valid()
    ensures Released(id, reason, now, old(s.runs), old(s.tasks), old(s.todos), old(s.edges),
                     r, s.runs, s.tasks, s.todos, s.edges)
    ensures s.events == old(s.events) + ReleaseEvents(id, r.Ok?, order)
    ensures r.Ok? ==> Enumerates(order, RunTasks(old(s.tasks), id))
    ensures s.history == old(s.history)[id := old(s.history[id])
                                        + [if r.Err? then RunRollbackFailed else RunRolledBack]]
  {
    var cleaned;
    cleaned, order := DeleteWorkflowRunArtifacts(s, id, now);
    if cleaned.Err? {
      OneStep(s.runs, s.history, id, RunRollbackFailed);
      var run := RunLifecycle.MoveRun(s, id, RunRollbackFailed, FOREIGN_DEPENDENCY, now);
      r := Err(cleaned.error);
    } else {
      OneStep(s.runs, s.history, id, RunRolledBack);
      var run := RunLifecycle.MoveRun(s, id, RunRolledBack, reason, now);
      LogAssoc(old(s.events), RolledBackEvents(order, id), [EvRunStatus(id, RunRolledBack)]);
      r := Ok(run);
    }
  }
}
