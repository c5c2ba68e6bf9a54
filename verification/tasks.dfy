/** Task entities and relationships: task_impl_task.go, relationship.go and the linking half of workflow_run.go. */
module Tasks {
  import opened WorkModel

  /* ---- Relationships ---- */

  /** Whether the edge's end points exist with the types its label asks for; otherwise the error returned. */
  function EndpointError(s: WorkStore, e: Edge): Option<WorkError>
    reads s
  {
    match e.name
    case AssignedTo => PairError(s, e, s.tasks.Keys, ErrTaskNotFound, s.agents.Keys, ErrAgentNotFound)
    case Blocks => PairError(s, e, s.tasks.Keys, ErrTaskNotFound, s.tasks.Keys, ErrTaskNotFound)
    case SubtaskOf => PairError(s, e, s.tasks.Keys, ErrTaskNotFound, s.tasks.Keys, ErrTaskNotFound)
    case DependsOn => PairError(s, e, s.tasks.Keys, ErrTaskNotFound, s.tasks.Keys, ErrTaskNotFound)
    case MemberOf => PairError(s, e, s.tasks.Keys, ErrTaskNotFound, OthersOf(s, Project), ErrProjectNotFound)
    case HasTag => PairError(s, e, s.tasks.Keys, ErrTaskNotFound, OthersOf(s, Tag), ErrTagNotFound)
    case HasTodo => PairError(s, e, s.tasks.Keys, ErrTaskNotFound, s.todos.Keys, ErrTodoNotFound)
    case TodoAssignedTo => PairError(s, e, s.todos.Keys, ErrTodoNotFound, s.agents.Keys, ErrAgentNotFound)
    case StartedTask => PairError(s, e, s.runs.Keys, ErrRunNotFound, s.tasks.Keys, ErrTaskNotFound)
    case StartedTodo => PairError(s, e, s.runs.Keys, ErrRunNotFound, s.todos.Keys, ErrTodoNotFound)
    case HasDeliverable =>
      PairError(s, e, s.tasks.Keys + s.todos.Keys, ErrTaskNotFound, OthersOf(s, Deliverable), ErrDeliverableNotFound)
    case HasAcceptanceCriteria =>
      PairError(s, e, s.tasks.Keys + s.todos.Keys, ErrTaskNotFound,
                OthersOf(s, AcceptanceCriteria), ErrCriteriaNotFound)
    case UnknownLabel(_) => Some(ErrInvalidRelationship)
  }

  function OthersOf(s: WorkStore, kind: OtherKind): set<Id>
    reads s
  {
    set x | x in s.others && s.others[x] == kind
  }

  function PairError(s: WorkStore, e: Edge, froms: set<Id>, fromMissing: WorkError, tos: set<Id>, toMissing: WorkError)
    : Option<WorkError>
    reads s
  {
    var all := s.tasks.Keys + s.todos.Keys + s.runs.Keys + s.agents.Keys + s.others.Keys;
    if e.from == UNSET || e.to == UNSET then Some(ErrInvalidRelationship)
    else if e.from !in all then Some(fromMissing)
    else if e.from !in froms then Some(ErrInvalidRelationship)
    else if e.to !in all then Some(toMissing)
    else if e.to !in tos then Some(ErrInvalidRelationship)
    else None
  }

  /** Typed and idempotent: an edge that is already there is left alone and not published again. */
  method CreateRelationship(s: WorkStore, e: Edge) returns (r: Result<Edge>)
    modifies s`edges, s`events
    ensures match EndpointError(s, e)
            case Some(err) => r == Err(err) && s.edges == old(s.edges) && s.events == old(s.events)
            case None =>
              r == Ok(e) && s.edges == old(s.edges) + {e} && s.events == old(s.events) + NewEdge(old(s.edges), e)
    // Between which entities each relationship may be made.
    ensures r.Ok? <==> && e.from != UNSET && e.to != UNSET
                       && match e.name
                          case AssignedTo => e.from in s.tasks && e.to in s.agents
                          case Blocks => e.from in s.tasks && e.to in s.tasks
                          case SubtaskOf => e.from in s.tasks && e.to in s.tasks
                          case DependsOn => e.from in s.tasks && e.to in s.tasks
                          case MemberOf => e.from in s.tasks && e.to in s.others && s.others[e.to] == Project
                          case HasTag => e.from in s.tasks && e.to in s.others && s.others[e.to] == Tag
                          case HasTodo => e.from in s.tasks && e.to in s.todos
                          case TodoAssignedTo => e.from in s.todos && e.to in s.agents
                          case StartedTask => e.from in s.runs && e.to in s.tasks
                          case StartedTodo => e.from in s.runs && e.to in s.todos
                          case HasDeliverable =>
                            (e.from in s.tasks || e.from in s.todos) && e.to in s.others
                              && s.others[e.to] == Deliverable
                          case HasAcceptanceCriteria =>
                            (e.from in s.tasks || e.from in s.todos) && e.to in s.others
                            && s.others[e.to] == AcceptanceCriteria
                          case UnknownLabel(_) => false
    // The edge is there afterwards exactly if it may be or was, and is announced exactly if it is new.
    ensures s.edges == (if r.Ok? then old(s.edges) + {e} else old(s.edges))
    ensures s.events == old(s.events) + if r.Ok? && e !in old(s.edges) then [EvRelationshipCreated(e)] else []
  {
    var err := EndpointError(s, e);
    if err.Some? {
      return Err(err.value);
    }
    if e !in s.edges {
      s.edges := s.edges + {e};
      s.Publish(EvRelationshipCreated(e));
    }
    return Ok(e);
  }

  method DeleteRelationship(s: WorkStore, e: Edge) returns (r: Result<()>)
    modifies s`edges
    ensures r == if e in old(s.edges) then Ok(()) else Err(ErrRelationshipNotFound)
    ensures s.edges == old(s.edges) - {e}
  {
    if e !in s.edges {
      assert s.edges == s.edges - {e};
      return Err(ErrRelationshipNotFound);
    }
    s.edges := s.edges - {e};
    r := Ok(());
  }

  /** A new edge whose ends are right. */
  method Link(s: WorkStore, e: Edge)
    requires EndpointError(s, e) == None && e !in s.edges
    modifies s`edges, s`events
    ensures s.edges == old(s.edges) + {e} && s.events == old(s.events) + [EvRelationshipCreated(e)]
  {
    var _ := CreateRelationship(s, e);
  }

  /** The edge from a task to a todo that exists can be made exactly if the task exists. */
  lemma TodoEnds(s: WorkStore, parent: Id, id: Id)
    requires s.HasIds() && id in s.todos && parent != UNSET
    ensures EndpointError(s, Edge(HasTodo, parent, id)) == None <==> parent in s.tasks
    ensures forall agent :: agent in s.agents ==> EndpointError(s, Edge(TodoAssignedTo, id, agent)) == None
  {
  }

  /** The relationship.created event for an edge, unless the edge is stored already. */
  function NewEdge(edges: set<Edge>, e: Edge): seq<Event> {
    if e in edges then [] else [EvRelationshipCreated(e)]
  }

  /** Anchors a task to a run by a started_task edge. */
  method LinkTaskToRun(s: WorkStore, runId: Id, taskId: Id) returns (r: Result<Edge>)
    requires s.HasIds()
    modifies s`edges, s`events
    ensures s.HasIds()
    ensures r.Ok? <==> runId in s.runs && taskId in s.tasks
    ensures var e := Edge(StartedTask, runId, taskId);
            if r.Ok? then s.edges == old(s.edges) + {e} && s.events == old(s.events) + NewEdge(old(s.edges), e)
            else s.edges == old(s.edges) && s.events == old(s.events)
  {
    if runId !in s.runs {
      return Err(ErrRunNotFound);
    }
    if taskId !in s.tasks {
      return Err(ErrTaskNotFound);
    }
    r := CreateRelationship(s, Edge(StartedTask, runId, taskId));
  }

  /* ---- The run anchor ---- */

  /** A live task names run `r` exactly when a started_task edge leads from `r` to it. */
  ghost predicate AnchorsAgree(tasks: map<Id, Task>, edges: set<Edge>) {
    forall t, r {:trigger Edge(StartedTask, r, t)} :: t in tasks ==>
      (Edge(StartedTask, r, t) in edges <==> r != UNSET && tasks[t].workflowRunId == r)
  }

  /** Writing one task and at most one started_task edge towards it keeps agreement exactly when the edges that
      then reach the task are the one its run id calls for. */
  lemma AnchorOfOneTask(tasks: map<Id, Task>, edges: set<Edge>, id: Id, task: Task, edges': set<Edge>)
    requires forall t, r {:trigger Edge(StartedTask, r, t)} :: t in tasks && t != id ==>
               (Edge(StartedTask, r, t) in edges <==> r != UNSET && tasks[t].workflowRunId == r)
    requires forall e :: e in edges' <==> e in edges || (e in edges' && e.to == id)
    ensures AnchorsAgree(tasks[id := task], edges') <==>
              forall r :: Edge(StartedTask, r, id) in edges' <==> r != UNSET && task.workflowRunId == r
  {
    assert forall t, r {:trigger Edge(StartedTask, r, t)} :: t != id ==>
      (Edge(StartedTask, r, t) in edges' <==> Edge(StartedTask, r, t) in edges);
  }

  /* ---- Updating a task ---- */

  /** Unfinished tasks that block `id`. */
  function ActiveBlockers(tasks: map<Id, Task>, edges: set<Edge>, id: Id): set<Id> {
    set b | b in Sources(edges, Blocks, id) && b in tasks && !tasks[b].status.IsTerminal()
  }

  function UpdateError(tasks: map<Id, Task>, edges: set<Edge>, id: Id, task: Task): Option<WorkError> {
    if id !in tasks then Some(ErrTaskNotFound)
    else if tasks[id].status != task.status && !tasks[id].status.CanTransitionTo(task.status) then
      Some(ErrInvalidTaskTransition)
    else if tasks[id].status == TaskPending && task.status == TaskInProgress
      && ActiveBlockers(tasks, edges, id) != {} then
      Some(ErrTaskBlocked)
    else None
  }

  /** What the store holds after the patch: the fields that are only written when set keep their stored value. */
  function Merged(current: Task, task: Task, now: Time): Task {
    var completedAt := if task.status.IsTerminal() && task.completedAt == NO_TIME then now else task.completedAt;
    task.(createdAt := current.createdAt,
          updatedAt := now,
          dueAt := if task.dueAt == NO_TIME then current.dueAt else task.dueAt,
          estimatedHours := if task.estimatedHours == 0.0 then current.estimatedHours else task.estimatedHours,
          completedAt := if completedAt == NO_TIME then current.completedAt else completedAt)
  }

  function UpdateEvents(id: Id, current: Task, out: Task): seq<Event> {
    (if current.description != out.description || current.priority != out.priority || current.dueAt != out.dueAt
        || current.estimatedHours != out.estimatedHours || current.context != out.context
     then [EvTaskUpdated(id, out.workflowRunId)] else [])
    + (if current.status == out.status then []
       else [EvTaskStatusChanged(id, current.status, out.status, out.workflowRunId)]
            + (if out.status.IsTerminal() then [EvTaskCompleted(id, out.status, out.workflowRunId)] else []))
  }

  /** The events of an update of `id` that may have been refused. */
  function ChangeEvents(before: map<Id, Task>, after: map<Id, Task>, id: Id): seq<Event> {
    if after == before || id !in before || id !in after then [] else UpdateEvents(id, before[id], after[id])
  }

  /** The started_task edge written when a run id is stamped on a task for the first time. */
  function StampedEdges(runs: map<Id, Run>, id: Id, current: Task, task: Task): set<Edge> {
    if task.workflowRunId != UNSET && current.workflowRunId == UNSET && task.workflowRunId in runs
    then {Edge(StartedTask, task.workflowRunId, id)} else {}
  }

  /** An update keeps every anchor in agreement exactly when it keeps the run id or stamps an existing run on a
      task that had none: replacing or clearing a run id leaves the old started_task edge behind. */
  lemma UpdateKeepsAnchors(tasks: map<Id, Task>, edges: set<Edge>, runs: map<Id, Run>, id: Id, task: Task, now: Time)
    requires id in tasks && AnchorsAgree(tasks, edges)
    ensures var current := tasks[id];
            AnchorsAgree(tasks[id := Merged(current, task, now)], edges + StampedEdges(runs, id, current, task))
            <==> task.workflowRunId == current.workflowRunId
                 || (current.workflowRunId == UNSET && task.workflowRunId in runs)
  {
    var current := tasks[id];
    AnchorOfOneTask(tasks, edges, id, Merged(current, task, now), edges + StampedEdges(runs, id, current, task));
    assert Edge(StartedTask, current.workflowRunId, id) in edges <==> current.workflowRunId != UNSET;
    assert Edge(StartedTask, task.workflowRunId, id) in edges
           <==> task.workflowRunId != UNSET && task.workflowRunId == current.workflowRunId;
  }

  method UpdateTask(s: WorkStore, id: Id, task: Task, now: Time) returns (r: Result<Task>)
    requires s.HasIds()
    modifies s`tasks, s`edges, s`events
    ensures s.HasIds()
    ensures match UpdateError(old(s.tasks), old(s.edges), id, task)
            case Some(err) =>
              r == Err(err) && s.tasks == old(s.tasks) && s.edges == old(s.edges) && s.events == old(s.events)
            case None =>
              var current := old(s.tasks[id]);
              var stamped := StampedEdges(s.runs, id, current, task);
              && r == Ok(Merged(current, task, now))
              && s.tasks == old(s.tasks)[id := r.value]
              && s.edges == old(s.edges) + stamped
              && s.events == old(s.events)
                             + (if stamped == {} then []
                                else NewEdge(old(s.edges), Edge(StartedTask, task.workflowRunId, id)))
                             + UpdateEvents(id, current, r.value)
    // The refusals.
    ensures r == Err(ErrTaskNotFound) <==> id !in old(s.tasks)
    ensures r == Err(ErrInvalidTaskTransition)
            <==> id in old(s.tasks) && old(s.tasks[id]).status != task.status
                 && !old(s.tasks[id]).status.CanTransitionTo(task.status)
    ensures r == Err(ErrTaskBlocked)
            <==> id in old(s.tasks) && old(s.tasks[id]).status == TaskPending && task.status == TaskInProgress
                 && old(exists b :: Edge(Blocks, b, id) in s.edges && b in s.tasks && !s.tasks[b].status.IsTerminal())
    // What is announced: an end once if the task has ended, a change of status once if it has changed, an update once
    // if one of the five fields has, and nothing else about the task.
    ensures r.Ok? ==>
              var was, news, run := old(s.tasks[id]), s.events[|old(s.events)|..], task.workflowRunId;
              && multiset(news)[EvTaskCompleted(id, task.status, run)]
                 == (if was.status != task.status && task.status.IsTerminal() then 1 else 0)
              && multiset(news)[EvTaskStatusChanged(id, was.status, task.status, run)]
                 == (if was.status != task.status then 1 else 0)
              && multiset(news)[EvTaskUpdated(id, run)]
                 == (if was.description != r.value.description || was.priority != r.value.priority
                        || was.dueAt != r.value.dueAt || was.estimatedHours != r.value.estimatedHours
                        || was.context != r.value.context then 1 else 0)
              && forall e :: e in news ==>
                   || e == EvTaskCompleted(id, task.status, run)
                   || e == EvTaskStatusChanged(id, was.status, task.status, run)
                   || e == EvTaskUpdated(id, run)
                   || e == EvRelationshipCreated(Edge(StartedTask, run, id))
  {
    r := PatchTask(s, id, task, now);
    RefusalTells(old(s.tasks), old(s.edges), id, task);
    if r.Ok? {
      UpdateAnnounces(old(s.events), old(s.edges), s.runs, id, old(s.tasks[id]), task, now);
    }
  }

  /** What an accepted update announces. */
  lemma UpdateAnnounces(
      log: seq<Event>, edges: set<Edge>, runs: map<Id, Run>, id: Id, was: Task, task: Task, now: Time)
    ensures var out, run := Merged(was, task, now), task.workflowRunId;
            var links := if StampedEdges(runs, id, was, task) == {} then []
                         else NewEdge(edges, Edge(StartedTask, run, id));
            var news := (log + links + UpdateEvents(id, was, out))[|log|..];
            && multiset(news)[EvTaskCompleted(id, task.status, run)]
               == (if was.status != task.status && task.status.IsTerminal() then 1 else 0)
            && multiset(news)[EvTaskStatusChanged(id, was.status, task.status, run)]
               == (if was.status != task.status then 1 else 0)
            && multiset(news)[EvTaskUpdated(id, run)]
               == (if was.description != out.description || was.priority != out.priority || was.dueAt != out.dueAt
                      || was.estimatedHours != out.estimatedHours || was.context != out.context then 1 else 0)
            && forall e :: e in news ==>
                 || e == EvTaskCompleted(id, task.status, run)
                 || e == EvTaskStatusChanged(id, was.status, task.status, run)
                 || e == EvTaskUpdated(id, run)
                 || e == EvRelationshipCreated(Edge(StartedTask, run, id))
  {
    var out := Merged(was, task, now);
    var links := if StampedEdges(runs, id, was, task) == {} then []
                 else NewEdge(edges, Edge(StartedTask, task.workflowRunId, id));
    assert (log + links + UpdateEvents(id, was, out))[|log|..] == links + UpdateEvents(id, was, out);
    UpdateTells(links, id, was, out);
  }

  /** The check and the write. */
  method PatchTask(s: WorkStore, id: Id, task: Task, now: Time) returns (r: Result<Task>)
    requires s.HasIds()
    modifies s`tasks, s`edges, s`events
    ensures s.HasIds()
    ensures match UpdateError(old(s.tasks), old(s.edges), id, task)
            case Some(err) =>
              r == Err(err) && s.tasks == old(s.tasks) && s.edges == old(s.edges) && s.events == old(s.events)
            case None =>
              var current := old(s.tasks[id]);
              var stamped := StampedEdges(s.runs, id, current, task);
              && r == Ok(Merged(current, task, now))
              && s.tasks == old(s.tasks)[id := r.value]
              && s.edges == old(s.edges) + stamped
              && s.events == old(s.events)
                             + (if stamped == {} then []
                                else NewEdge(old(s.edges), Edge(StartedTask, task.workflowRunId, id)))
                             + UpdateEvents(id, current, r.value)
  {
    var refusal := CheckUpdate(s, id, task);
    if refusal.Some? {
      return Err(refusal.value);
    }
    var current := s.tasks[id];
    var out := Merged(current, task, now);
    s.tasks := s.tasks[id := out];
    if out.workflowRunId != UNSET && current.workflowRunId == UNSET {
      var _ := LinkTaskToRun(s, out.workflowRunId, id);
    }
    PublishUpdate(s, id, current, out);
    return Ok(out);
  }

  /** When each refusal is given. */
  lemma RefusalTells(tasks: map<Id, Task>, edges: set<Edge>, id: Id, task: Task)
    ensures var refusal := UpdateError(tasks, edges, id, task);
            && (refusal == Some(ErrTaskNotFound) <==> id !in tasks)
            && (refusal == Some(ErrInvalidTaskTransition)
                <==> id in tasks && tasks[id].status != task.status && !tasks[id].status.CanTransitionTo(task.status))
            && (refusal == Some(ErrTaskBlocked)
                <==> id in tasks && tasks[id].status == TaskPending && task.status == TaskInProgress
                     && exists b :: Edge(Blocks, b, id) in edges && b in tasks && !tasks[b].status.IsTerminal())
  {
    if b :| Edge(Blocks, b, id) in edges && b in tasks && !tasks[b].status.IsTerminal() {
      assert b in ActiveBlockers(tasks, edges, id);
    }
    if b :| b in ActiveBlockers(tasks, edges, id) { assert Edge(Blocks, b, id) in edges; }
  }

  /** What the events of an update say. */
  lemma UpdateTells(links: seq<Event>, id: Id, was: Task, out: Task)
    requires forall e :: e in links ==> e == EvRelationshipCreated(Edge(StartedTask, out.workflowRunId, id))
    ensures var news, run := links + UpdateEvents(id, was, out), out.workflowRunId;
            && multiset(news)[EvTaskCompleted(id, out.status, run)]
               == (if was.status != out.status && out.status.IsTerminal() then 1 else 0)
            && multiset(news)[EvTaskStatusChanged(id, was.status, out.status, run)]
               == (if was.status != out.status then 1 else 0)
            && multiset(news)[EvTaskUpdated(id, run)]
               == (if was.description != out.description || was.priority != out.priority || was.dueAt != out.dueAt
                      || was.estimatedHours != out.estimatedHours || was.context != out.context then 1 else 0)
            && forall e :: e in news ==>
                 || e == EvTaskCompleted(id, out.status, run)
                 || e == EvTaskStatusChanged(id, was.status, out.status, run)
                 || e == EvTaskUpdated(id, run)
                 || e == EvRelationshipCreated(Edge(StartedTask, run, id))
  {
    var run := out.workflowRunId;
    var changed := was.description != out.description || was.priority != out.priority || was.dueAt != out.dueAt
                   || was.estimatedHours != out.estimatedHours || was.context != out.context;
    var updated := if changed then [EvTaskUpdated(id, run)] else [];
    var moved := if was.status == out.status then [] else [EvTaskStatusChanged(id, was.status, out.status, run)];
    var ended := if was.status != out.status && out.status.IsTerminal() then [EvTaskCompleted(id, out.status, run)]
    else [];
    assert UpdateEvents(id, was, out) == updated + (moved + ended);
    PartsTell(links, updated, moved, ended, EvTaskUpdated(id, run),
              EvTaskStatusChanged(id, was.status, out.status, run),
              EvTaskCompleted(id, out.status, run));
  }

  /** Events of four kinds, one of each of three kinds at most. */
  lemma PartsTell(
      links: seq<Event>, updated: seq<Event>, moved: seq<Event>, ended: seq<Event>, update: Event, move: Event,
      end: Event)
    requires forall e :: e in links ==> e.EvRelationshipCreated?
    requires update.EvTaskUpdated? && move.EvTaskStatusChanged? && end.EvTaskCompleted?
    requires updated in {[], [update]} && moved in {[], [move]} && ended in {[], [end]}
    ensures var news := multiset(links + (updated + (moved + ended)));
            news[update] == |updated| && news[move] == |moved| && news[end] == |ended|
    ensures forall e :: e in links + (updated + (moved + ended)) ==> e in links || e == update || e == move || e == end
  {
    CountAll(links, updated, moved, ended, update);
    CountAll(links, updated, moved, ended, move);
    CountAll(links, updated, moved, ended, end);
  }

  lemma CountAll(a: seq<Event>, b: seq<Event>, c: seq<Event>, d: seq<Event>, e: Event)
    ensures multiset(a + (b + (c + d)))[e] == multiset(a)[e] + multiset(b)[e] + multiset(c)[e] + multiset(d)[e]
    ensures e !in a ==> multiset(a)[e] == 0
  {
  }

  lemma UpdateKinds(id: Id, was: Task, out: Task)
    ensures forall e :: e in UpdateEvents(id, was, out) ==>
              e.EvTaskUpdated? || e.EvTaskStatusChanged? || e.EvTaskCompleted?
  {
  }

  /** What the store holds after an update: the time of creation stays, a due date, an estimate and an end once set stay
      unless a new one is given, and a task that ends has an end. */
  lemma MergeTells(current: Task, task: Task, now: Time)
    ensures var out := Merged(current, task, now);
            && out == task.(createdAt := current.createdAt, updatedAt := now, dueAt := out.dueAt,
                            estimatedHours := out.estimatedHours, completedAt := out.completedAt)
            && out.dueAt in {task.dueAt, current.dueAt} && (task.dueAt != NO_TIME ==> out.dueAt == task.dueAt)
            && (current.dueAt != NO_TIME ==> out.dueAt != NO_TIME)
            && out.estimatedHours in {task.estimatedHours, current.estimatedHours}
            && (task.estimatedHours != 0.0 ==> out.estimatedHours == task.estimatedHours)
            && (current.estimatedHours != 0.0 ==> out.estimatedHours != 0.0)
            && (task.completedAt != NO_TIME ==> out.completedAt == task.completedAt)
            && (task.completedAt == NO_TIME && task.status.IsTerminal() && now != NO_TIME ==> out.completedAt == now)
            && (task.completedAt == NO_TIME && !task.status.IsTerminal() ==> out.completedAt == current.completedAt)
  {
  }

  method CheckUpdate(s: WorkStore, id: Id, task: Task) returns (refusal: Option<WorkError>)
    ensures refusal == UpdateError(s.tasks, s.edges, id, task)
  {
    if id !in s.tasks {
      return Some(ErrTaskNotFound);
    }
    var current := s.tasks[id];
    if current.status != task.status && !current.status.CanTransitionTo(task.status) {
      return Some(ErrInvalidTaskTransition);
    }
    if current.status == TaskPending && task.status == TaskInProgress {
      var blockers := FindActiveBlockers(s, id);
      if blockers != [] {
        assert blockers[0] in ActiveBlockers(s.tasks, s.edges, id);
        return Some(ErrTaskBlocked);
      }
    }
    refusal := None;
  }

  /** UpdateTask for a task read from the store, whose run id the caller has not touched; whether it was accepted. */
  method UpdateInPlace(s: WorkStore, id: Id, task: Task, now: Time) returns (ok: bool)
    requires s.HasIds() && id in s.tasks && task.workflowRunId == s.tasks[id].workflowRunId
    modifies s`tasks, s`edges, s`events
    ensures s.HasIds() && s.edges == old(s.edges)
    ensures ok <==> UpdateError(old(s.tasks), s.edges, id, task) == None
    ensures s.tasks == if ok then old(s.tasks)[id := Merged(old(s.tasks[id]), task, now)] else old(s.tasks)
    ensures s.events == old(s.events) + (if ok then UpdateEvents(id, old(s.tasks[id]), s.tasks[id]) else [])
  {
    var r := PatchTask(s, id, task, now);
    ok := r.Ok?;
  }

  method PublishUpdate(s: WorkStore, id: Id, current: Task, out: Task)
    modifies s`events
    ensures s.events == old(s.events) + UpdateEvents(id, current, out)
  {
    if current.description != out.description || current.priority != out.priority || current.dueAt != out.dueAt
       || current.estimatedHours != out.estimatedHours || current.context != out.context {
      s.Publish(EvTaskUpdated(id, out.workflowRunId));
    }
    if current.status != out.status {
      s.Publish(EvTaskStatusChanged(id, current.status, out.status, out.workflowRunId));
      if out.status.IsTerminal() {
        s.Publish(EvTaskCompleted(id, out.status, out.workflowRunId));
      }
    }
  }

  method FindActiveBlockers(s: WorkStore, id: Id) returns (blockers: seq<Id>)
    ensures forall b :: b in blockers <==> b in ActiveBlockers(s.tasks, s.edges, id)
  {
    blockers := [];
    var rest := Sources(s.edges, Blocks, id);
    while rest != {}
      invariant rest <= Sources(s.edges, Blocks, id)
      invariant forall b :: b in blockers <==> b in ActiveBlockers(s.tasks, s.edges, id) - rest
      decreases rest
    {
      var b :| b in rest;
      rest := rest - {b};
      if b in s.tasks && !s.tasks[b].status.IsTerminal() {
        blockers := blockers + [b];
      }
    }
  }

  /* ---- Creating a task ---- */

  function NewTask(task: Task, now: Time): Task {
    task.(status := TaskPending, createdAt := now, updatedAt := now, completedAt := NO_TIME,
          priority := if task.priority == "" then "medium" else task.priority)
  }

  /** The edges after creating a task that names `runId`: linked only if the run exists. */
  function CreationEdges(runs: map<Id, Run>, runId: Id, id: Id): set<Edge> {
    if runId in runs then {Edge(StartedTask, runId, id)} else {}
  }

  /** A new task starts in agreement exactly when it names no run or an existing one. */
  lemma CreationKeepsAnchors(tasks: map<Id, Task>, edges: set<Edge>, runs: map<Id, Run>, id: Id, task: Task, now: Time)
    requires AnchorsAgree(tasks, edges) && UNSET !in runs
    requires id !in tasks && forall e :: e in edges ==> e.from != id && e.to != id
    ensures AnchorsAgree(tasks[id := NewTask(task, now)], edges + CreationEdges(runs, task.workflowRunId, id))
            <==> task.workflowRunId == UNSET || task.workflowRunId in runs
  {
    AnchorOfOneTask(tasks, edges, id, NewTask(task, now), edges + CreationEdges(runs, task.workflowRunId, id));
    assert Edge(StartedTask, task.workflowRunId, id) !in edges;
  }

  method CreateTask(s: WorkStore, id: Id, task: Task, now: Time)
    requires s.HasIds() && s.Fresh(id)
    modifies s`tasks, s`edges, s`events
    ensures s.HasIds()
    ensures s.tasks == old(s.tasks)[id := NewTask(task, now)]
    ensures s.edges == old(s.edges) + CreationEdges(s.runs, task.workflowRunId, id)
    ensures s.events
            == old(s.events)
               + (if task.workflowRunId in s.runs
                  then [EvRelationshipCreated(Edge(StartedTask, task.workflowRunId, id))] else [])
               + [EvTaskCreated(id, task.workflowRunId)]
    ensures var made := s.tasks[id];
            && made.status == TaskPending && made.createdAt == now && made.updatedAt == now
              && made.completedAt == NO_TIME
            && made.priority == (if task.priority == "" then "medium" else task.priority)
            && task == made.(status := task.status, createdAt := task.createdAt, updatedAt := task.updatedAt,
                             completedAt := task.completedAt, priority := task.priority)
  {
    s.tasks := s.tasks[id := NewTask(task, now)];
    if task.workflowRunId != UNSET {
      var _ := LinkTaskToRun(s, task.workflowRunId, id);
    }
    s.Publish(EvTaskCreated(id, task.workflowRunId));
  }

  /** Takes the task away and leaves its edges where they are. */
  method DeleteTask(s: WorkStore, id: Id) returns (r: Result<()>)
    requires s.HasIds()
    modifies s`tasks
    ensures s.HasIds()
    ensures r == if id in old(s.tasks) then Ok(()) else Err(ErrTaskNotFound)
    ensures s.tasks == old(s.tasks) - {id}
  {
    if id !in s.tasks {
      assert s.tasks == s.tasks - {id};
      return Err(ErrTaskNotFound);
    }
    s.tasks := s.tasks - {id};
    r := Ok(());
  }
}
