/** The entities of the orchestration engine and the store they live in.

    Identifiers are strings and "" means "not set".  Timestamps are naturals and 0 means "not set": the
    program compares RFC 3339 UTC strings lexicographically, which orders them like the instants they name
    (section 5.1 of RFC 3339).  The clock and fresh identifiers are parameters of the operations. */
module WorkModel {

  type Id = string
  type Time = nat

  const UNSET: Id := ""
  const NO_TIME: Time := 0

  datatype Option<+T> = None | Some(value: T)

  datatype Result<+T> = Ok(value: T) | Err(error: WorkError)

  datatype WorkError =
    | ErrTaskNotFound
    | ErrTodoNotFound
    | ErrAgentNotFound
    | ErrRunNotFound
    | ErrInvalidRelationship
    | ErrRelationshipNotFound
    | ErrInvalidTask
    | ErrInvalidTaskTransition
    | ErrTaskBlocked
    | ErrInvalidRunTransition
    | ErrRunNameExists
    | ErrRunMismatch
    | ErrRollbackConflict
    | ErrForeignRunDependency
    | ErrBudgetAlreadySet
    | ErrNotRootRun
    | ErrCannotCancelRun
    | ErrProjectNotFound
    | ErrTagNotFound
    | ErrDeliverableNotFound
    | ErrCriteriaNotFound

  /* ---- Tasks ---- */

  datatype TaskStatus =
    | TaskPending | TaskInProgress | TaskCompleted | TaskFailed | TaskCancelled
    | TaskBlocked | TaskAwaitingDirection | TaskSplit
  {
    predicate CanTransitionTo(next: TaskStatus) {
      match this
      case TaskPending => next == TaskInProgress || next == TaskCancelled || next == TaskBlocked
      case TaskBlocked => next == TaskPending || next == TaskCancelled || next == TaskAwaitingDirection
      case TaskInProgress =>
        next == TaskCompleted || next == TaskFailed || next == TaskCancelled
        || next == TaskAwaitingDirection || next == TaskSplit
      case TaskAwaitingDirection => next == TaskInProgress || next == TaskBlocked || next == TaskCancelled
      case TaskFailed => next == TaskInProgress || next == TaskBlocked || next == TaskCancelled
      case TaskSplit => next == TaskCompleted || next == TaskFailed || next == TaskCancelled
      case TaskCompleted => false
      case TaskCancelled => false
    }

    predicate IsTerminal() {
      this == TaskCompleted || this == TaskFailed || this == TaskCancelled
    }
  }

  /** `workflowRunId` is the run anchor; `dueAt`, `estimatedHours` and `completedAt` are written only when set. */
  datatype Task = Task(
    title: string,
    description: string,
    priority: string,
    dueAt: Time,
    context: string,
    estimatedHours: real,
    branchName: string,
    parentTaskId: Id,
    status: TaskStatus,
    workflowRunId: Id,
    recoveryRunsUsed: nat,
    blockerNote: string,
    directionHistory: seq<string>,
    createdAt: Time,
    updatedAt: Time,
    completedAt: Time)

  /* ---- Todos ---- */

  datatype TodoStatus = TodoPending | TodoBlocked | TodoDispatched | TodoCompleted | TodoFailed | TodoSkipped
  {
    /** The two statuses that satisfy a dependency. */
    predicate Satisfies() { this == TodoCompleted || this == TodoSkipped }

    /** Neither settled nor waiting on a sibling: an agent has, or is about to get, this todo. */
    predicate IsLive() { this == TodoPending || this == TodoDispatched }
  }

  datatype Todo = Todo(
    title: string,
    instructions: string,
    ordinality: int,
    dependsOn: seq<int>,
    status: TodoStatus,
    parentTaskId: Id,
    decompRunId: Id,
    workflowRunId: Id,
    createdAt: Time)

  /* ---- Workflow runs ---- */

  datatype RunStatus =
    | RunPending | RunInProgress | RunPaused | RunCompleted | RunFailed
    | RunCancelling | RunCancelled | RunRollingBack | RunRollbackFailed | RunRolledBack
  {
    predicate CanTransitionTo(next: RunStatus) {
      match this
      case RunPending => next == RunInProgress
      case RunInProgress =>
        next == RunCompleted || next == RunFailed || next == RunPaused || next == RunCancelling
      case RunPaused => next == RunInProgress || next == RunFailed || next == RunCancelling
      case RunCancelling => next == RunCancelled
      case RunFailed => next == RunRollingBack
      case RunCompleted => next == RunRollingBack
      case RunCancelled => next == RunRollingBack
      case RunRollingBack => next == RunRolledBack || next == RunRollbackFailed
      case RunRollbackFailed => next == RunRollingBack
      case RunRolledBack => false
    }

    predicate IsTerminal() {
      this == RunCompleted || this == RunFailed || this == RunRolledBack
      || this == RunRollbackFailed || this == RunCancelled
    }
  }

  datatype Run = Run(
    name: string,
    status: RunStatus,
    terminalEvent: string,
    failureReason: string,
    startedAt: Time,
    completedAt: Time,
    createdAt: Time,
    updatedAt: Time,
    parentRunId: Id,
    rootRunId: Id,
    budget: int,
    used: int,
    counted: seq<Id>,
    cancelledBy: string,
    cancelReason: string,
    cancellingUntil: Time)

  /* ---- Edges, agents and published events ---- */

  datatype Label =
    | AssignedTo | Blocks | SubtaskOf | DependsOn | MemberOf | HasTag | HasTodo | TodoAssignedTo
    | StartedTask | StartedTodo | HasDeliverable | HasAcceptanceCriteria | UnknownLabel(text: string)

  /** An edge is its triple: no operation stores the same triple twice. */
  datatype Edge = Edge(name: Label, from: Id, to: Id)

  /** The far ends of the edges with this label that leave `from`. */
  function Targets(edges: set<Edge>, name: Label, from: Id): (r: set<Id>)
    ensures forall x :: x in r <==> Edge(name, from, x) in edges
  {
    var r := set e | e in edges && e.name == name && e.from == from :: e.to;
    assert forall x :: x in r <== Edge(name, from, x) in edges by {
      forall x | Edge(name, from, x) in edges ensures x in r { assert Edge(name, from, x).to == x; }
    }
    r
  }

  /** The far ends of the edges with this label that enter `to`. */
  function Sources(edges: set<Edge>, name: Label, to: Id): (r: set<Id>)
    ensures forall x :: x in r <==> Edge(name, x, to) in edges
  {
    var r := set e | e in edges && e.name == name && e.to == to :: e.from;
    assert forall x :: x in r <== Edge(name, x, to) in edges by {
      forall x | Edge(name, x, to) in edges ensures x in r { assert Edge(name, x, to).from == x; }
    }
    r
  }

  datatype Agent = Agent(slug: string, roleName: string)

  /** Entities that only relationships mention. */
  datatype OtherKind = Project | Tag | Deliverable | AcceptanceCriteria

  datatype Event =
    | EvTaskCreated(taskId: Id, runId: Id)
    | EvTaskUpdated(taskId: Id, runId: Id)
    | EvTaskStatusChanged(taskId: Id, before: TaskStatus, after: TaskStatus, runId: Id)
    | EvTaskCompleted(taskId: Id, terminal: TaskStatus, runId: Id)
    | EvTaskAssigned(taskId: Id, agentId: Id, runId: Id)
    | EvTaskCancelled(taskId: Id, runId: Id, reason: string)
    | EvTaskRolledBack(taskId: Id, runId: Id)
    | EvTaskFailed(taskId: Id, runId: Id, reason: string)
    | EvClassifyFailure(taskId: Id, failureCount: nat, reason: string, runId: Id)
    | EvNeedsDirection(taskId: Id, failureCount: nat, runId: Id)
    | EvTodoDispatched(todoId: Id)
    | EvTodoCompleted(todoId: Id, outcome: TodoStatus)
    | EvRunStatus(runId: Id, reached: RunStatus)
    | EvRunPaused(runId: Id, taskId: Id)
    | EvRunResumed(runId: Id, taskId: Id)
    | EvRelationshipCreated(edge: Edge)

  ghost predicate NoRepeats<T>(s: seq<T>) {
    forall i, j :: 0 <= i < j < |s| ==> s[i] != s[j]
  }

  /** `order` lists each of `ids` once. */
  ghost predicate Enumerates(order: seq<Id>, ids: set<Id>) {
    (forall x :: x in order <==> x in ids) && NoRepeats(order)
  }

  lemma {:induction false} SomeOrder(ids: set<Id>) returns (order: seq<Id>)
    ensures Enumerates(order, ids)
    decreases ids
  {
    order := [];
    if ids != {} {
      var id :| id in ids;
      var rest := SomeOrder(ids - {id});
      order := rest + [id];
    }
  }

  lemma LogAssoc(log: seq<Event>, a: seq<Event>, b: seq<Event>)
    ensures log + a + b == log + (a + b)
  {
  }

  lemma CountBoth(a: seq<Event>, b: seq<Event>, e: Event)
    ensures multiset(a + b)[e] == multiset(a)[e] + multiset(b)[e]
    ensures e !in a ==> multiset(a)[e] == 0
  {
  }

  /** What follows a log, in two parts. */
  lemma NewsCount(log: seq<Event>, a: seq<Event>, b: seq<Event>, e: Event)
    ensures (log + a + b)[|log|..] == a + b
    ensures multiset((log + a + b)[|log|..])[e] == multiset(a)[e] + multiset(b)[e]
  {
    assert (log + a + b)[|log|..] == a + b;
    CountBoth(a, b, e);
  }

  /** Events made one for one of the members of a set. */
  lemma {:induction false} CountOnce(order: seq<Id>, ids: set<Id>, events: seq<Event>, make: Id -> Event, x: Id)
    requires Enumerates(order, ids) && |events| == |order|
    requires forall i :: 0 <= i < |order| ==> events[i] == make(order[i])
    requires forall a, b :: make(a) == make(b) ==> a == b
    ensures multiset(events)[make(x)] == if x in ids then 1 else 0
  {
    if order != [] {
      var n := |order| - 1;
      assert order == order[..n] + [order[n]] && events == events[..n] + [events[n]];
      CountBoth(events[..n], [events[n]], make(x));
      CountOnce(order[..n], ids - {order[n]}, events[..n], make, x);
    }
  }

  /* ---- Run histories ---- */

  /** A run starts pending and moves along edges of the transition table only. */
  ghost predicate LegalHistory(h: seq<RunStatus>) {
    && |h| > 0
    && h[0] == RunPending
    && forall i :: 0 <= i < |h| - 1 ==> h[i].CanTransitionTo(h[i + 1])
  }

  ghost predicate HistoriesMatch(runs: map<Id, Run>, history: map<Id, seq<RunStatus>>) {
    && history.Keys == runs.Keys
    && forall r :: r in runs ==> LegalHistory(history[r]) && history[r][|history[r]| - 1] == runs[r].status
  }

  lemma LongerHistory(h: seq<RunStatus>, next: RunStatus)
    requires LegalHistory(h) && h[|h| - 1].CanTransitionTo(next)
    ensures LegalHistory(h + [next])
  {
  }

  /** Writing one run back, along the table or with its status kept. */
  lemma PutKeepsMatch(runs: map<Id, Run>, history: map<Id, seq<RunStatus>>, id: Id, run: Run)
    requires HistoriesMatch(runs, history) && id in runs
    requires run.status == runs[id].status || runs[id].status.CanTransitionTo(run.status)
    ensures HistoriesMatch(runs[id := run], if run.status == runs[id].status then history
                                            else history[id := history[id] + [run.status]])
  {
    if run.status != runs[id].status { LongerHistory(history[id], run.status); }
  }

  /** Every todo has a creation time and a parent task. */
  predicate TodosComplete(todos: map<Id, Todo>) {
    forall k :: k in todos ==> todos[k].createdAt != NO_TIME && todos[k].parentTaskId != UNSET
  }

  /** The entity and edge store with the log of published events.  Deleted entities are absent from the maps. */
  class WorkStore {
    var tasks: map<Id, Task>
    var todos: map<Id, Todo>
    var runs: map<Id, Run>
    var agents: map<Id, Agent>
    var others: map<Id, OtherKind>
    var edges: set<Edge>
    var events: seq<Event>
    /** Every status each run has had, in order. */
    ghost var history: map<Id, seq<RunStatus>>

    /** No entity has the empty identifier. */
    predicate HasIds()
      reads this
    {
      UNSET !in tasks && UNSET !in todos && UNSET !in runs && UNSET !in agents && UNSET !in others
    }

    ghost predicate Valid()
      reads this
    {
      && HasIds()
      && HistoriesMatch(runs, history)
      && TodosComplete(todos)
    }

    constructor ()
      ensures Valid()
      ensures tasks == map[] && todos == map[] && runs == map[] && agents == map[] && others == map[] && edges == {}
      ensures events == []
    {
      tasks, todos, runs, agents, others, edges, events := map[], map[], map[], map[], map[], {}, [];
      history := map[];
    }

    /** A server-generated identifier: not the empty string and never used, by an entity or by an edge. */
    predicate Fresh(id: Id)
      reads this
    {
      && id != UNSET && id !in tasks && id !in todos && id !in runs && id !in agents && id !in others
      && forall e :: e in edges ==> e.from != id && e.to != id
    }

    method Publish(e: Event)
      modifies `events
      ensures events == old(events) + [e]
    {
      events := events + [e];
    }

    /** Writes a run back.  Only table edges can be written, so the history stays legal. */
    method PutRun(id: Id, run: Run)
      requires Valid() && id in runs
      requires run.status == runs[id].status || runs[id].status.CanTransitionTo(run.status)
      modifies `runs, `history
      ensures Valid()
      ensures runs == old(runs)[id := run]
      ensures run.status == old(runs[id].status) ==> history == old(history)
      ensures run.status != old(runs[id].status)
              ==> history == old(history)[id := old(history[id]) + [run.status]]
    {
      PutKeepsMatch(runs, history, id, run);
      history := if run.status == runs[id].status then history else history[id := history[id] + [run.status]];
      runs := runs[id := run];
    }
  }
}
