/** The retry ladder of one task without todos, over everything that can happen to it in between. */
module RetryLadder {
  import opened WorkModel
  import opened Directions
  import opened Recovery
  import Tasks

  /* ---- Any sequence of failures, classifications and directions of one task without todos ---- */

  /** What happens to the task: agent failures, classifications, directions and any other status update.  `held` says
      that a blocking task keeps it from starting. */
  datatype TaskEvent =
    | AgentFailed(now: Time)
    | Classified(transient: bool, now: Time)
    | DirectionGiven(direction: Direction, held: bool, now: Time)
    | StatusUpdated(next: TaskStatus, held: bool, now: Time)

  datatype Note = Redispatched | AskedToClassify

  /** An update to `next`, refused if the table or an unfinished blocker forbids it. */
  function Moved(task: Task, next: Task, held: bool, now: Time): Task {
    if task.status != next.status
       && (!task.status.CanTransitionTo(next.status)
           || (task.status == TaskPending && next.status == TaskInProgress && held))
    then task else Tasks.Merged(task, next, now)
  }

  /** That is what UpdateTask does in the store. */
  lemma MovedIsUpdateTask(tasks: map<Id, Task>, edges: set<Edge>, t: Id, next: Task, now: Time)
    requires t in tasks
    ensures Moved(tasks[t], next, Tasks.ActiveBlockers(tasks, edges, t) != {}, now)
            == if Tasks.UpdateError(tasks, edges, t, next) == None then Tasks.Merged(tasks[t], next, now) else tasks[t]
  {
  }

  function TaskStep(task: Task, e: TaskEvent): Task {
    match e
    case AgentFailed(now) => FailureCharged(task, now)
    case Classified(transient, now) =>
      if transient then task else Moved(task, task.(status := TaskAwaitingDirection), false, now)
    case DirectionGiven(d, held, now) => Moved(task, Directed(task, d), held, now)
    case StatusUpdated(next, held, now) => Moved(task, task.(status := next), held, now)
  }

  function TaskRun(task: Task, events: seq<TaskEvent>): Task {
    if events == [] then task else TaskStep(TaskRun(task, events[..|events| - 1]), events[|events| - 1])
  }

  function Failures(events: seq<TaskEvent>): nat {
    if events == [] then 0
    else Failures(events[..|events| - 1]) + (if events[|events| - 1].AgentFailed? then 1 else 0)
  }

  /** What the ladder has published, one note for each failure. */
  function Notes(task: Task, events: seq<TaskEvent>): seq<Note> {
    if events == [] then []
    else
      Notes(task, events[..|events| - 1])
      + (if !events[|events| - 1].AgentFailed? then []
         else if LadderEvent(UNSET, TaskRun(task, events), UNSET, "", UNSET).EvTaskAssigned? then [Redispatched]
         else [AskedToClassify])
  }

  /** The n-th failure leaves n charged, whatever happens in between, and publishes exactly one note: a new attempt for
      the first two, a request to classify from the third on.  So the ladder itself never dispatches more than twice. */
  lemma {:induction false} LadderCountsFailures(task: Task, events: seq<TaskEvent>)
    requires task.recoveryRunsUsed == 0
    ensures TaskRun(task, events).recoveryRunsUsed == Failures(events)
    ensures var notes := Notes(task, events);
            && |notes| == Failures(events)
            && forall i :: 0 <= i < |notes| ==> (notes[i] == Redispatched <==> i < MAX_RECOVERY_RUNS - 1)
  {
    if events != [] { LadderCountsFailures(task, events[..|events| - 1]); }
  }

  /** Failures never move the task: they and transient classifications leave its status alone. */
  lemma {:induction false} LadderKeepsStatus(task: Task, events: seq<TaskEvent>)
    requires forall e :: e in events ==> e.AgentFailed? || (e.Classified? && e.transient)
    ensures TaskRun(task, events).status == task.status
  {
    if events != [] { LadderKeepsStatus(task, events[..|events| - 1]); }
  }
}
