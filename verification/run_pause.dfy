/** Pausing over whole histories: which tasks of a run can await direction while the run is in progress, and when a
    paused run is left with nobody to wait for (EscalateToHumanDirection, handleTaskDirection and maybeResumeWorkflowRun
    in internal/server/event_dispatcher.go).  What each operation does to such a history is in run_floor.dfy. */
module RunPause {
  import opened WorkModel

  /* ---- A run and the statuses of its tasks ---- */

  datatype Floor = Floor(run: RunStatus, tasks: map<Id, TaskStatus>)

  function Waiters(f: Floor): (r: set<Id>)
    ensures forall t :: t in r <==> t in f.tasks && f.tasks[t] == TaskAwaitingDirection
  {
    set t | t in f.tasks && f.tasks[t] == TaskAwaitingDirection
  }

  /** Escalations, directions, and the check for a resumption alone; any other change of a task's status; a task that
      comes to the run or leaves it; and any change of the run's status by the table: events, cancellation, timeouts,
      rollbacks, and changes by hand. */
  datatype FloorEvent =
    | Escalated(task: Id)
    | Retried(task: Id, held: bool)
    | CancelDirected(task: Id)
    | MarkedBlocked(task: Id)
    | Rechecked(cancelled: bool)
    | StatusMoved(task: Id, next: TaskStatus)
    | Joined(task: Id, status: TaskStatus)
    | Left(task: Id)
    | RunMoved(reached: RunStatus)

  /** Whether an update of a task's status is accepted. */
  predicate Takes(f: Floor, t: Id, next: TaskStatus, held: bool) {
    && t in f.tasks
    && (f.tasks[t] == next
        || (f.tasks[t].CanTransitionTo(next) && !(f.tasks[t] == TaskPending && next == TaskInProgress && held)))
  }

  function WithTask(f: Floor, t: Id, next: TaskStatus): Floor {
    f.(tasks := f.tasks[t := next])
  }

  function Resumed(f: Floor, cancelled: bool): Floor {
    if f.run == RunPaused && Waiters(f) == {} then f.(run := if cancelled then RunFailed else RunInProgress) else f
  }

  function FloorStep(f: Floor, e: FloorEvent): Floor {
    match e
    case Escalated(t) =>
      if Takes(f, t, TaskAwaitingDirection, false)
      then WithTask(f, t, TaskAwaitingDirection).(run := if f.run == RunInProgress then RunPaused else f.run) else f
    case Retried(t, held) =>
      if Takes(f, t, TaskInProgress, held) then Resumed(WithTask(f, t, TaskInProgress), false) else f
    case CancelDirected(t) =>
      if Takes(f, t, TaskCancelled, false) then Resumed(WithTask(f, t, TaskCancelled), true) else f
    case MarkedBlocked(t) => if Takes(f, t, TaskBlocked, false) then WithTask(f, t, TaskBlocked) else f
    case Rechecked(cancelled) => Resumed(f, cancelled)
    case StatusMoved(t, next) => if t in f.tasks then WithTask(f, t, next) else f
    case Joined(t, status) => WithTask(f, t, status)
    case Left(t) => f.(tasks := f.tasks - {t})
    case RunMoved(next) => if f.run.CanTransitionTo(next) then f.(run := next) else f
  }

  function FloorRun(f: Floor, events: seq<FloorEvent>): Floor {
    if events == [] then f else FloorStep(FloorRun(f, events[..|events| - 1]), events[|events| - 1])
  }

  /* ---- Who can await direction while the run is in progress ---- */

  /** The run is put in progress otherwise than by a resumption: by the first assignment, or by hand. */
  predicate Starts(f: Floor, e: FloorEvent) {
    e == RunMoved(RunInProgress) && f.run.CanTransitionTo(RunInProgress)
  }

  /** The tasks that an event leaves awaiting direction in a run in progress: those that wait when the run is started;
      one that joins the run waiting; and one that is parked otherwise than by an escalation. */
  function Exposes(f: Floor, e: FloorEvent): set<Id> {
    if Starts(f, e) then Waiters(f)
    else if f.run != RunInProgress then {}
    else match e
      case Joined(t, status) => if status == TaskAwaitingDirection && t !in Waiters(f) then {t} else {}
      case StatusMoved(t, next) =>
        if next == TaskAwaitingDirection && t in f.tasks && t !in Waiters(f) then {t} else {}
      case _ => {}
  }

  /** The tasks so exposed that have awaited direction ever since. */
  function Exposed(f: Floor, events: seq<FloorEvent>): set<Id> {
    if events == [] then if f.run == RunInProgress then Waiters(f) else {}
    else
      var rest, last := events[..|events| - 1], events[|events| - 1];
      var before := FloorRun(f, rest);
      (Exposed(f, rest) + Exposes(before, last)) * Waiters(FloorStep(before, last))
  }

  lemma StepKeepsExposed(f: Floor, e: FloorEvent, exposed: set<Id>)
    requires f.run == RunInProgress ==> Waiters(f) == exposed
    ensures var after := FloorStep(f, e);
            after.run == RunInProgress ==> Waiters(after) == (exposed + Exposes(f, e)) * Waiters(after)
  {
  }

  /** While a run is in progress the tasks of it that await direction are exactly those exposed: every escalation pauses
      the run, and it is resumed only when nobody is left. */
  lemma {:induction false} InProgressWaiters(f: Floor, events: seq<FloorEvent>)
    ensures var after := FloorRun(f, events); after.run == RunInProgress ==> Waiters(after) == Exposed(f, events)
  {
    if events != [] {
      var rest, last := events[..|events| - 1], events[|events| - 1];
      InProgressWaiters(f, rest);
      StepKeepsExposed(FloorRun(f, rest), last, Exposed(f, rest));
    }
  }

  predicate Clean(f: Floor) { f.run == RunInProgress ==> Waiters(f) == {} }

  /** At every moment of the history. */
  predicate AlwaysClean(f: Floor, events: seq<FloorEvent>) {
    Clean(FloorRun(f, events)) && (events == [] || AlwaysClean(f, events[..|events| - 1]))
  }

  predicate NeverExposes(f: Floor, events: seq<FloorEvent>) {
    events == []
    || var rest, last := events[..|events| - 1], events[|events| - 1];
       NeverExposes(f, rest) && Exposes(FloorRun(f, rest), last) == {}
  }

  lemma StepKeepsClean(f: Floor, e: FloorEvent)
    requires Clean(f)
    ensures Clean(FloorStep(f, e)) <==> Exposes(f, e) == {}
  {
    var after := FloorStep(f, e);
    if Exposes(f, e) != {} {
      var t :| t in Exposes(f, e);
      assert t in Waiters(after);
    }
    StepKeepsExposed(f, e, {});
  }

  /** At no moment of a history is a run in progress with a task awaiting direction, if and only if it is so at the
      start, the run is never started with a task parked, no parked task joins it while it is in progress, and none of
      its tasks is then parked but by an escalation. */
  lemma {:induction false} AlwaysCleanExactlyIf(f: Floor, events: seq<FloorEvent>)
    ensures AlwaysClean(f, events) <==> Clean(f) && NeverExposes(f, events)
  {
    if events != [] {
      var rest, last := events[..|events| - 1], events[|events| - 1];
      AlwaysCleanExactlyIf(f, rest);
      if Clean(FloorRun(f, rest)) { StepKeepsClean(FloorRun(f, rest), last); }
    }
  }

  /** Events that expose nobody, whatever the run is like. */
  predicate Harmless(e: FloorEvent) {
    match e
    case StatusMoved(_, next) => next != TaskAwaitingDirection
    case Joined(_, status) => status != TaskAwaitingDirection
    case RunMoved(next) => next != RunInProgress
    case _ => true
  }

  lemma {:induction false} HarmlessKeepsClean(f: Floor, events: seq<FloorEvent>)
    requires Clean(f) && forall e :: e in events ==> Harmless(e)
    ensures AlwaysClean(f, events)
  {
    if events != [] {
      var rest, last := events[..|events| - 1], events[|events| - 1];
      assert forall e :: e in rest ==> e in events;
      assert last in events;
      HarmlessKeepsClean(f, rest);
      assert Clean(FloorRun(f, rest)) by { assert AlwaysClean(f, rest); }
      StepKeepsClean(FloorRun(f, rest), last);
    }
  }

  /** An exception: a task is escalated before the first assignment has started the run. */
  lemma EarlyEscalationStays(t: Id)
    ensures var events := [Escalated(t), RunMoved(RunInProgress)];
            var after := FloorRun(Floor(RunPending, map[t := TaskBlocked]), events);
            after.run == RunInProgress && Waiters(after) == {t} && !Clean(after)
  {
    var f := Floor(RunPending, map[t := TaskBlocked]);
    var events := [Escalated(t), RunMoved(RunInProgress)];
    assert events[..1] == [Escalated(t)];
    assert FloorRun(f, events[..1]) == FloorStep(FloorRun(f, []), Escalated(t));
    assert FloorRun(f, events) == FloorStep(FloorRun(f, events[..1]), RunMoved(RunInProgress));
  }

  /** Another: a task that was parked while it had no run is assigned to one in progress. */
  lemma ParkedTaskJoins(f: Floor, t: Id)
    requires f.run == RunInProgress && Clean(f)
    ensures var after := FloorRun(f, [Joined(t, TaskAwaitingDirection)]);
            after.run == RunInProgress && Waiters(after) == {t} && !Clean(after)
  {
    OneEvent(f, Joined(t, TaskAwaitingDirection));
    assert t in Waiters(FloorStep(f, Joined(t, TaskAwaitingDirection)));
  }

  /* ---- A paused run with nobody to wait for ---- */

  predicate Stranded(f: Floor) { f.run == RunPaused && Waiters(f) == {} }

  /** Moves or removes a task without looking at the run. */
  predicate Quiet(e: FloorEvent) {
    match e
    case MarkedBlocked(_) => true
    case StatusMoved(_, next) => next != TaskAwaitingDirection
    case Joined(_, status) => status != TaskAwaitingDirection
    case Left(_) => true
    case _ => false
  }

  ghost predicate OnlyWaiter(f: Floor, t: Id) {
    t in Waiters(f) && forall u :: u in Waiters(f) ==> u == t
  }

  /** A run is left paused with nobody awaiting direction exactly when its last waiting task is marked blocked, moved by
      anything but a retry or a cancel (the skip of a todo among them), deleted or unlinked, or when it is paused while
      nobody in it waits. */
  lemma StrandedExactlyIf(f: Floor, e: FloorEvent)
    requires !Stranded(f)
    ensures Stranded(FloorStep(f, e))
            <==> || (f.run == RunPaused && Quiet(e) && OnlyWaiter(f, e.task))
                 || (f.run == RunInProgress && e == RunMoved(RunPaused) && Waiters(f) == {})
  {
    var after := FloorStep(f, e);
    if e.Escalated? && Takes(f, e.task, TaskAwaitingDirection, false) {
      assert e.task in Waiters(after);
    } else if Quiet(e) && f.run == RunPaused {
      QuietLeaves(f, e);
      var t :| t in Waiters(f);
      if Waiters(after) != {} { var other :| other in Waiters(after); }
      if OnlyWaiter(f, e.task) { assert forall u :: u !in Waiters(after); }
      else { assert exists u :: u in Waiters(f) && u != e.task; }
    } else if e.StatusMoved? && e.next == TaskAwaitingDirection && e.task in f.tasks {
      assert e.task in Waiters(after);
    } else if e.Joined? && e.status == TaskAwaitingDirection {
      assert e.task in Waiters(after);
    }
  }

  lemma QuietLeaves(f: Floor, e: FloorEvent)
    requires Quiet(e)
    ensures FloorStep(f, e).run == f.run
    ensures forall u :: u in Waiters(FloorStep(f, e)) <==> u in Waiters(f) && u != e.task
  {
  }

  /** It stays so until a retry or a cancel of some task is accepted, the check for a resumption is made otherwise (by a
      skip that finds no failed todo), a task is escalated or parked or joins the run waiting, or the run itself is
      moved. */
  lemma StrandedUntil(f: Floor, e: FloorEvent)
    requires Stranded(f)
    ensures !Stranded(FloorStep(f, e))
            <==> match e
                 case Escalated(t) => Takes(f, t, TaskAwaitingDirection, false)
                 case Retried(t, held) => Takes(f, t, TaskInProgress, held)
                 case CancelDirected(t) => Takes(f, t, TaskCancelled, false)
                 case Rechecked(_) => true
                 case StatusMoved(t, next) => t in f.tasks && next == TaskAwaitingDirection
                 case Joined(_, status) => status == TaskAwaitingDirection
                 case RunMoved(next) => RunPaused.CanTransitionTo(next)
                 case _ => false
  {
    var after := FloorStep(f, e);
    if Quiet(e) { QuietLeaves(f, e); }
    match e
    case Escalated(t) => if Takes(f, t, TaskAwaitingDirection, false) { assert t in Waiters(after); }
    case Retried(t, held) => assert Waiters(WithTask(f, t, TaskInProgress)) == {};
    case CancelDirected(t) => assert Waiters(WithTask(f, t, TaskCancelled)) == {};
    case StatusMoved(t, next) => if t in f.tasks && next == TaskAwaitingDirection { assert t in Waiters(after); }
    case Joined(t, status) => if status == TaskAwaitingDirection { assert t in Waiters(after); }
    case _ =>
  }

  /* ---- Histories of one, two or more events ---- */

  lemma OneEvent(f: Floor, e: FloorEvent)
    ensures FloorRun(f, [e]) == FloorStep(f, e)
  {
    assert [e][..0] == [];
  }

  lemma {:induction false} RunsJoin(f: Floor, first: seq<FloorEvent>, more: seq<FloorEvent>)
    ensures FloorRun(f, first + more) == FloorRun(FloorRun(f, first), more)
  {
    if more == [] {
      assert first + more == first;
    } else {
      var rest, last := more[..|more| - 1], more[|more| - 1];
      assert (first + more)[..|first + more| - 1] == first + rest;
      RunsJoin(f, first, rest);
    }
  }
}
