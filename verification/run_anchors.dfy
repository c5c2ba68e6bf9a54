/** The run anchor of a task over whole histories: the run id written on the task and the started_task edge that leads
    to it (task_impl_task.go, assignment.go, workflow_run.go and workflow_run_rollback.go). */
module RunAnchors {
  import opened WorkModel
  import Rollback
  import RunClosure
  import RunLifecycle
  import TaskGate
  import Tasks
  import TodoScheduler

  /* ---- Only what anchors are about ---- */

  /** The run id on each task, the started_task edges as pairs (run, task), and the runs there are. */
  datatype Ledger = Ledger(runOf: map<Id, Id>, links: set<(Id, Id)>, runs: set<Id>)

  function Links(edges: set<Edge>): (r: set<(Id, Id)>)
    ensures forall run, t :: (run, t) in r <==> Edge(StartedTask, run, t) in edges
  {
    var r := set e | e in edges && e.name == StartedTask :: (e.from, e.to);
    assert forall run, t :: Edge(StartedTask, run, t) in edges ==> (run, t) in r by {
      forall run, t | Edge(StartedTask, run, t) in edges ensures (run, t) in r {
        var e := Edge(StartedTask, run, t);
        assert e in edges && (e.from, e.to) == (run, t);
      }
    }
    r
  }

  function LedgerOf(tasks: map<Id, Task>, edges: set<Edge>, runs: map<Id, Run>): Ledger {
    Ledger(map t | t in tasks :: tasks[t].workflowRunId, Links(edges), runs.Keys)
  }

  /* ---- Histories ---- */

  /** `RunNamed` is an assignment that names a run, `RunWritten` an update with whatever run id its caller put there, ""
      included; everything else that happens to tasks is silent here. */
  datatype AnchorEvent =
    | RunMade(run: Id)
    | TaskMade(task: Id, run: Id)
    | RunNamed(task: Id, run: Id)
    | RunWritten(task: Id, run: Id)
    | RunCleaned(run: Id)
    | TaskDeleted(task: Id)

  /** The edge written together with a run id: none if the run does not exist. */
  function NewLink(l: Ledger, task: Id, run: Id): set<(Id, Id)> {
    if run in l.runs then {(run, task)} else {}
  }

  function Apply(l: Ledger, e: AnchorEvent): Ledger {
    match e
    case RunMade(run) => l.(runs := l.runs + {run})
    case TaskMade(task, run) => l.(runOf := l.runOf[task := run], links := l.links + NewLink(l, task, run))
    case RunNamed(task, run) =>
      if run == UNSET || task !in l.runOf || l.runOf[task] != UNSET then l
      else l.(runOf := l.runOf[task := run], links := l.links + NewLink(l, task, run))
    case RunWritten(task, run) =>
      if task !in l.runOf then l
      else l.(runOf := l.runOf[task := run],
              links := l.links + (if run != UNSET && l.runOf[task] == UNSET then NewLink(l, task, run) else {}))
    case RunCleaned(run) =>
      l.(runOf := map t | t in l.runOf :: if l.runOf[t] == run then UNSET else l.runOf[t],
         links := set x | x in l.links && !(x.1 in l.runOf && l.runOf[x.1] == run))
    case TaskDeleted(task) => l.(runOf := l.runOf - {task})
  }

  /** New entities get new identifiers, and no update replaces or clears a run id. */
  ghost predicate Admissible(l: Ledger, e: AnchorEvent) {
    match e
    case RunMade(run) => run != UNSET && run !in l.runs && forall t :: t in l.runOf ==> l.runOf[t] != run
    case TaskMade(task, run) => task !in l.runOf && forall r :: (r, task) !in l.links
    case RunNamed(task, run) => true
    case RunWritten(task, run) => task in l.runOf ==> l.runOf[task] == UNSET || l.runOf[task] == run
    case RunCleaned(run) => run != UNSET
    case TaskDeleted(task) => true
  }

  function Play(l: Ledger, events: seq<AnchorEvent>): Ledger {
    if events == [] then l else Apply(Play(l, events[..|events| - 1]), events[|events| - 1])
  }

  ghost predicate AllAdmissible(l: Ledger, events: seq<AnchorEvent>) {
    events == []
    || var rest := events[..|events| - 1]; AllAdmissible(l, rest) && Admissible(Play(l, rest), events[|events| - 1])
  }

  /* ---- What every history keeps ---- */

  /** A started_task edge leads from `r` to a live task `t` exactly if `t` carries the id of `r` and `r` exists.  The
      edges of deleted tasks stay. */
  ghost predicate Exact(l: Ledger) {
    && UNSET !in l.runs
    && forall r, t :: t in l.runOf ==> ((r, t) in l.links <==> r in l.runs && l.runOf[t] == r)
  }

  lemma {:induction false} LinksAreExact(l: Ledger, events: seq<AnchorEvent>)
    requires Exact(l) && AllAdmissible(l, events)
    ensures Exact(Play(l, events))
  {
    if events != [] {
      LinksAreExact(l, events[..|events| - 1]);
    }
  }

  /** Which updates keep links exact: those that stamp a task without a run or keep its run, and those that swap one run
      that does not exist for another. */
  lemma WriteKeepsExactly(l: Ledger, task: Id, run: Id)
    requires Exact(l)
    ensures Exact(Apply(l, RunWritten(task, run)))
            <==> || task !in l.runOf || l.runOf[task] == UNSET || l.runOf[task] == run
                 || (l.runOf[task] !in l.runs && run !in l.runs)
  {
    var after := Apply(l, RunWritten(task, run));
    if task in l.runOf && l.runOf[task] != UNSET && l.runOf[task] != run {
      assert (l.runOf[task], task) in after.links <==> l.runOf[task] in l.runs;
      assert (run, task) !in after.links;
    }
  }

  /** After any history the anchors agree exactly if no task carries the id of a run that does not exist. */
  lemma AnchorsAgreeIfRunsExist(tasks: map<Id, Task>, edges: set<Edge>, runs: map<Id, Run>)
    requires Exact(LedgerOf(tasks, edges, runs))
    ensures Tasks.AnchorsAgree(tasks, edges)
            <==> forall t :: t in tasks ==> tasks[t].workflowRunId == UNSET || tasks[t].workflowRunId in runs
  {
    var l := LedgerOf(tasks, edges, runs);
    assert forall t, r {:trigger Edge(StartedTask, r, t)} :: Edge(StartedTask, r, t) in edges <==> (r, t) in l.links;
    forall t | t in tasks && tasks[t].workflowRunId != UNSET
      ensures tasks[t].workflowRunId in runs <==> Edge(StartedTask, tasks[t].workflowRunId, t) in edges
    {
      assert (tasks[t].workflowRunId, t) in l.links <==> tasks[t].workflowRunId in l.runs;
    }
  }

  /** No run id is ever replaced by another: only a cleanup of that very run takes it off a live task. */
  lemma {:induction false} RunIdSticks(l: Ledger, events: seq<AnchorEvent>, t: Id, run: Id)
    requires AllAdmissible(l, events) && t in l.runOf && l.runOf[t] == run && run != UNSET
    requires RunCleaned(run) !in events && TaskDeleted(t) !in events
    ensures var after := Play(l, events); t in after.runOf && after.runOf[t] == run
  {
    if events != [] {
      var rest, last := events[..|events| - 1], events[|events| - 1];
      assert events == rest + [last];
      RunIdSticks(l, rest, t, run);
    }
  }

  /** Rolling back is undoing: naming tasks for a run that had none, however often and in any order, and then cleaning
      the run up leaves every task's run id and every anchor as they were. */
  lemma CleanupUndoesNaming(l: Ledger, run: Id, named: seq<Id>)
    requires Exact(l) && run != UNSET && forall t :: t in l.runOf ==> l.runOf[t] != run
    ensures Apply(Play(l, NamedFor(run, named)), RunCleaned(run)) == l
  {
    NamingTouchesFreeTasks(l, run, named);
    var after := Play(l, NamedFor(run, named));
    var back := Apply(after, RunCleaned(run));
    forall r, t ensures (r, t) in back.links <==> (r, t) in l.links {
      if (r, t) in l.links && t in l.runOf { assert l.runOf[t] == r && r != UNSET; }
    }
    assert forall x :: x in back.links <==> x in l.links by {
      forall x: (Id, Id) ensures x in back.links <==> x in l.links { assert x == (x.0, x.1); }
    }
  }

  function NamedFor(run: Id, named: seq<Id>): seq<AnchorEvent> {
    seq(|named|, i requires 0 <= i < |named| => RunNamed(named[i], run))
  }

  lemma {:induction false} NamingTouchesFreeTasks(l: Ledger, run: Id, named: seq<Id>)
    requires Exact(l) && run != UNSET && forall t :: t in l.runOf ==> l.runOf[t] != run
    ensures var after := Play(l, NamedFor(run, named));
            && after.runs == l.runs && after.runOf.Keys == l.runOf.Keys
            && (forall t :: t in l.runOf ==>
                after.runOf[t] == l.runOf[t] || (l.runOf[t] == UNSET && after.runOf[t] == run))
            && (forall r, t :: (r, t) in after.links ==> (r, t) in l.links || (t in l.runOf && after.runOf[t] == run))
            && l.links <= after.links
  {
    if named != [] {
      var rest := named[..|named| - 1];
      NamingTouchesFreeTasks(l, run, rest);
      assert NamedFor(run, named)[..|named| - 1] == NamedFor(run, rest);
    }
  }

  /* ---- What the operations do to the ledger ---- */

  lemma MoreLinks(edges: set<Edge>, more: set<Edge>, run: Id, t: Id)
    requires more == {} || more == {Edge(StartedTask, run, t)}
    ensures Links(edges + more) == Links(edges) + if more == {} then {} else {(run, t)}
  {
    if more == {} {
      assert edges + more == edges;
    } else {
      assert forall x :: x in Links(edges + more) <==> x in Links(edges) || x == (run, t) by {
        forall x: (Id, Id) ensures x in Links(edges + more) <==> x in Links(edges) || x == (run, t) {
          assert x == (x.0, x.1);
        }
      }
    }
  }

  /** CreateTask. */
  lemma CreateIsTaskMade(tasks: map<Id, Task>, edges: set<Edge>, runs: map<Id, Run>, id: Id, task: Task, now: Time)
    ensures var edges' := edges + Tasks.CreationEdges(runs, task.workflowRunId, id);
            LedgerOf(tasks[id := Tasks.NewTask(task, now)], edges', runs)
            == Apply(LedgerOf(tasks, edges, runs), TaskMade(id, task.workflowRunId))
  {
    MoreLinks(edges, Tasks.CreationEdges(runs, task.workflowRunId, id), task.workflowRunId, id);
  }

  /** UpdateTask, with any run id. */
  lemma UpdateIsRunWritten(tasks: map<Id, Task>, edges: set<Edge>, runs: map<Id, Run>, id: Id, task: Task, now: Time)
    requires id in tasks
    ensures LedgerOf(tasks[id := Tasks.Merged(tasks[id], task, now)],
                     edges + Tasks.StampedEdges(runs, id, tasks[id], task), runs)
            == Apply(LedgerOf(tasks, edges, runs), RunWritten(id, task.workflowRunId))
  {
    MoreLinks(edges, Tasks.StampedEdges(runs, id, tasks[id], task), task.workflowRunId, id);
  }

  /** The stamp of AssignTask, also when the run turns out not to exist; a mismatch is an event without effect. */
  lemma StampIsRunNamed(tasks: map<Id, Task>, edges: set<Edge>, runs: map<Id, Run>, t: Id, runId: Id, now: Time)
    requires t in tasks
    ensures LedgerOf(tasks[t := TaskGate.Stamped(tasks[t], runId, now)],
                     edges + TaskGate.StampEdges(runs, tasks[t], t, runId), runs)
            == Apply(LedgerOf(tasks, edges, runs), RunNamed(t, runId))
    ensures TaskGate.Mismatch(tasks[t], runId) ==>
              Apply(LedgerOf(tasks, edges, runs), RunNamed(t, runId)) == LedgerOf(tasks, edges, runs)
  {
    MoreLinks(edges, TaskGate.StampEdges(runs, tasks[t], t, runId), runId, t);
  }

  /** The gate, the new assignee and the todos of a decomposition are silent. */
  lemma GateIsSilent(
      tasks: map<Id, Task>, edges: set<Edge>, runs: map<Id, Run>, t: Id, unmet: set<Id>, agent: Id, todos: seq<Id>,
      now: Time)
    requires t in tasks
    ensures LedgerOf(tasks[t := TaskGate.Gated(tasks[t], unmet, now)], TaskGate.Reassigned(edges, t, agent), runs)
            == LedgerOf(tasks, edges, runs)
    ensures Links(edges + TodoScheduler.PlanEdges(true, t, todos, agent)) == Links(edges)
  {
    assert Links(TaskGate.Reassigned(edges, t, agent)) == Links(edges);
  }

  /** So are the cancel cascade, a timeout and the release of dependents. */
  lemma StatusChangesAreSilent(tasks: map<Id, Task>, edges: set<Edge>, runs: map<Id, Run>, some: set<Id>, now: Time)
    ensures LedgerOf(RunLifecycle.CancelSome(tasks, some, now), edges, runs) == LedgerOf(tasks, edges, runs)
    ensures LedgerOf(RunLifecycle.FailSome(tasks, some, now), edges, runs) == LedgerOf(tasks, edges, runs)
    ensures LedgerOf(TaskGate.Opened(tasks, some, now), edges, runs) == LedgerOf(tasks, edges, runs)
  {
    SameRunIds(tasks, RunLifecycle.CancelSome(tasks, some, now), edges, runs);
    SameRunIds(tasks, RunLifecycle.FailSome(tasks, some, now), edges, runs);
    SameRunIds(tasks, TaskGate.Opened(tasks, some, now), edges, runs);
  }

  lemma SameRunIds(tasks: map<Id, Task>, after: map<Id, Task>, edges: set<Edge>, runs: map<Id, Run>)
    requires after.Keys == tasks.Keys && forall t :: t in tasks ==> after[t].workflowRunId == tasks[t].workflowRunId
    ensures LedgerOf(after, edges, runs) == LedgerOf(tasks, edges, runs)
  {
  }

  /** The cleanup of a rollback.  It also deletes the edges at the run's todos, none of which is an anchor. */
  lemma CleanupIsRunCleaned(
      tasks: map<Id, Task>, todos: map<Id, Todo>, edges: set<Edge>, runs: map<Id, Run>, runId: Id, now: Time)
    requires Exact(LedgerOf(tasks, edges, runs)) && runId != UNSET
    requires forall e :: e in edges && e.name == StartedTask ==> e.from !in todos && e.to !in todos
    ensures var mine, gone := Rollback.RunTasks(tasks, runId), Rollback.RunTodos(todos, runId);
            var edges' := Rollback.CleanEdges(edges, mine, gone);
            && LedgerOf(Rollback.ResetSome(tasks, mine, now), edges', runs)
               == Apply(LedgerOf(tasks, edges, runs), RunCleaned(runId))
            // Nothing of the run is left: its closure has no task, and a run without tasks is never closed by one.
            && Links(edges') == (set x | x in Links(edges) && x.1 !in mine)
            && RunClosure.ClosureTasks(tasks, edges', runId) == {}
  {
    var mine, gone := Rollback.RunTasks(tasks, runId), Rollback.RunTodos(todos, runId);
    CleanLinks(edges, mine, gone);
    assert forall x :: x in Links(edges) ==> (x.1 in mine <==> x.1 in tasks && tasks[x.1].workflowRunId == runId);
    CleanClosure(tasks, edges, runs, runId, gone);
  }

  lemma CleanLinks(edges: set<Edge>, mine: set<Id>, gone: set<Id>)
    requires forall e :: e in edges && e.name == StartedTask ==> e.from !in gone && e.to !in gone
    ensures Links(Rollback.CleanEdges(edges, mine, gone)) == set x | x in Links(edges) && x.1 !in mine
  {
    var edges' := Rollback.CleanEdges(edges, mine, gone);
    forall x: (Id, Id) ensures x in Links(edges') <==> x in Links(edges) && x.1 !in mine {
      var e := Edge(StartedTask, x.0, x.1);
      assert x == (x.0, x.1) && (x in Links(edges) <==> e in edges) && (x in Links(edges') <==> e in edges');
    }
  }

  lemma CleanClosure(tasks: map<Id, Task>, edges: set<Edge>, runs: map<Id, Run>, runId: Id, gone: set<Id>)
    requires Exact(LedgerOf(tasks, edges, runs))
    ensures RunClosure.ClosureTasks(tasks, Rollback.CleanEdges(edges, Rollback.RunTasks(tasks, runId), gone), runId)
            == {}
  {
    forall t | t in tasks && Edge(StartedTask, runId, t) in edges ensures t in Rollback.RunTasks(tasks, runId) {
      assert (runId, t) in LedgerOf(tasks, edges, runs).links;
    }
  }

  /** DeleteTask. */
  lemma DeleteIsTaskDeleted(tasks: map<Id, Task>, edges: set<Edge>, runs: map<Id, Run>, t: Id)
    ensures LedgerOf(tasks - {t}, edges, runs) == Apply(LedgerOf(tasks, edges, runs), TaskDeleted(t))
  {
  }
}
