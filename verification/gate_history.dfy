/** The dependency gate over whole histories: exactly when a task is left blocked although nothing it depends on is
    unmet (assignment.go, assignment_unblock.go, and handleWorkTaskCompleted in internal/server/event_dispatcher.go). */
module GateHistory {
  import opened WorkModel
  import Agents
  import TaskGate
  import Tasks

  /* ---- Only what the gate is about ---- */

  /** The statuses of the live tasks, who depends on whom, and the tasks whose assignee can be found. */
  datatype Gates = Gates(status: map<Id, TaskStatus>, deps: set<(Id, Id)>, findable: set<Id>)

  predicate Met(g: Gates, x: Id) {
    x in g.status && g.status[x].IsTerminal()
  }

  function Unmet(g: Gates, t: Id): (r: set<Id>)
    ensures forall x :: x in r <==> (t, x) in g.deps && !Met(g, x)
  {
    var r := set d | d in g.deps && d.0 == t && !Met(g, d.1) :: d.1;
    assert forall x :: (t, x) in g.deps && !Met(g, x) ==> x in r by {
      forall x | (t, x) in g.deps && !Met(g, x) ensures x in r { assert (t, x).0 == t && (t, x).1 == x; }
    }
    r
  }

  predicate Blocked(g: Gates, t: Id) {
    t in g.status && g.status[t] == TaskBlocked
  }

  /** Blocked, and nothing is unmet. */
  predicate Stalled(g: Gates, t: Id) {
    Blocked(g, t) && Unmet(g, t) == {}
  }

  /* ---- Histories ---- */

  /** Tasks made and deleted, assigned and unassigned; depends_on edges made and deleted; statuses changed; a completion
      that the dispatcher hears of, and the release it runs; and such a release alone, late or repeated. */
  datatype GateEvent =
    | Made(task: Id)
    | Deleted(task: Id)
    | Assigned(task: Id)
    | Unassigned(task: Id)
    | Linked(task: Id, on: Id)
    | Unlinked(task: Id, on: Id)
    | Moved(task: Id, next: TaskStatus)
    | Finished(task: Id)
    | Released(task: Id)

  function WithStatus(g: Gates, t: Id, next: TaskStatus): Gates {
    if t in g.status then g.(status := g.status[t := next]) else g
  }

  /** The dependents that a release lets go. */
  predicate Goes(g: Gates, d: Id, t: Id) {
    d in g.status && (t, d) in g.deps && Stalled(g, t) && t in g.findable
  }

  function Release(g: Gates, d: Id): Gates {
    g.(status := map t | t in g.status :: if Goes(g, d, t) then TaskPending else g.status[t])
  }

  function Gate(g: Gates, t: Id): Gates {
    if t in g.status && Unmet(g, t) != {} && g.status[t].CanTransitionTo(TaskBlocked) then WithStatus(g, t, TaskBlocked)
    else g
  }

  function GateStep(g: Gates, e: GateEvent): Gates {
    match e
    case Made(t) => if t in g.status then g else g.(status := g.status[t := TaskPending])
    case Deleted(t) => g.(status := g.status - {t}, findable := g.findable - {t})
    case Assigned(t) => if t in g.status then Gate(g, t).(findable := g.findable + {t}) else g
    case Unassigned(t) => g.(findable := g.findable - {t})
    case Linked(t, on) => g.(deps := g.deps + {(t, on)})
    case Unlinked(t, on) => g.(deps := g.deps - {(t, on)})
    case Moved(t, next) => WithStatus(g, t, next)
    case Finished(d) => Release(WithStatus(g, d, TaskCompleted), d)
    case Released(d) => Release(g, d)
  }

  function At(g: Gates, events: seq<GateEvent>, n: nat): Gates
    requires n <= |events|
  {
    if n == 0 then g else GateStep(At(g, events, n - 1), events[n - 1])
  }

  function Play(g: Gates, events: seq<GateEvent>): Gates {
    At(g, events, |events|)
  }

  /* ---- What stalls a task and what frees it ---- */

  predicate LastUnmet(g: Gates, t: Id, d: Id) {
    Blocked(g, t) && Unmet(g, t) == {d}
  }

  /** The event takes away the last thing a blocked task waits for and lets nobody know: the dependency fails, is
      cancelled, or completes unheard; it completes and the task's assignee cannot be found; the edge to it is deleted.
      Or it blocks a task that has nothing to wait for. */
  predicate Stalls(g: Gates, e: GateEvent, t: Id) {
    match e
    case Moved(d, next) =>
      || (d in g.status && next.IsTerminal() && d != t && LastUnmet(g, t, d))
      || (d == t && t in g.status && next == TaskBlocked && Unmet(g, t) == {} && (t, t) !in g.deps)
    case Finished(d) => d in g.status && d != t && LastUnmet(g, t, d) && t !in g.findable
    case Unlinked(u, d) => u == t && LastUnmet(g, t, d)
    case _ => false
  }

  /** The event moves or removes the task, gives it something to wait for (a failed dependency that is assigned again
      while it has dependencies of its own unmet becomes blocked, so it is unmet again), or lets it go. */
  predicate Frees(g: Gates, e: GateEvent, t: Id) {
    match e
    case Moved(d, next) =>
      || (d == t && next != TaskBlocked)
      || (d != t && d in g.status && (t, d) in g.deps && !next.IsTerminal())
    case Finished(d) => d == t || (d in g.status && (t, d) in g.deps && t in g.findable)
    case Released(d) => d in g.status && (t, d) in g.deps && t in g.findable
    case Linked(u, on) => u == t && !Met(g, on)
    case Deleted(d) => d == t || (t, d) in g.deps
    case Assigned(d) => d in g.status && (t, d) in g.deps && g.status[d] == TaskFailed && Unmet(g, d) != {}
    case _ => false
  }

  lemma ReleaseKeepsMet(g: Gates, d: Id)
    ensures forall x :: Met(Release(g, d), x) <==> Met(g, x)
    ensures forall t :: Unmet(Release(g, d), t) == Unmet(g, t)
    ensures forall t :: Stalled(Release(g, d), t) <==> Stalled(g, t) && !Goes(g, d, t)
  {
    forall t ensures Unmet(Release(g, d), t) == Unmet(g, t) {}
  }

  lemma MoveStalls(g: Gates, d: Id, next: TaskStatus, t: Id)
    ensures Stalled(WithStatus(g, d, next), t)
            <==> Stalls(g, Moved(d, next), t) || (Stalled(g, t) && !Frees(g, Moved(d, next), t))
  {
    var after := WithStatus(g, d, next);
    assert forall x :: x != d ==> (Met(after, x) <==> Met(g, x));
    if d in g.status {
      assert Unmet(after, t) == (if next.IsTerminal() then Unmet(g, t) - {d}
                                 else if (t, d) in g.deps then Unmet(g, t) + {d} else Unmet(g, t));
      assert Unmet(g, t) - {d} == {} <==> Unmet(g, t) == {} || Unmet(g, t) == {d};
    }
  }

  lemma DeletionStalls(g: Gates, d: Id, t: Id)
    ensures Stalled(GateStep(g, Deleted(d)), t) <==> Stalled(g, t) && !Frees(g, Deleted(d), t)
  {
    var after := GateStep(g, Deleted(d));
    assert forall x :: x != d ==> (Met(after, x) <==> Met(g, x));
    assert Unmet(after, t) == if (t, d) in g.deps then Unmet(g, t) + {d} else Unmet(g, t);
  }

  lemma MakingStalls(g: Gates, d: Id, t: Id)
    ensures Stalled(GateStep(g, Made(d)), t) <==> Stalled(g, t)
  {
    var after := GateStep(g, Made(d));
    assert forall x :: Met(after, x) <==> Met(g, x);
    assert Unmet(after, t) == Unmet(g, t);
  }

  lemma AssignmentStalls(g: Gates, a: Id, t: Id)
    ensures Stalled(GateStep(g, Assigned(a)), t) <==> Stalled(g, t) && !Frees(g, Assigned(a), t)
  {
    if a in g.status && Unmet(g, a) != {} && g.status[a].CanTransitionTo(TaskBlocked) {
      MoveStalls(g, a, TaskBlocked, t);
    }
    assert Unmet(GateStep(g, Assigned(a)), t) == Unmet(Gate(g, a), t);
  }

  lemma FinishStalls(g: Gates, d: Id, t: Id)
    ensures Stalled(GateStep(g, Finished(d)), t)
            <==> Stalls(g, Finished(d), t) || (Stalled(g, t) && !Frees(g, Finished(d), t))
  {
    MoveStalls(g, d, TaskCompleted, t);
    ReleaseKeepsMet(WithStatus(g, d, TaskCompleted), d);
  }

  lemma LinkingStalls(g: Gates, u: Id, on: Id, t: Id)
    ensures Stalled(GateStep(g, Linked(u, on)), t) <==> Stalled(g, t) && !Frees(g, Linked(u, on), t)
    ensures Stalled(GateStep(g, Unlinked(u, on)), t) <==> Stalls(g, Unlinked(u, on), t) || Stalled(g, t)
  {
    assert Unmet(GateStep(g, Linked(u, on)), t) == Unmet(g, t) + (if u == t && !Met(g, on) then {on} else {});
    assert Unmet(GateStep(g, Unlinked(u, on)), t) == if u == t then Unmet(g, t) - {on} else Unmet(g, t);
    assert Unmet(g, t) - {on} == {} <==> Unmet(g, t) == {} || Unmet(g, t) == {on};
  }

  /** One event: a task is stalled after it exactly if the event stalls it, or it was stalled and the event does not
      free it. */
  lemma StepStalls(g: Gates, e: GateEvent, t: Id)
    ensures Stalled(GateStep(g, e), t) <==> Stalls(g, e, t) || (Stalled(g, t) && !Frees(g, e, t))
  {
    match e
    case Made(d) => MakingStalls(g, d, t);
    case Deleted(d) => DeletionStalls(g, d, t);
    case Assigned(a) => AssignmentStalls(g, a, t);
    case Unassigned(a) => assert Unmet(GateStep(g, e), t) == Unmet(g, t);
    case Linked(u, on) => LinkingStalls(g, u, on, t);
    case Unlinked(u, on) => LinkingStalls(g, u, on, t);
    case Moved(d, next) => MoveStalls(g, d, next, t);
    case Finished(d) => FinishStalls(g, d, t);
    case Released(d) => ReleaseKeepsMet(g, d);
  }

  /** Nothing among the events from the `n`-th on frees the task. */
  ghost predicate StaysFrom(g: Gates, events: seq<GateEvent>, n: nat, t: Id) {
    forall j :: n <= j < |events| ==> !Frees(At(g, events, j), events[j], t)
  }

  /** Event `i` stalled the task, and nothing has freed it since. */
  ghost predicate StalledSince(g: Gates, events: seq<GateEvent>, i: nat, t: Id) {
    i < |events| && Stalls(At(g, events, i), events[i], t) && StaysFrom(g, events, i + 1, t)
  }

  /** Over any history: a task is left blocked with nothing unmet exactly if it was so from the start, or some event
      stalled it, and nothing has freed it since. */
  lemma StalledExactlyIf(g: Gates, events: seq<GateEvent>, t: Id)
    ensures Stalled(Play(g, events), t)
            <==> (Stalled(g, t) && StaysFrom(g, events, 0, t)) || exists i :: StalledSince(g, events, i, t)
  {
    var stalled := (i: nat) => i <= |events| && Stalled(At(g, events, i), t);
    var stalls := (i: nat) => i < |events| && Stalls(At(g, events, i), events[i], t);
    var frees := (i: nat) => i < |events| && Frees(At(g, events, i), events[i], t);
    forall i: nat | i < |events| ensures stalled(i + 1) <==> stalls(i) || (stalled(i) && !frees(i)) {
      StepStalls(At(g, events, i), events[i], t);
    }
    ClosedForm(stalled, stalls, frees, |events|);
    forall n: nat ensures Unbroken(frees, n, |events|) <==> StaysFrom(g, events, n, t) {
      StaysUnbroken(g, events, n, t, frees);
    }
    forall i: nat ensures SinceThen(stalls, frees, i, |events|) <==> StalledSince(g, events, i, t) {}
  }

  lemma StaysUnbroken(g: Gates, events: seq<GateEvent>, n: nat, t: Id, frees: nat -> bool)
    requires forall i: nat :: frees(i) <==> i < |events| && Frees(At(g, events, i), events[i], t)
    ensures Unbroken(frees, n, |events|) <==> StaysFrom(g, events, n, t)
  {
    if StaysFrom(g, events, n, t) {
      forall j: nat | n <= j < |events| ensures !frees(j) { assert !Frees(At(g, events, j), events[j], t); }
    }
    if Unbroken(frees, n, |events|) {
      forall j: nat | n <= j < |events| ensures !Frees(At(g, events, j), events[j], t) { assert !frees(j); }
    }
  }

  ghost predicate Unbroken(frees: nat -> bool, i: nat, n: nat) {
    forall j: nat :: i <= j < n ==> !frees(j)
  }

  ghost predicate SinceThen(stalls: nat -> bool, frees: nat -> bool, i: nat, n: nat) {
    i < n && stalls(i) && Unbroken(frees, i + 1, n)
  }

  /** What holds after `n` steps, if each step makes it so, leaves it so, or ends it. */
  lemma {:induction false} ClosedForm(holds: nat -> bool, stalls: nat -> bool, frees: nat -> bool, n: nat)
    requires forall i: nat :: i < n ==> (holds(i + 1) <==> stalls(i) || (holds(i) && !frees(i)))
    ensures holds(n) <==> (holds(0) && Unbroken(frees, 0, n)) || exists i: nat :: SinceThen(stalls, frees, i, n)
  {
    if n > 0 {
      var m: nat := n - 1;
      ClosedForm(holds, stalls, frees, m);
      forall i: nat | i < n ensures Unbroken(frees, i, n) <==> Unbroken(frees, i, m) && !frees(m) {
        if Unbroken(frees, i, m) && !frees(m) {
          forall j: nat | i <= j < n ensures !frees(j) { if j < m { assert !frees(j); } }
        }
      }
      assert holds(m + 1) <==> stalls(m) || (holds(m) && !frees(m));
      if stalls(m) { assert SinceThen(stalls, frees, m, n); }
      if !frees(m) {
        if i: nat :| SinceThen(stalls, frees, i, m) { assert SinceThen(stalls, frees, i, n); }
      }
      forall i: nat | SinceThen(stalls, frees, i, n) ensures i == m || (SinceThen(stalls, frees, i, m) && !frees(m)) {}
    }
  }

  /* ---- Histories in which every completion is heard ---- */

  /** No completion goes unheard, no task is blocked by hand, and no depends_on edge is deleted. */
  predicate Plain(e: GateEvent) {
    match e
    case Moved(_, next) => next != TaskCompleted && next != TaskBlocked
    case Unlinked(_, _) => false
    case _ => true
  }

  /** The last unmet dependency of the task failed or was cancelled, or it completed and the assignee cannot be
      found. */
  predicate LastDependencyEnds(g: Gates, e: GateEvent, t: Id) {
    match e
    case Moved(d, next) => (next == TaskFailed || next == TaskCancelled) && d in g.status && d != t
      && LastUnmet(g, t, d)
    case Finished(d) => d in g.status && d != t && LastUnmet(g, t, d) && t !in g.findable
    case _ => false
  }

  /** Then a task is left blocked with nothing unmet exactly if its last unmet dependency failed or was cancelled, or
      completed when its assignee could not be found, and nothing has freed it since. */
  lemma PlainlyStalledExactlyIf(g: Gates, events: seq<GateEvent>, t: Id)
    requires !Stalled(g, t) && forall e :: e in events ==> Plain(e)
    ensures Stalled(Play(g, events), t)
            <==> exists i: nat :: && i < |events| && LastDependencyEnds(At(g, events, i), events[i], t)
                                  && StaysFrom(g, events, i + 1, t)
  {
    StalledExactlyIf(g, events, t);
    forall i: nat
      ensures StalledSince(g, events, i, t)
              <==> && i < |events| && LastDependencyEnds(At(g, events, i), events[i], t)
                   && StaysFrom(g, events, i + 1, t)
    {
      if i < |events| { PlainlyStalls(At(g, events, i), events[i], t); }
    }
  }

  lemma PlainlyStalls(g: Gates, e: GateEvent, t: Id)
    requires Plain(e)
    ensures Stalls(g, e, t) <==> LastDependencyEnds(g, e, t)
  {
  }

  /** The same dependency strands the task if it fails and lets it go if it completes. */
  lemma FailureStalls(g: Gates, t: Id, d: Id)
    requires d in g.status && d != t && LastUnmet(g, t, d)
    ensures Stalled(GateStep(g, Moved(d, TaskFailed)), t)
    ensures t in g.findable ==> !Stalled(GateStep(g, Finished(d)), t)
  {
    StepStalls(g, Moved(d, TaskFailed), t);
    StepStalls(g, Finished(d), t);
  }

  /* ---- What the operations do ---- */

  function Dependencies(edges: set<Edge>): (r: set<(Id, Id)>)
    ensures forall t, x :: (t, x) in r <==> Edge(DependsOn, t, x) in edges
  {
    var r := set e | e in edges && e.name == DependsOn :: (e.from, e.to);
    assert forall t, x :: Edge(DependsOn, t, x) in edges ==> (t, x) in r by {
      forall t, x | Edge(DependsOn, t, x) in edges ensures (t, x) in r {
        var e := Edge(DependsOn, t, x);
        assert e in edges && (e.from, e.to) == (t, x);
      }
    }
    r
  }

  ghost function GatesOf(tasks: map<Id, Task>, edges: set<Edge>, dir: Agents.Directory): Gates {
    Gates(map t | t in tasks :: tasks[t].status,
          Dependencies(edges),
          set t | t in tasks && TaskGate.Resolvable(dir, edges, t))
  }

  lemma SameDependencies(edges: set<Edge>, edges': set<Edge>)
    requires forall t, x :: Edge(DependsOn, t, x) in edges' <==> Edge(DependsOn, t, x) in edges
    ensures Dependencies(edges') == Dependencies(edges)
  {
    forall d: (Id, Id) ensures d in Dependencies(edges') <==> d in Dependencies(edges) { assert d == (d.0, d.1); }
  }

  lemma UnmetAgrees(tasks: map<Id, Task>, edges: set<Edge>, dir: Agents.Directory)
    ensures var g := GatesOf(tasks, edges, dir);
            && (forall t :: Unmet(g, t) == TaskGate.Unmet(tasks, edges, t))
            && (forall t :: Stalled(g, t) <==> TaskGate.Openable(tasks, edges, t))
  {
    var g := GatesOf(tasks, edges, dir);
    forall t ensures Unmet(g, t) == TaskGate.Unmet(tasks, edges, t) {
      assert forall x :: x in TaskGate.Unmet(tasks, edges, t) <==> Edge(DependsOn, t, x) in edges && !Met(g, x);
    }
  }

  /** An accepted AssignTask. */
  lemma AssignmentIsEvent(
      tasks: map<Id, Task>, edges: set<Edge>, dir: Agents.Directory, runs: map<Id, Run>, t: Id, runId: Id, agent: Id,
      now: Time)
    requires t in tasks && agent in dir.agents
    ensures var gated := TaskGate.Gated(TaskGate.Stamped(tasks[t], runId, now), TaskGate.Unmet(tasks, edges, t), now);
            var edges' := TaskGate.Reassigned(edges + TaskGate.StampEdges(runs, tasks[t], t, runId), t, agent);
            GatesOf(tasks[t := gated], edges', dir) == GateStep(GatesOf(tasks, edges, dir), Assigned(t))
  {
    var gated := TaskGate.Gated(TaskGate.Stamped(tasks[t], runId, now), TaskGate.Unmet(tasks, edges, t), now);
    var stamped := edges + TaskGate.StampEdges(runs, tasks[t], t, runId);
    GatedStatus(tasks, edges, dir, t, gated);
    ReassignedAre(edges, TaskGate.StampEdges(runs, tasks[t], t, runId), dir, t, agent);
    GatesAre(tasks[t := gated], TaskGate.Reassigned(stamped, t, agent), dir,
             GateStep(GatesOf(tasks, edges, dir), Assigned(t)));
  }

  /** The stamp and the new assignee change no dependency and make this task's assignee one that can be found. */
  lemma ReassignedAre(edges: set<Edge>, stamp: set<Edge>, dir: Agents.Directory, t: Id, agent: Id)
    requires agent in dir.agents && forall e :: e in stamp ==> e.name == StartedTask
    ensures var edges' := TaskGate.Reassigned(edges + stamp, t, agent);
            && Dependencies(edges') == Dependencies(edges)
            && forall u :: TaskGate.Resolvable(dir, edges', u) <==> u == t || TaskGate.Resolvable(dir, edges, u)
  {
    var edges' := TaskGate.Reassigned(edges + stamp, t, agent);
    SameDependencies(edges, edges');
    AssigneeFound(edges + stamp, dir, t, agent);
    forall u | u != t ensures TaskGate.Resolvable(dir, edges', u) <==> TaskGate.Resolvable(dir, edges, u) {
      SameAssignees(edges, edges', dir, u);
    }
  }

  lemma GatesAre(tasks: map<Id, Task>, edges: set<Edge>, dir: Agents.Directory, g: Gates)
    requires g.status.Keys == tasks.Keys && forall t :: t in tasks ==> g.status[t] == tasks[t].status
    requires g.deps == Dependencies(edges)
    requires forall t :: t in g.findable <==> t in tasks && TaskGate.Resolvable(dir, edges, t)
    ensures GatesOf(tasks, edges, dir) == g
  {
  }

  lemma GatedStatus(tasks: map<Id, Task>, edges: set<Edge>, dir: Agents.Directory, t: Id, gated: Task)
    requires t in tasks
    requires gated.status == if TaskGate.Unmet(tasks, edges, t) != {} && tasks[t].status.CanTransitionTo(TaskBlocked)
                             then TaskBlocked else tasks[t].status
    ensures var after := GateStep(GatesOf(tasks, edges, dir), Assigned(t));
            && after.status.Keys == tasks.Keys && after.deps == Dependencies(edges)
            && (forall u :: u in tasks ==> after.status[u] == tasks[t := gated][u].status)
            && (forall u :: u in after.findable <==> u == t || (u in tasks && TaskGate.Resolvable(dir, edges, u)))
  {
    UnmetAgrees(tasks, edges, dir);
  }

  lemma AssigneeFound(edges: set<Edge>, dir: Agents.Directory, t: Id, agent: Id)
    requires agent in dir.agents
    ensures TaskGate.Resolvable(dir, TaskGate.Reassigned(edges, t, agent), t)
  {
    assert Agents.Names(dir, agent, agent);
    assert agent in Targets(TaskGate.Reassigned(edges, t, agent), AssignedTo, t);
  }

  lemma SameAssignees(edges: set<Edge>, edges': set<Edge>, dir: Agents.Directory, t: Id)
    requires forall a :: Edge(AssignedTo, t, a) in edges' <==> Edge(AssignedTo, t, a) in edges
    ensures TaskGate.Resolvable(dir, edges', t) <==> TaskGate.Resolvable(dir, edges, t)
  {
    assert Targets(edges', AssignedTo, t) == Targets(edges, AssignedTo, t);
  }

  /** Whatever touches neither dependencies nor assignees is a list of status changes: an update, a cancel cascade, a
      timeout, a settlement, a rollback. */
  lemma TasksMoved(
      tasks: map<Id, Task>, edges: set<Edge>, dir: Agents.Directory, after: map<Id, Task>, edges': set<Edge>)
    returns (events: seq<GateEvent>)
    requires after.Keys == tasks.Keys
    requires forall e: Edge :: e.name == DependsOn || e.name == AssignedTo ==> (e in edges' <==> e in edges)
    ensures GatesOf(after, edges', dir) == Play(GatesOf(tasks, edges, dir), events)
    ensures forall e :: e in events ==>
              e.Moved? && e.task in tasks && tasks[e.task].status != after[e.task].status == e.next
  {
    var order := SomeOrder(set t | t in tasks && after[t].status != tasks[t].status);
    events := Moves(order, after);
    MovesPlay(GatesOf(tasks, edges, dir), order, after);
    SameDependencies(edges, edges');
    forall t ensures TaskGate.Resolvable(dir, edges', t) <==> TaskGate.Resolvable(dir, edges, t) {
      SameAssignees(edges, edges', dir, t);
    }
    var was, now := GatesOf(tasks, edges, dir), GatesOf(after, edges', dir);
    assert now.status == map t | t in was.status :: if t in order then after[t].status else was.status[t];
    assert now.deps == was.deps && now.findable == was.findable;
    MovesAre(order, after);
  }

  lemma MovesAre(order: seq<Id>, tasks: map<Id, Task>)
    requires forall t :: t in order ==> t in tasks
    ensures forall e :: e in Moves(order, tasks) ==> e.Moved? && e.task in order && e.next == tasks[e.task].status
  {
    forall e | e in Moves(order, tasks) ensures e.Moved? && e.task in order && e.next == tasks[e.task].status {
      var i :| 0 <= i < |order| && Moves(order, tasks)[i] == e;
      assert order[i] in order;
    }
  }

  function Moves(order: seq<Id>, tasks: map<Id, Task>): seq<GateEvent>
    requires forall t :: t in order ==> t in tasks
  {
    seq(|order|, i requires 0 <= i < |order| => Moved(order[i], tasks[order[i]].status))
  }

  lemma {:induction false} MovesPlay(g: Gates, order: seq<Id>, tasks: map<Id, Task>)
    requires forall t :: t in order ==> t in tasks && t in g.status
    ensures Play(g, Moves(order, tasks))
            == g.(status := map t | t in g.status :: if t in order then tasks[t].status else g.status[t])
  {
    if order != [] {
      var n := |order| - 1;
      var t := order[n];
      MovesPlay(g, order[..n], tasks);
      SamePrefix(g, Moves(order[..n], tasks), Moves(order, tasks), n);
      assert Play(g, Moves(order, tasks)) == WithStatus(Play(g, Moves(order[..n], tasks)), t, tasks[t].status);
      MoveOneMore(g.status, order, tasks);
    }
  }

  lemma MoveOneMore(status: map<Id, TaskStatus>, order: seq<Id>, tasks: map<Id, Task>)
    requires order != [] && forall t :: t in order ==> t in tasks && t in status
    ensures var n := |order| - 1;
            (map t | t in status :: if t in order[..n] then tasks[t].status else status[t])
              [order[n] := tasks[order[n]].status]
            == map t | t in status :: if t in order then tasks[t].status else status[t]
  {
    assert order == order[..|order| - 1] + [order[|order| - 1]];
  }

  lemma {:induction false} SamePrefix(g: Gates, a: seq<GateEvent>, b: seq<GateEvent>, n: nat)
    requires n <= |a| && n <= |b| && forall i :: 0 <= i < n ==> a[i] == b[i]
    ensures At(g, a, n) == At(g, b, n)
  {
    if n > 0 { SamePrefix(g, a, b, n - 1); }
  }

  /** An accepted UpdateTask. */
  lemma UpdateIsEvent(
      tasks: map<Id, Task>, edges: set<Edge>, dir: Agents.Directory, runs: map<Id, Run>, t: Id, task: Task, now: Time)
    requires t in tasks
    ensures var after := tasks[t := Tasks.Merged(tasks[t], task, now)];
            GatesOf(after, edges + Tasks.StampedEdges(runs, t, tasks[t], task), dir)
            == GateStep(GatesOf(tasks, edges, dir), Moved(t, task.status))
  {
    var edges' := edges + Tasks.StampedEdges(runs, t, tasks[t], task);
    SameDependencies(edges, edges');
    forall u ensures TaskGate.Resolvable(dir, edges', u) <==> TaskGate.Resolvable(dir, edges, u) {
      SameAssignees(edges, edges', dir, u);
    }
  }

  /** UnblockDependents, for tasks with one assignee each as assignment leaves them. */
  lemma ReleaseIsEvent(tasks: map<Id, Task>, edges: set<Edge>, dir: Agents.Directory, completed: Id, now: Time)
    requires completed in tasks
    ensures GatesOf(TaskGate.Opened(tasks, TaskGate.OpenableDependents(tasks, edges, dir, completed), now), edges, dir)
            == GateStep(GatesOf(tasks, edges, dir), Released(completed))
  {
    var g, free := GatesOf(tasks, edges, dir), TaskGate.OpenableDependents(tasks, edges, dir, completed);
    UnmetAgrees(tasks, edges, dir);
    forall t | t in tasks ensures t in free <==> Goes(g, completed, t) {
      assert t in Sources(edges, DependsOn, completed) <==> Edge(DependsOn, t, completed) in edges;
    }
  }

  /** An update that completes a task, and the release that the dispatcher runs when it hears of it. */
  lemma CompletionIsEvent(
      tasks: map<Id, Task>, edges: set<Edge>, dir: Agents.Directory, runs: map<Id, Run>, d: Id, task: Task, now: Time,
      later: Time)
    requires d in tasks && task.status == TaskCompleted
    ensures var mid := tasks[d := Tasks.Merged(tasks[d], task, now)];
            var edges' := edges + Tasks.StampedEdges(runs, d, tasks[d], task);
            GatesOf(TaskGate.Opened(mid, TaskGate.OpenableDependents(mid, edges', dir, d), later), edges', dir)
            == GateStep(GatesOf(tasks, edges, dir), Finished(d))
  {
    var mid := tasks[d := Tasks.Merged(tasks[d], task, now)];
    UpdateIsEvent(tasks, edges, dir, runs, d, task, now);
    ReleaseIsEvent(mid, edges + Tasks.StampedEdges(runs, d, tasks[d], task), dir, d, later);
    FinishIsMoveAndRelease(GatesOf(tasks, edges, dir), d);
  }

  lemma FinishIsMoveAndRelease(g: Gates, d: Id)
    ensures GateStep(g, Finished(d)) == GateStep(GateStep(g, Moved(d, TaskCompleted)), Released(d))
  {
  }

  /** UnassignTask. */
  lemma UnassignmentIsEvent(tasks: map<Id, Task>, edges: set<Edge>, dir: Agents.Directory, t: Id)
    requires t in tasks
    ensures GatesOf(tasks, TaskGate.Unassigned(edges, t), dir) == GateStep(GatesOf(tasks, edges, dir), Unassigned(t))
  {
    var edges' := TaskGate.Unassigned(edges, t);
    SameDependencies(edges, edges');
    forall u | u != t ensures TaskGate.Resolvable(dir, edges', u) <==> TaskGate.Resolvable(dir, edges, u) {
      SameAssignees(edges, edges', dir, u);
    }
    assert forall a :: a in Targets(edges', AssignedTo, t) ==> Edge(AssignedTo, t, a) in edges';
  }

  /** CreateRelationship and DeleteRelationship of a dependency. */
  lemma LinkIsEvent(tasks: map<Id, Task>, edges: set<Edge>, dir: Agents.Directory, t: Id, on: Id)
    ensures GatesOf(tasks, edges + {Edge(DependsOn, t, on)}, dir) == GateStep(GatesOf(tasks, edges, dir), Linked(t, on))
    ensures GatesOf(tasks, edges - {Edge(DependsOn, t, on)}, dir)
            == GateStep(GatesOf(tasks, edges, dir), Unlinked(t, on))
  {
    var more, less := edges + {Edge(DependsOn, t, on)}, edges - {Edge(DependsOn, t, on)};
    forall d: (Id, Id)
      ensures d in Dependencies(more) <==> d in Dependencies(edges) || d == (t, on)
      ensures d in Dependencies(less) <==> d in Dependencies(edges) && d != (t, on)
    {
      assert d == (d.0, d.1);
    }
    forall u
      ensures TaskGate.Resolvable(dir, more, u) <==> TaskGate.Resolvable(dir, edges, u)
      ensures TaskGate.Resolvable(dir, less, u) <==> TaskGate.Resolvable(dir, edges, u)
    {
      SameAssignees(edges, more, dir, u);
      SameAssignees(edges, less, dir, u);
    }
  }

  /** As CreateRelationship leaves them, assigned_to edges lead to agents. */
  ghost predicate AssigneesAreAgents(edges: set<Edge>, dir: Agents.Directory) {
    forall e :: e in edges && e.name == AssignedTo ==> e.to in dir.agents
  }

  lemma AgentsAreFound(edges: set<Edge>, dir: Agents.Directory, t: Id)
    requires AssigneesAreAgents(edges, dir)
    ensures TaskGate.Resolvable(dir, edges, t) <==> Targets(edges, AssignedTo, t) != {}
  {
    if a :| a in Targets(edges, AssignedTo, t) {
      assert Edge(AssignedTo, t, a) in edges;
      assert Agents.Names(dir, a, a);
    }
  }

  /** CreateTask and DeleteTask; `dir'` is the directory afterwards, which counts the task among the identifiers taken,
      or does not any more. */
  lemma CreationIsEvent(
      tasks: map<Id, Task>, edges: set<Edge>, dir: Agents.Directory, dir': Agents.Directory, runs: map<Id, Run>, t: Id,
      task: Task, now: Time)
    requires AssigneesAreAgents(edges, dir) && dir'.agents == dir.agents
    requires t !in tasks && forall e :: e in edges ==> e.from != t && e.to != t
    ensures var edges' := edges + Tasks.CreationEdges(runs, task.workflowRunId, t);
            GatesOf(tasks[t := Tasks.NewTask(task, now)], edges', dir')
            == GateStep(GatesOf(tasks, edges, dir), Made(t))
  {
    var edges' := edges + Tasks.CreationEdges(runs, task.workflowRunId, t);
    SameDependencies(edges, edges');
    forall u ensures TaskGate.Resolvable(dir', edges', u) <==> TaskGate.Resolvable(dir, edges, u) {
      AgentsAreFound(edges, dir, u);
      AgentsAreFound(edges', dir', u);
      assert Targets(edges', AssignedTo, u) == Targets(edges, AssignedTo, u);
    }
    assert forall a :: a in Targets(edges, AssignedTo, t) ==> Edge(AssignedTo, t, a) in edges;
    assert !TaskGate.Resolvable(dir, edges, t);
  }

  lemma DeletionIsEvent(
      tasks: map<Id, Task>, edges: set<Edge>, dir: Agents.Directory, dir': Agents.Directory, t: Id)
    requires AssigneesAreAgents(edges, dir) && dir'.agents == dir.agents
    ensures GatesOf(tasks - {t}, edges, dir') == GateStep(GatesOf(tasks, edges, dir), Deleted(t))
  {
    forall u ensures TaskGate.Resolvable(dir', edges, u) <==> TaskGate.Resolvable(dir, edges, u) {
      AgentsAreFound(edges, dir, u);
      AgentsAreFound(edges, dir', u);
    }
  }
}
