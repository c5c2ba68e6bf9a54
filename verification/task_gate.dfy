/** The dependency gate of tasks: assign-or-block (assignment.go) and unblock on completion (assignment_unblock.go). */
module TaskGate {
  import opened Agents
  import opened WorkModel
  import Tasks

  /* ---- Dependencies ---- */

  /** The dependencies that hold a task back: missing or unfinished tasks. */
  function Unmet(tasks: map<Id, Task>, edges: set<Edge>, t: Id): set<Id> {
    set x | x in Targets(edges, DependsOn, t) && (x !in tasks || !tasks[x].status.IsTerminal())
  }

  method FindUnmetDependencies(s: WorkStore, t: Id) returns (unmet: seq<Id>)
    ensures forall x :: x in unmet <==> x in Unmet(s.tasks, s.edges, t)
  {
    unmet := [];
    var rest := Targets(s.edges, DependsOn, t);
    while rest != {}
      invariant rest <= Targets(s.edges, DependsOn, t)
      invariant forall x :: x in unmet <==> x in Unmet(s.tasks, s.edges, t) - rest
      decreases rest
    {
      var x :| x in rest;
      rest := rest - {x};
      if x !in s.tasks || !s.tasks[x].status.IsTerminal() {
        unmet := unmet + [x];
      }
    }
  }

  /* ---- Stamping the run ---- */

  /** Whether an assignment that names run `runId` stamps it on a task that has none. */
  predicate Stamps(task: Task, runId: Id) {
    runId != UNSET && task.workflowRunId == UNSET
  }

  predicate Mismatch(task: Task, runId: Id) {
    runId != UNSET && task.workflowRunId != UNSET && task.workflowRunId != runId
  }

  function Stamped(task: Task, runId: Id, now: Time): Task {
    if Stamps(task, runId) then task.(workflowRunId := runId, updatedAt := now) else task
  }

  function StampEdges(runs: map<Id, Run>, task: Task, t: Id, runId: Id): set<Edge> {
    if Stamps(task, runId) && runId in runs then {Edge(StartedTask, runId, t)} else {}
  }

  /** The anchor stays in agreement exactly when the run to be stamped exists: the field is written before the run is
      looked up, so a missing run leaves it without its edge. */
  lemma StampKeepsAnchors(tasks: map<Id, Task>, edges: set<Edge>, runs: map<Id, Run>, t: Id, runId: Id, now: Time)
    requires t in tasks && Tasks.AnchorsAgree(tasks, edges)
    ensures Tasks.AnchorsAgree(tasks[t := Stamped(tasks[t], runId, now)], edges + StampEdges(runs, tasks[t], t, runId))
            <==> !Stamps(tasks[t], runId) || runId in runs
  {
    Tasks.AnchorOfOneTask(tasks, edges, t, Stamped(tasks[t], runId, now), edges + StampEdges(runs, tasks[t], t, runId));
    assert Edge(StartedTask, tasks[t].workflowRunId, t) in edges <==> tasks[t].workflowRunId != UNSET;
    assert Edge(StartedTask, runId, t) in edges <==> runId != UNSET && tasks[t].workflowRunId == runId;
  }

  method StampRun(s: WorkStore, t: Id, runId: Id, now: Time) returns (r: Result<Id>)
    requires s.HasIds() && t in s.tasks
    modifies s`tasks, s`edges, s`events
    ensures s.HasIds()
    ensures var task := old(s.tasks[t]);
            if Mismatch(task, runId) then
              r == Err(ErrRunMismatch) && s.tasks == old(s.tasks) && s.edges == old(s.edges)
                && s.events == old(s.events)
            else
              && r == (if Stamps(task, runId) && runId !in s.runs then Err(ErrRunNotFound)
                       else Ok(Stamped(task, runId, now).workflowRunId))
              && s.tasks == old(s.tasks)[t := Stamped(task, runId, now)]
              && s.edges == old(s.edges) + StampEdges(s.runs, task, t, runId)
              && s.events == old(s.events) + (if r.Ok? && Stamps(task, runId)
                                              then Tasks.NewEdge(old(s.edges), Edge(StartedTask, runId, t)) else [])
  {
    var task := s.tasks[t];
    if runId != UNSET {
      if task.workflowRunId == UNSET {
        s.tasks := s.tasks[t := task.(workflowRunId := runId, updatedAt := now)];
        var linked := Tasks.LinkTaskToRun(s, runId, t);
        if linked.Err? {
          return Err(ErrRunNotFound);
        }
        return Ok(runId);
      } else if task.workflowRunId != runId {
        return Err(ErrRunMismatch);
      }
    }
    assert s.tasks == old(s.tasks)[t := task];
    r := Ok(task.workflowRunId);
  }

  /* ---- Assign or block ---- */

  function Unassigned(edges: set<Edge>, t: Id): set<Edge> {
    set e | e in edges && !(e.name == AssignedTo && e.from == t)
  }

  /** One assignee: the edges to earlier ones are gone. */
  function Reassigned(edges: set<Edge>, t: Id, agent: Id): set<Edge> {
    Unassigned(edges, t) + {Edge(AssignedTo, t, agent)}
  }

  method Reassign(s: WorkStore, t: Id, agent: Id)
    modifies s`edges
    ensures s.edges == Reassigned(old(s.edges), t, agent)
  {
    RemoveAssignees(s, t);
    s.edges := s.edges + {Edge(AssignedTo, t, agent)};
  }

  method RemoveAssignees(s: WorkStore, t: Id)
    modifies s`edges
    ensures s.edges == Unassigned(old(s.edges), t)
  {
    var rest := Targets(s.edges, AssignedTo, t);
    while rest != {}
      invariant forall e ::
                  e in s.edges <==> e in old(s.edges) && (e.name == AssignedTo && e.from == t ==> e.to in rest)
      decreases rest
    {
      var a :| a in rest;
      rest := rest - {a};
      s.edges := s.edges - {Edge(AssignedTo, t, a)};
    }
  }

  /** A task with an unmet dependency is parked instead of dispatched. */
  function Gated(task: Task, unmet: set<Id>, now: Time): Task {
    if unmet != {} && task.status.CanTransitionTo(TaskBlocked) then task.(status := TaskBlocked, updatedAt := now)
    else task
  }

  function GateEvents(task: Task, unmet: set<Id>, t: Id, agent: Id): seq<Event> {
    if unmet == {} then [EvTaskAssigned(t, agent, task.workflowRunId)]
    else if task.status.CanTransitionTo(TaskBlocked)
    then [EvTaskStatusChanged(t, task.status, TaskBlocked, task.workflowRunId)]
    else []
  }

  method Gate(s: WorkStore, t: Id, agent: Id, now: Time)
    requires t in s.tasks
    modifies s`tasks, s`events
    ensures var task, unmet := old(s.tasks[t]), Unmet(old(s.tasks), s.edges, t);
            && s.tasks == old(s.tasks)[t := Gated(task, unmet, now)]
            && s.events == old(s.events) + GateEvents(task, unmet, t, agent)
  {
    var task := s.tasks[t];
    var unmet := FindUnmetDependencies(s, t);
    assert unmet != [] ==> unmet[0] in Unmet(s.tasks, s.edges, t);
    if unmet != [] {
      if task.status.CanTransitionTo(TaskBlocked) {
        s.tasks := s.tasks[t := task.(status := TaskBlocked, updatedAt := now)];
        s.Publish(EvTaskStatusChanged(t, task.status, TaskBlocked, task.workflowRunId));
      } else {
        assert s.tasks == old(s.tasks)[t := task];
      }
      return;
    }
    assert s.tasks == old(s.tasks)[t := task];
    s.Publish(EvTaskAssigned(t, agent, task.workflowRunId));
  }

  /** The checks of an assignment, in order. */
  ghost function AssignError(s: WorkStore, t: Id, key: Id, runId: Id): Option<WorkError>
    reads s
  {
    if t !in s.tasks then Some(ErrTaskNotFound)
    else if !AgentExists(DirectoryOf(s), key) then Some(ErrAgentNotFound)
    else if Mismatch(s.tasks[t], runId) then Some(ErrRunMismatch)
    else if Stamps(s.tasks[t], runId) && runId !in s.runs then Some(ErrRunNotFound)
    else None
  }

  /** Records the run and the assignee, then dispatches the task, or parks it if a dependency is unmet.  A refusal
      changes nothing, except that a run that does not exist has been written on the task by then. */
  method AssignTask(s: WorkStore, t: Id, key: Id, runId: Id, now: Time) returns (r: Result<Id>)
    requires s.HasIds()
    modifies s`tasks, s`edges, s`events
    ensures s.HasIds()
    ensures match old(AssignError(s, t, key, runId))
            case Some(err) =>
              && r == Err(err) && s.edges == old(s.edges) && s.events == old(s.events)
              && s.tasks == if err == ErrRunNotFound then old(s.tasks)[t := Stamped(old(s.tasks[t]), runId, now)]
              else old(s.tasks)
            case None =>
              var task, unmet := old(s.tasks[t]), Unmet(old(s.tasks), old(s.edges), t);
              var stamped := Stamped(task, runId, now);
              && r.Ok? && Names(old(DirectoryOf(s)), key, r.value)
              && s.tasks == old(s.tasks)[t := Gated(stamped, unmet, now)]
              && s.edges == Reassigned(old(s.edges) + StampEdges(s.runs, task, t, runId), t, r.value)
              && s.events == old(s.events)
                             + (if Stamps(task, runId) then Tasks.NewEdge(old(s.edges), Edge(StartedTask, runId, t))
                                else [])
                             + GateEvents(stamped, unmet, t, r.value)
    ensures r.Ok? <==> && t in old(s.tasks) && old(AgentExists(DirectoryOf(s), key))
                       && (runId == UNSET || runId == old(s.tasks[t]).workflowRunId
                           || (old(s.tasks[t]).workflowRunId == UNSET && runId in s.runs))
    // The task is told to its agent exactly if nothing it depends on is missing or unfinished.
    ensures r.Ok? ==>
              var was, now, news := old(s.tasks[t]), s.tasks[t], s.events[|old(s.events)|..];
              && now.workflowRunId == (if runId != UNSET then runId else was.workflowRunId)
              && (forall e :: e in news && e.EvTaskAssigned? ==> e == EvTaskAssigned(t, r.value, now.workflowRunId))
              && multiset(news)[EvTaskAssigned(t, r.value, now.workflowRunId)]
                 == (if old(forall x :: Edge(DependsOn, t, x) in s.edges ==>
                              x in s.tasks && s.tasks[x].status.IsTerminal()) then 1 else 0)
              && multiset(news)[EvTaskStatusChanged(t, was.status, TaskBlocked, now.workflowRunId)]
                 == (if was.status != TaskBlocked && now.status == TaskBlocked then 1 else 0)
              && (forall e :: e in news && e.EvTaskStatusChanged? ==>
                    e == EvTaskStatusChanged(t, was.status, TaskBlocked, now.workflowRunId))
  {
    if t !in s.tasks {
      return Err(ErrTaskNotFound);
    }
    var agent := GetAgent(s, key);
    if agent == None {
      return Err(ErrAgentNotFound);
    }
    r := AssignFound(s, t, agent.value, runId, now);
    if r.Ok? {
      UnmetTells(old(s.tasks), old(s.edges), t);
      AssignmentTells(old(s.events), old(s.edges), old(s.tasks[t]), Unmet(old(s.tasks), old(s.edges), t), t, runId,
                      r.value, now);
    }
  }

  /** GateTells for the task as the assignment found it. */
  lemma AssignmentTells(
      log: seq<Event>, edges: set<Edge>, was: Task, unmet: set<Id>, t: Id, runId: Id, agent: Id, now: Time)
    requires runId == UNSET || runId == was.workflowRunId || was.workflowRunId == UNSET
    ensures var links := if Stamps(was, runId) then Tasks.NewEdge(edges, Edge(StartedTask, runId, t)) else [];
            var stamped := Stamped(was, runId, now);
            var after := Gated(stamped, unmet, now);
            var news := (log + links + GateEvents(stamped, unmet, t, agent))[|log|..];
            && after.workflowRunId == (if runId != UNSET then runId else was.workflowRunId)
            && (forall e :: e in news && e.EvTaskAssigned? ==> e == EvTaskAssigned(t, agent, after.workflowRunId))
            && multiset(news)[EvTaskAssigned(t, agent, after.workflowRunId)] == (if unmet == {} then 1 else 0)
            && multiset(news)[EvTaskStatusChanged(t, was.status, TaskBlocked, after.workflowRunId)]
               == (if was.status != TaskBlocked && after.status == TaskBlocked then 1 else 0)
            && (forall e :: e in news && e.EvTaskStatusChanged? ==>
                  e == EvTaskStatusChanged(t, was.status, TaskBlocked, after.workflowRunId))
  {
    var links := if Stamps(was, runId) then Tasks.NewEdge(edges, Edge(StartedTask, runId, t)) else [];
    var events := GateEvents(Stamped(was, runId, now), unmet, t, agent);
    assert (log + links + events)[|log|..] == links + events;
    GateTells(links, Stamped(was, runId, now), unmet, t, agent, now);
  }

  lemma UnmetTells(tasks: map<Id, Task>, edges: set<Edge>, t: Id)
    ensures Unmet(tasks, edges, t) == {}
            <==> forall x :: Edge(DependsOn, t, x) in edges ==> x in tasks && tasks[x].status.IsTerminal()
  {
    var unmet := Unmet(tasks, edges, t);
    if x :| Edge(DependsOn, t, x) in edges && !(x in tasks && tasks[x].status.IsTerminal()) { assert x in unmet; }
    if x :| x in unmet { assert Edge(DependsOn, t, x) in edges; }
  }

  /** What an accepted assignment announces: the dispatch of the task to its agent, once, exactly if nothing it depends
      on is missing or unfinished; the change to blocked, once, exactly if the task has become blocked; and no other of
      the kind. */
  lemma GateTells(links: seq<Event>, task: Task, unmet: set<Id>, t: Id, agent: Id, now: Time)
    requires forall e :: e in links ==> e.EvRelationshipCreated?
    ensures var news, after := links + GateEvents(task, unmet, t, agent), Gated(task, unmet, now);
            && after.workflowRunId == task.workflowRunId
            && (forall e :: e in news && e.EvTaskAssigned? ==> e == EvTaskAssigned(t, agent, task.workflowRunId))
            && multiset(news)[EvTaskAssigned(t, agent, task.workflowRunId)] == (if unmet == {} then 1 else 0)
            && multiset(news)[EvTaskStatusChanged(t, task.status, TaskBlocked, task.workflowRunId)]
               == (if task.status != TaskBlocked && after.status == TaskBlocked then 1 else 0)
            && (forall e :: e in news && e.EvTaskStatusChanged? ==>
                  e == EvTaskStatusChanged(t, task.status, TaskBlocked, task.workflowRunId))
  {
    var dispatch := EvTaskAssigned(t, agent, task.workflowRunId);
    var blocking := EvTaskStatusChanged(t, task.status, TaskBlocked, task.workflowRunId);
    assert dispatch !in links && blocking !in links;
    assert multiset(links)[dispatch] == 0 && multiset(links)[blocking] == 0;
  }

  /** The assignment once task and agent are found. */
  method AssignFound(s: WorkStore, t: Id, agent: Id, runId: Id, now: Time) returns (r: Result<Id>)
    requires s.HasIds() && t in s.tasks
    modifies s`tasks, s`edges, s`events
    ensures s.HasIds()
    ensures var task, unmet := old(s.tasks[t]), Unmet(old(s.tasks), old(s.edges), t);
            var stamped := Stamped(task, runId, now);
            if Mismatch(task, runId) then
              r == Err(ErrRunMismatch) && s.tasks == old(s.tasks) && s.edges == old(s.edges)
                && s.events == old(s.events)
            else if Stamps(task, runId) && runId !in s.runs then
              && r == Err(ErrRunNotFound) && s.tasks == old(s.tasks)[t := stamped]
              && s.edges == old(s.edges) && s.events == old(s.events)
            else
              && r == Ok(agent)
              && s.tasks == old(s.tasks)[t := Gated(stamped, unmet, now)]
              && s.edges == Reassigned(old(s.edges) + StampEdges(s.runs, task, t, runId), t, agent)
              && s.events == old(s.events)
                             + (if Stamps(task, runId) then Tasks.NewEdge(old(s.edges), Edge(StartedTask, runId, t))
                                else [])
                             + GateEvents(stamped, unmet, t, agent)
  {
    var run := StampRun(s, t, runId, now);
    if run.Err? {
      return Err(run.error);
    }
    StampKeepsUnmet(old(s.tasks), old(s.edges), s.runs, t, runId, now);
    RecordAssignee(s, t, agent, now);
    r := Ok(agent);
  }

  lemma StampKeepsUnmet(tasks: map<Id, Task>, edges: set<Edge>, runs: map<Id, Run>, t: Id, runId: Id, now: Time)
    requires t in tasks
    ensures Unmet(tasks[t := Stamped(tasks[t], runId, now)], edges + StampEdges(runs, tasks[t], t, runId), t)
            == Unmet(tasks, edges, t)
  {
  }

  method RecordAssignee(s: WorkStore, t: Id, agent: Id, now: Time)
    requires t in s.tasks
    modifies s`tasks, s`edges, s`events
    ensures var task, unmet := old(s.tasks[t]), Unmet(old(s.tasks), old(s.edges), t);
            && s.tasks == old(s.tasks)[t := Gated(task, unmet, now)]
            && s.edges == Reassigned(old(s.edges), t, agent)
            && s.events == old(s.events) + GateEvents(task, unmet, t, agent)
  {
    Reassign(s, t, agent);
    assert Unmet(s.tasks, s.edges, t) == Unmet(old(s.tasks), old(s.edges), t);
    Gate(s, t, agent, now);
  }

  /* ---- Unblocking ---- */

  /** Blocked with nothing unmet: only an assignee is needed to let it go. */
  predicate Openable(tasks: map<Id, Task>, edges: set<Edge>, t: Id) {
    t in tasks && tasks[t].status == TaskBlocked && Unmet(tasks, edges, t) == {}
  }

  /** At most one assignee per task, as assignment leaves it. */
  ghost predicate OneAssignee(edges: set<Edge>) {
    forall t, a, b {:trigger Edge(AssignedTo, t, a), Edge(AssignedTo, t, b)} ::
      Edge(AssignedTo, t, a) in edges && Edge(AssignedTo, t, b) in edges ==> a == b
  }

  ghost predicate Resolvable(dir: Directory, edges: set<Edge>, t: Id) {
    exists a :: a in Targets(edges, AssignedTo, t) && AgentExists(dir, a)
  }

  /** Assigned, and every assignee can be found. */
  ghost predicate SurelyResolvable(dir: Directory, edges: set<Edge>, t: Id) {
    Targets(edges, AssignedTo, t) != {} && forall a :: a in Targets(edges, AssignedTo, t) ==> AgentExists(dir, a)
  }

  /** Assignment leaves a task one assignee, whatever it had before, and every other edge where it was. */
  lemma ReassignKeepsOneAssignee(edges: set<Edge>, t: Id, agent: Id)
    ensures Targets(Reassigned(edges, t, agent), AssignedTo, t) == {agent}
    ensures forall e: Edge :: e.name != AssignedTo || e.from != t ==> (e in Reassigned(edges, t, agent) <==> e in edges)
    ensures OneAssignee(edges) ==> OneAssignee(Reassigned(edges, t, agent))
  {
  }

  function Opened(tasks: map<Id, Task>, done: set<Id>, now: Time): map<Id, Task> {
    map t | t in tasks :: if t in done then tasks[t].(status := TaskPending, updatedAt := now) else tasks[t]
  }

  /** Two events for each task let go; `agents` are the assignees told.  Neither event carries the run id. */
  function OpenEvents(order: seq<Id>, agents: seq<Id>): seq<Event>
    requires |order| == |agents|
  {
    if order == [] then []
    else
      var n := |order| - 1;
      OpenEvents(order[..n], agents[..n])
      + OpenPair(order[n], agents[n])
  }

  function OpenPair(t: Id, agent: Id): seq<Event> {
    [EvTaskStatusChanged(t, TaskBlocked, TaskPending, UNSET), EvTaskAssigned(t, agent, UNSET)]
  }

  /** Letting tasks go changes nobody's unmet dependencies: a pending task is as unfinished as a blocked one. */
  lemma OpeningKeepsUnmet(tasks: map<Id, Task>, edges: set<Edge>, done: set<Id>, now: Time, t: Id)
    requires forall d :: d in done && d in tasks ==> tasks[d].status == TaskBlocked
    ensures Unmet(Opened(tasks, done, now), edges, t) == Unmet(tasks, edges, t)
  {
  }

  /** The tasks a completion lets go. */
  ghost function OpenableDependents(tasks: map<Id, Task>, edges: set<Edge>, dir: Directory, completed: Id): set<Id> {
    set d | d in Sources(edges, DependsOn, completed) && Openable(tasks, edges, d) && Resolvable(dir, edges, d)
  }

  /** A second call finds nothing to let go. */
  lemma SecondUnblockIsIdle(tasks: map<Id, Task>, edges: set<Edge>, dir: Directory, completed: Id, now: Time)
    ensures var after := Opened(tasks, OpenableDependents(tasks, edges, dir, completed), now);
            OpenableDependents(after, edges, dir, completed) == {}
  {
    var released := OpenableDependents(tasks, edges, dir, completed);
    forall d | d in Sources(edges, DependsOn, completed) && Resolvable(dir, edges, d)
      ensures !Openable(Opened(tasks, released, now), edges, d)
    {
      OpeningKeepsUnmet(tasks, edges, released, now, d);
    }
  }

  /** One dependent: let go if it is blocked, nothing is unmet and its assignee, the first edge found, resolves. */
  method MaybeUnblockDependent(s: WorkStore, d: Id, now: Time) returns (ghost agent: Option<Id>)
    modifies s`tasks, s`events
    ensures DirectoryOf(s) == old(DirectoryOf(s))
    ensures agent.Some? ==> old(Openable(s.tasks, s.edges, d) && Resolvable(DirectoryOf(s), s.edges, d))
    ensures agent.None? ==> !old(Openable(s.tasks, s.edges, d) && SurelyResolvable(DirectoryOf(s), s.edges, d))
    ensures agent.Some? ==>
              && agent.value in Targets(s.edges, AssignedTo, d)
              && s.tasks == old(s.tasks)[d := old(s.tasks[d]).(status := TaskPending, updatedAt := now)]
              && s.events == old(s.events) + OpenPair(d, agent.value)
    ensures agent.None? ==> s.tasks == old(s.tasks) && s.events == old(s.events)
  {
    agent := None;
    var assignee := FreeToGo(s, d);
    if assignee == None {
      return;
    }
    agent := assignee;
    Open(s, d, assignee.value, now);
  }

  /** Pending again, with the two events. */
  method Open(s: WorkStore, d: Id, agent: Id, now: Time)
    requires d in s.tasks
    modifies s`tasks, s`events
    ensures DirectoryOf(s) == old(DirectoryOf(s))
    ensures s.tasks == old(s.tasks)[d := old(s.tasks[d]).(status := TaskPending, updatedAt := now)]
    ensures s.events == old(s.events) + OpenPair(d, agent)
  {
    s.tasks := s.tasks[d := s.tasks[d].(status := TaskPending, updatedAt := now)];
    assert s.tasks.Keys == old(s.tasks.Keys);
    s.Publish(EvTaskStatusChanged(d, TaskBlocked, TaskPending, UNSET));
    s.Publish(EvTaskAssigned(d, agent, UNSET));
  }

  /** The assignee to tell, if the task may go. */
  method FreeToGo(s: WorkStore, d: Id) returns (assignee: Option<Id>)
    ensures assignee.Some? ==>
              && Openable(s.tasks, s.edges, d) && Resolvable(DirectoryOf(s), s.edges, d)
              && assignee.value in Targets(s.edges, AssignedTo, d)
    ensures assignee.None? ==> !(Openable(s.tasks, s.edges, d) && SurelyResolvable(DirectoryOf(s), s.edges, d))
  {
    if d !in s.tasks || s.tasks[d].status != TaskBlocked {
      return None;
    }
    var unmet := FindUnmetDependencies(s, d);
    if unmet != [] {
      assert unmet[0] in Unmet(s.tasks, s.edges, d);
      return None;
    }
    if Targets(s.edges, AssignedTo, d) == {} {
      return None;
    }
    var first :| first in Targets(s.edges, AssignedTo, d);
    var found := GetAgent(s, first);
    assignee := if found.Some? then Some(first) else None;
  }

  lemma {:induction false} OnlyReleases(order: seq<Id>, agents: seq<Id>)
    requires |order| == |agents|
    ensures forall e :: e in OpenEvents(order, agents) ==>
              (e.EvTaskAssigned? || e.EvTaskStatusChanged?) && e.taskId in order
  {
    if order != [] {
      var n := |order| - 1;
      assert order[..n] + [order[n]] == order;
      OnlyReleases(order[..n], agents[..n]);
    }
  }

  /** The events of a release: one change of status and one dispatch for each task let go. */
  lemma {:induction false} ReleaseTells(order: seq<Id>, agents: seq<Id>, i: nat)
    requires i < |order| == |agents| && NoRepeats(order)
    ensures multiset(OpenEvents(order, agents))[EvTaskAssigned(order[i], agents[i], UNSET)] == 1
    ensures multiset(OpenEvents(order, agents))[EvTaskStatusChanged(order[i], TaskBlocked, TaskPending, UNSET)] == 1
  {
    var n := |order| - 1;
    var rest, last := OpenEvents(order[..n], agents[..n]), OpenPair(order[n], agents[n]);
    assert OpenEvents(order, agents) == rest + last;
    OnlyReleases(order[..n], agents[..n]);
    CountBoth(rest, last, EvTaskAssigned(order[i], agents[i], UNSET));
    CountBoth(rest, last, EvTaskStatusChanged(order[i], TaskBlocked, TaskPending, UNSET));
    if i < n {
      ReleaseTells(order[..n], agents[..n], i);
    } else {
      assert order[n] !in order[..n];
    }
  }

  /** Lets go of exactly the dependents that have become free, in one pass and any order.  If a task had several
      assignees, it would depend on which edge is found first. */
  method UnblockDependents(s: WorkStore, completed: Id, now: Time)
    returns (r: Result<()>, ghost released: set<Id>, ghost order: seq<Id>, ghost agents: seq<Id>)
    modifies s`tasks, s`events
    ensures Dispatched(s.edges, released, order, agents)
    ensures completed !in old(s.tasks) ==> r == Err(ErrTaskNotFound) && released == {}
    ensures completed in old(s.tasks) ==>
              var free := old(OpenableDependents(s.tasks, s.edges, DirectoryOf(s), completed));
              && r == Ok(())
              && released <= free
              && (forall d :: d in free && old(SurelyResolvable(DirectoryOf(s), s.edges, d)) ==> d in released)
              && (OneAssignee(s.edges) ==> released == free)
    ensures s.tasks == Opened(old(s.tasks), released, now)
    ensures s.events == old(s.events) + OpenEvents(order, agents)
    // One dispatch for each task let go, to an assignee of it, and none for another.
    ensures forall t :: t in released ==> t in s.tasks && s.tasks[t].status == TaskPending
    ensures forall t :: t in released ==>
              exists a :: && Edge(AssignedTo, t, a) in s.edges
                          && multiset(s.events[|old(s.events)|..])[EvTaskAssigned(t, a, UNSET)] == 1
    ensures forall e :: e in s.events[|old(s.events)|..] && e.EvTaskAssigned? ==> e.taskId in released
    // No task is published with a dependency unmet, then or afterwards.
    ensures forall t :: t in released ==> Unmet(s.tasks, s.edges, t) == {}
  {
    if completed !in s.tasks {
      return Err(ErrTaskNotFound), {}, [], [];
    }
    released, order, agents := ReleaseDependents(s, completed, now);
    LetGo(old(s.tasks), s.edges, old(DirectoryOf(s)), completed, released, order, agents, now, old(s.events));
    r := Ok(());
  }

  lemma OneAssigneeResolves(dir: Directory, edges: set<Edge>)
    requires OneAssignee(edges)
    ensures forall t :: Resolvable(dir, edges, t) ==> SurelyResolvable(dir, edges, t)
  {
  }

  lemma LetGo(
      tasks: map<Id, Task>, edges: set<Edge>, dir: Directory, completed: Id, released: set<Id>, order: seq<Id>,
      agents: seq<Id>, now: Time, log: seq<Event>)
    requires Dispatched(edges, released, order, agents)
    requires released <= OpenableDependents(tasks, edges, dir, completed)
    ensures forall t :: t in released ==> Unmet(Opened(tasks, released, now), edges, t) == {}
    ensures var after, news := Opened(tasks, released, now), (log + OpenEvents(order, agents))[|log|..];
            && (forall t :: t in released ==> t in after && after[t].status == TaskPending)
            && (forall t :: t in released ==>
                  exists a :: Edge(AssignedTo, t, a) in edges && multiset(news)[EvTaskAssigned(t, a, UNSET)] == 1)
            && forall e :: e in news && e.EvTaskAssigned? ==> e.taskId in released
  {
    forall t | t in released ensures Unmet(Opened(tasks, released, now), edges, t) == {} {
      OpeningKeepsUnmet(tasks, edges, released, now, t);
    }
    assert (log + OpenEvents(order, agents))[|log|..] == OpenEvents(order, agents);
    EachIsTold(edges, released, order, agents);
  }

  lemma EachIsTold(edges: set<Edge>, released: set<Id>, order: seq<Id>, agents: seq<Id>)
    requires Dispatched(edges, released, order, agents)
    ensures forall t :: t in released ==>
              exists a :: && Edge(AssignedTo, t, a) in edges
                          && multiset(OpenEvents(order, agents))[EvTaskAssigned(t, a, UNSET)] == 1
    ensures forall e :: e in OpenEvents(order, agents) && e.EvTaskAssigned? ==> e.taskId in released
  {
    OnlyReleases(order, agents);
    forall t | t in released
      ensures exists a :: && Edge(AssignedTo, t, a) in edges
                          && multiset(OpenEvents(order, agents))[EvTaskAssigned(t, a, UNSET)] == 1
    {
      assert t in order;
      var i :| 0 <= i < |order| && order[i] == t;
      assert agents[i] in Targets(edges, AssignedTo, order[i]);
      ReleaseTells(order, agents, i);
    }
  }

  method ReleaseDependents(s: WorkStore, completed: Id, now: Time)
    returns (ghost released: set<Id>, ghost order: seq<Id>, ghost agents: seq<Id>)
    modifies s`tasks, s`events
    ensures Dispatched(s.edges, released, order, agents)
    ensures var free := old(OpenableDependents(s.tasks, s.edges, DirectoryOf(s), completed));
            && released <= free
            && (forall d :: d in free && old(SurelyResolvable(DirectoryOf(s), s.edges, d)) ==> d in released)
            && (OneAssignee(s.edges) ==> released == free)
    ensures s.tasks == Opened(old(s.tasks), released, now)
    ensures s.events == old(s.events) + OpenEvents(order, agents)
  {
    released, order, agents := {}, [], [];
    ghost var before, dir := s.tasks, DirectoryOf(s);
    var rest := Sources(s.edges, DependsOn, completed);
    while rest != {}
      invariant DirectoryOf(s) == dir && s.tasks == Opened(before, released, now)
      invariant ReleaseStage(before, s.edges, dir, completed, rest, released)
      invariant Dispatched(s.edges, released, order, agents)
      invariant s.events == old(s.events) + OpenEvents(order, agents)
      decreases rest
    {
      var d :| d in rest;
      StageStep(before, s.edges, dir, completed, rest, released, d, now);
      rest := rest - {d};
      ghost var agent := MaybeUnblockDependent(s, d, now);
      if agent.Some? {
        OpenOneMore(before, s.edges, released, order, agents, d, agent.value, now);
        LogAssoc(old(s.events), OpenEvents(order, agents), OpenPair(d, agent.value));
        order, agents, released := order + [d], agents + [agent.value], released + {d};
      }
    }
    StageEnds(before, s.edges, dir, completed, released);
  }

  lemma StageEnds(tasks: map<Id, Task>, edges: set<Edge>, dir: Directory, completed: Id, released: set<Id>)
    requires ReleaseStage(tasks, edges, dir, completed, {}, released)
    ensures var free := OpenableDependents(tasks, edges, dir, completed);
            && released <= free
            && (forall d :: d in free && SurelyResolvable(dir, edges, d) ==> d in released)
            && (OneAssignee(edges) ==> released == free)
  {
    if OneAssignee(edges) { OneAssigneeResolves(dir, edges); }
  }

  /** With `rest` still to visit: only dependents that may go have gone, and all that surely may. */
  ghost predicate ReleaseStage(
      tasks: map<Id, Task>, edges: set<Edge>, dir: Directory, completed: Id, rest: set<Id>, released: set<Id>)
  {
    var free := OpenableDependents(tasks, edges, dir, completed);
    && rest <= Sources(edges, DependsOn, completed)
    && (forall d :: d in released ==> d in free && d !in rest)
    && (forall d :: d in free && SurelyResolvable(dir, edges, d) && d !in rest ==> d in released)
  }

  lemma StageStep(
      tasks: map<Id, Task>, edges: set<Edge>, dir: Directory, completed: Id, rest: set<Id>, released: set<Id>, d: Id,
      now: Time)
    requires ReleaseStage(tasks, edges, dir, completed, rest, released) && d in rest
    ensures d !in released && (Openable(Opened(tasks, released, now), edges, d) <==> Openable(tasks, edges, d))
    ensures Openable(tasks, edges, d) && Resolvable(dir, edges, d) ==>
              ReleaseStage(tasks, edges, dir, completed, rest - {d}, released + {d})
    ensures !(Openable(tasks, edges, d) && SurelyResolvable(dir, edges, d)) ==>
              ReleaseStage(tasks, edges, dir, completed, rest - {d}, released)
  {
    OpeningKeepsUnmet(tasks, edges, released, now, d);
  }

  /** Each released task was told to one of its assignees. */
  ghost predicate Dispatched(edges: set<Edge>, released: set<Id>, order: seq<Id>, agents: seq<Id>) {
    && |order| == |agents| && Enumerates(order, released)
    && forall i :: 0 <= i < |order| ==> agents[i] in Targets(edges, AssignedTo, order[i])
  }

  lemma OpenOneMore(
      before: map<Id, Task>, edges: set<Edge>, released: set<Id>, order: seq<Id>, agents: seq<Id>, d: Id, agent: Id,
      now: Time)
    requires d in before && d !in released && Dispatched(edges, released, order, agents)
    requires agent in Targets(edges, AssignedTo, d)
    ensures Opened(before, released, now)[d] == before[d]
    ensures Opened(before, released, now)[d := before[d].(status := TaskPending, updatedAt := now)]
            == Opened(before, released + {d}, now)
    ensures Dispatched(edges, released + {d}, order + [d], agents + [agent])
    ensures OpenEvents(order + [d], agents + [agent]) == OpenEvents(order, agents) + OpenPair(d, agent)
  {
    assert (order + [d])[..|order|] == order && (agents + [agent])[..|agents|] == agents;
  }

  /* ---- Unblocking by hand ---- */

  const UNBLOCKED := "\n\nUnblocked: "

  /** The blocked task awaits direction again, with a note in its description. */
  function Reconsidered(task: Task, note: string): Task {
    task.(status := TaskAwaitingDirection,
          description := if note == "" then task.description else task.description + UNBLOCKED + note)
  }

  /** Parks a task that may await direction; the status of its run is not looked at. */
  method UnblockTask(s: WorkStore, t: Id, note: string, now: Time) returns (r: Result<Task>)
    requires s.HasIds()
    modifies s`tasks, s`edges, s`events
    ensures s.HasIds() && s.edges == old(s.edges)
    ensures if t !in old(s.tasks) then r == Err(ErrTaskNotFound)
            else if !old(s.tasks[t]).status.CanTransitionTo(TaskAwaitingDirection)
            then r == Err(ErrInvalidTaskTransition)
            else
              && r == Ok(Tasks.Merged(old(s.tasks[t]), Reconsidered(old(s.tasks[t]), note), now))
              && s.tasks == old(s.tasks)[t := r.value]
              && s.events == old(s.events) + Tasks.UpdateEvents(t, old(s.tasks[t]), r.value)
    ensures r.Err? ==> s.tasks == old(s.tasks) && s.events == old(s.events)
  {
    if t !in s.tasks {
      return Err(ErrTaskNotFound);
    }
    if !s.tasks[t].status.CanTransitionTo(TaskAwaitingDirection) {
      return Err(ErrInvalidTaskTransition);
    }
    var ok := Tasks.UpdateInPlace(s, t, Reconsidered(s.tasks[t], note), now);
    r := Ok(s.tasks[t]);
  }

  /** Takes every assignee off a task. */
  method UnassignTask(s: WorkStore, t: Id) returns (r: Result<()>)
    modifies s`edges
    ensures r == if t in s.tasks then Ok(()) else Err(ErrTaskNotFound)
    ensures s.edges == if t in s.tasks then Unassigned(old(s.edges), t) else old(s.edges)
  {
    if t !in s.tasks {
      return Err(ErrTaskNotFound);
    }
    RemoveAssignees(s, t);
    r := Ok(());
  }
}
