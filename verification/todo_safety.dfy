/** What every event of a run leaves true of the todos of a task, and when the settlement of the task judges one of its
    decompositions rightly.  A task may have todos of other decompositions, and ordinalities may collide. */
module TodoSafety {
  import opened WorkModel
  import opened TodoGraph
  import opened TodoRuns
  import opened TodoScheduler

  /* ---- The todos of one task ---- */

  /** The todos that has_todo edges lead to from this task are in the store, name it as their parent, and no such edge
      leads to them from elsewhere. */
  ghost predicate Owned(todos: Board, edges: set<Edge>, parent: Id) {
    && (forall k :: k in Kids(edges, parent) ==> k in todos && todos[k].parentTaskId == parent)
    && (forall t :: t != parent ==> Kids(edges, t) !! Kids(edges, parent))
  }

  /** None of them has been published twice, and no blocked one at all. */
  ghost predicate PublishedOnce(p: Progress, kids: set<Id>) {
    forall k :: k in kids && k in p.todos ==>
      p.published[k] <= 1 && (p.todos[k].status == TodoBlocked ==> p.published[k] == 0)
  }

  ghost predicate Tidy(p: Progress, parent: Id) {
    Owned(p.todos, p.edges, parent) && PublishedOnce(p, Kids(p.edges, parent))
  }

  /** So it is for every task of a store without todos. */
  lemma EmptyIsTidy(edges: set<Edge>, parent: Id)
    requires forall e :: e in edges ==> e.name != HasTodo
    ensures Tidy(Progress(map[], edges, multiset{}), parent)
  {
    forall t ensures Kids(edges, t) == {} {
      assert forall k :: k in Kids(edges, t) ==> Edge(HasTodo, t, k) in edges;
    }
  }

  lemma {:induction false} EnumerationCounts(order: seq<Id>, ids: set<Id>)
    requires Enumerates(order, ids)
    ensures multiset(order) == multiset(ids)
  {
    if order == [] {
      assert ids == {};
    } else {
      var rest, last := order[..|order| - 1], order[|order| - 1];
      assert order == rest + [last];
      EnumerationCounts(rest, ids - {last});
      assert ids == (ids - {last}) + {last};
    }
  }

  /** A report on another task's todo changes none of these. */
  lemma OtherTaskUntouched(
      todos: Board, edges: set<Edge>, parent: Id, id: Id, report: Report, trail: Trail, after: Board, k: Id)
    requires id in todos && Owned(todos, edges, parent) && todos[id].parentTaskId != parent
    requires Reported(todos, edges, id, report, trail, after) && k in Kids(edges, parent)
    ensures k in after && after[k] == todos[k] && k !in trail.order
  {
    assert k !in Kids(edges, todos[id].parentTaskId);
  }

  lemma StepKeepsOwned(p: Progress, turn: Turn, parent: Id)
    requires Owned(p.todos, p.edges, parent) && Stepped(p, turn)
    ensures Owned(turn.after.todos, turn.after.edges, parent)
  {
    StepKeepsShape(p, turn);
    if turn.event.PlanMade? && turn.event.batch.plan.parent != UNSET {
      DecompositionKeepsOwned(p, turn.event.batch, turn.after, parent);
    }
  }

  lemma DecompositionKeepsOwned(p: Progress, b: Batch, q: Progress, parent: Id)
    requires Owned(p.todos, p.edges, parent) && NewIds(p, b) && q == Decomposed(p, b)
    ensures Owned(q.todos, q.edges, parent)
  {
    DecompositionAdds(p, b);
    forall k | k in Kids(q.edges, parent) ensures k in q.todos && q.todos[k].parentTaskId == parent {
      if k in Group(b) { var i :| IsPlanned(q.todos, b, k, i); }
    }
  }

  /* ---- Dispatch ---- */

  /** The task whose todos an event is about. */
  function TaskOf(p: Progress, e: TodoEvent): Id {
    match e
    case ReportOn(id, _) => if id in p.todos then p.todos[id].parentTaskId else UNSET
    case PlanMade(b) => b.plan.parent
  }

  /** `k` is published once more, as it leaves blocked or comes into being, and every dependency of it is then provided
      by some completed or skipped sibling, by all of them if ordinalities are unique. */
  ghost predicate Launched(p: Progress, q: Progress, task: Id, k: Id) {
    && q.published[k] == p.published[k] + 1
    && k in q.todos && q.todos[k].status == TodoPending
    && (if k in p.todos then p.todos[k].status == TodoBlocked else p.published[k] == 0)
    && AllDepsSatisfied(q.todos, Kids(q.edges, task), q.todos[k])
  }

  /** An event publishes no todo in any other way. */
  lemma StepPublishesReady(p: Progress, turn: Turn)
    requires Stepped(p, turn)
    ensures forall k :: turn.after.published[k] != p.published[k] ==> Launched(p, turn.after, TaskOf(p, turn.event), k)
  {
    match turn.event
    case ReportOn(id, report) => if id in p.todos { ReportPublishesReady(p, id, report, turn.trail, turn.after); }
    case PlanMade(b) =>
      if b.plan.parent != UNSET { DecompositionPublishesReady(p, b); }
  }

  lemma DecompositionPublishesReady(p: Progress, b: Batch)
    requires NewIds(p, b)
    ensures var q := Decomposed(p, b);
            forall k :: q.published[k] != p.published[k] ==> Launched(p, q, b.plan.parent, k)
  {
    var q := Decomposed(p, b);
    DecompositionAdds(p, b);
    forall k | q.published[k] != p.published[k] ensures Launched(p, q, b.plan.parent, k) {
      var i :| IsPlanned(q.todos, b, k, i);
    }
  }

  lemma ReportPublishesReady(p: Progress, id: Id, report: Report, trail: Trail, q: Progress)
    requires id in p.todos && Stepped(p, Turn(ReportOn(id, report), trail, q))
    ensures forall k :: q.published[k] != p.published[k] ==> Launched(p, q, p.todos[id].parentTaskId, k)
  {
    var ready := ReleasedIn(p.todos, p.edges, id, report, trail.snap);
    EnumerationCounts(trail.order, ready);
    forall k | k in ready ensures Launched(p, q, p.todos[id].parentTaskId, k) {
      ReleasedIsReady(p.todos, p.edges, id, report, trail, q.todos, k);
    }
  }

  lemma ReleasedIsReady(
      todos: Board, edges: set<Edge>, id: Id, report: Report, trail: Trail, after: Board, k: Id)
    requires id in todos && Reported(todos, edges, id, report, trail, after)
    requires k in ReleasedIn(todos, edges, id, report, trail.snap)
    ensures k in todos && k in after && todos[k].status == TodoBlocked && after[k].status == TodoPending
    ensures AllDepsSatisfied(after, Kids(edges, todos[id].parentTaskId), after[k])
  {
    SnapshotShows(Marked(todos, id, report), Kids(edges, todos[id].parentTaskId), trail.snap,
                  ReleasedIn(todos, edges, id, report, trail.snap), k);
  }

  lemma SnapshotShows(marked: Board, kids: set<Id>, snap: map<int, TodoStatus>, ready: set<Id>, k: Id)
    requires IsSnapshot(marked, kids, snap) && k in marked && SatisfiedBy(snap, marked[k])
    requires forall j :: j in ready ==> j in marked && marked[j].status == TodoBlocked
    ensures AllDepsSatisfied(WithStatus(marked, ready, TodoPending), kids, marked[k])
  {
    forall d | d in marked[k].dependsOn ensures DepSatisfied(WithStatus(marked, ready, TodoPending), kids, d) {
      var j :| j in kids && j in marked && marked[j].ordinality == d && marked[j].status == snap[d];
    }
  }

  lemma StepKeepsTidy(p: Progress, turn: Turn, parent: Id)
    requires Tidy(p, parent) && Stepped(p, turn)
    ensures Tidy(turn.after, parent)
  {
    StepKeepsOwned(p, turn, parent);
    StepKeepsShape(p, turn);
    StepPublishesReady(p, turn);
    forall k | k in Kids(turn.after.edges, parent)
      ensures turn.after.published[k] <= 1
      ensures turn.after.todos[k].status == TodoBlocked ==> turn.after.published[k] == 0
    {
      KidIsOldOrNew(p, turn, parent, k);
    }
  }

  lemma KidIsOldOrNew(p: Progress, turn: Turn, parent: Id, k: Id)
    requires Stepped(p, turn) && k in Kids(turn.after.edges, parent)
    ensures k in Kids(p.edges, parent) || (k !in p.todos && p.published[k] == 0)
  {
    if turn.event.PlanMade? && turn.event.batch.plan.parent != UNSET { DecompositionAdds(p, turn.event.batch); }
  }

  /** Over whole runs, decompositions of this and of other tasks included: the todos stay the task's own, and each is
      published once at most. */
  lemma {:induction false} RunIsTidy(p: Progress, run: seq<Turn>, parent: Id)
    requires Tidy(p, parent) && IsRun(p, run)
    ensures Tidy(End(p, run), parent)
  {
    if run != [] {
      OneLess(p, run);
      RunIsTidy(p, run[..|run| - 1], parent);
      StepKeepsTidy(End(p, run[..|run| - 1]), run[|run| - 1], parent);
    }
  }

  /* ---- One decomposition among the todos of a task ---- */

  /** `j` is a dependency of `k`. */
  predicate DependencyOf(todos: Board, kids: set<Id>, j: Id, k: Id) {
    j in kids && j in todos && k in todos && todos[j].ordinality in todos[k].dependsOn
  }

  /** The siblings with ordinality `d`, of this decomposition or of another. */
  function Providers(todos: Board, kids: set<Id>, d: int): set<Id> {
    set j | j in kids && j in todos && todos[j].ordinality == d
  }

  /** Not certain to be satisfied: nobody provides it, a sibling outside the group does, or one in the group that is not
      completed or skipped. */
  ghost predicate Unsure(todos: Board, kids: set<Id>, group: set<Id>, d: int) {
    || Providers(todos, kids, d) == {}
    || exists j :: j in Providers(todos, kids, d) && (j !in group || !todos[j].status.Satisfies())
  }

  /** No dependency in the group has failed, and one is not certain to be satisfied. */
  ghost predicate Waiting(todos: Board, kids: set<Id>, group: set<Id>, k: Id)
    requires k in todos
  {
    && (forall j :: j in group && DependencyOf(todos, kids, j, k) ==> todos[j].status != TodoFailed)
    && exists d :: d in todos[k].dependsOn && Unsure(todos, kids, group, d)
  }

  ghost predicate OnTrack(todos: Board, kids: set<Id>, group: set<Id>) {
    forall k :: k in BlockedKids(todos, group) ==> Waiting(todos, kids, group, k)
  }

  /** Any event, on any task, leaves the blocked todos of the group waiting. */
  lemma StepKeepsOnTrack(p: Progress, turn: Turn, parent: Id, group: set<Id>)
    requires Owned(p.todos, p.edges, parent) && group <= Kids(p.edges, parent)
    requires OnTrack(p.todos, Kids(p.edges, parent), group) && Stepped(p, turn)
    ensures OnTrack(turn.after.todos, Kids(turn.after.edges, parent), group)
  {
    match turn.event
    case ReportOn(id, report) =>
      if id in p.todos { ReportKeepsOnTrack(p.todos, p.edges, parent, group, id, report, turn.trail, turn.after.todos);
                        }
    case PlanMade(b) =>
      if b.plan.parent != UNSET { DecompositionKeepsOnTrack(p, b, turn.after, parent, group); }
  }

  lemma DecompositionKeepsOnTrack(p: Progress, b: Batch, q: Progress, parent: Id, group: set<Id>)
    requires NewIds(p, b) && q == Decomposed(p, b) && group <= Kids(p.edges, parent) <= p.todos.Keys
    requires OnTrack(p.todos, Kids(p.edges, parent), group)
    ensures OnTrack(q.todos, Kids(q.edges, parent), group)
  {
    DecompositionAdds(p, b);
    forall k | k in BlockedKids(q.todos, group) ensures Waiting(q.todos, Kids(q.edges, parent), group, k) {
      SameWaiting(p.todos, q.todos, Kids(p.edges, parent), Kids(q.edges, parent), group, k);
    }
  }

  lemma ReportKeepsOnTrack(
      todos: Board, edges: set<Edge>, parent: Id, group: set<Id>, id: Id, report: Report, trail: Trail, after: Board)
    requires id in todos && Owned(todos, edges, parent) && Reported(todos, edges, id, report, trail, after)
    requires group <= Kids(edges, parent) && OnTrack(todos, Kids(edges, parent), group)
    ensures OnTrack(after, Kids(edges, parent), group)
  {
    var kids := Kids(edges, parent);
    ReportKeepsShape(todos, edges, id, report, trail, after);
    forall k | k in BlockedKids(after, group) ensures Waiting(after, kids, group, k) {
      if todos[id].parentTaskId != parent {
        forall j | j in kids ensures after[j] == todos[j] {
          OtherTaskUntouched(todos, edges, parent, id, report, trail, after, j);
        }
        SameWaiting(todos, after, kids, kids, group, k);
      } else {
        StillWaiting(todos, edges, group, id, report, trail, after, k);
      }
    }
  }

  /** Nothing has happened to the todos of the task, but there may be new ones. */
  lemma SameWaiting(todos: Board, after: Board, kids: set<Id>, kids': set<Id>, group: set<Id>, k: Id)
    requires group <= kids <= kids' && kids <= todos.Keys <= after.Keys
    requires forall j :: j in kids ==> after[j] == todos[j]
    requires k in group && Waiting(todos, kids, group, k)
    ensures Waiting(after, kids', group, k)
  {
    var d :| d in todos[k].dependsOn && Unsure(todos, kids, group, d);
    UnsureKept(todos, after, kids, kids', group, d);
  }

  /** The heart of it: a todo of the group that is still blocked after a report on its task. */
  lemma StillWaiting(
      todos: Board, edges: set<Edge>, group: set<Id>, id: Id, report: Report, trail: Trail, after: Board, k: Id)
    requires id in todos && Reported(todos, edges, id, report, trail, after)
    requires var kids := Kids(edges, todos[id].parentTaskId);
             group <= kids <= todos.Keys && OnTrack(todos, kids, group)
    requires k in BlockedKids(after, group) && SameShape(after, todos)
    ensures Waiting(after, Kids(edges, todos[id].parentTaskId), group, k)
  {
    var kids := Kids(edges, todos[id].parentTaskId);
    ReportUnblocks(todos, edges, id, report, trail, after);
    assert k in BlockedKids(todos, group) && k != id;
    match report
    case Started => StartLeavesWaiting(todos, kids, group, id, k);
    case Completed => CompletionLeavesWaiting(todos, TodoCompleted, kids, group, id, k, trail.snap);
    case Skipped => CompletionLeavesWaiting(todos, TodoSkipped, kids, group, id, k, trail.snap);
    case Failed => FailureLeavesWaiting(todos, Marked(todos, id, Failed), kids, group, id, k);
  }

  lemma StartLeavesWaiting(todos: Board, kids: set<Id>, group: set<Id>, id: Id, k: Id)
    requires group <= kids <= todos.Keys && id in todos && k != id
    requires k in BlockedKids(todos, group) && Waiting(todos, kids, group, k)
    ensures Waiting(Marked(todos, id, Started), kids, group, k)
  {
    var after := Marked(todos, id, Started);
    assert forall j :: DependencyOf(after, kids, j, k) ==> DependencyOf(todos, kids, j, k);
    var d :| d in todos[k].dependsOn && Unsure(todos, kids, group, d);
    UnsureKept(todos, after, kids, kids, group, d);
  }

  /** After a failure: the cascade has taken everything that depended on something failed. */
  lemma FailureLeavesWaiting(todos: Board, marked: Board, kids: set<Id>, group: set<Id>, id: Id, k: Id)
    requires k in group && group <= kids <= todos.Keys && id in todos && k != id
    requires marked == todos[id := todos[id].(status := TodoFailed)]
    requires k in BlockedKids(todos, group) && Waiting(todos, kids, group, k)
    requires k !in Cascade(marked, BlockedKids(marked, kids), {todos[id].ordinality})
    ensures var taken := Cascade(marked, BlockedKids(marked, kids), {todos[id].ordinality});
            Waiting(WithStatus(marked, taken, TodoFailed), kids, group, k)
  {
    var blocked, ord := BlockedKids(marked, kids), todos[id].ordinality;
    var taken := Cascade(marked, blocked, {ord});
    var after := WithStatus(marked, taken, TodoFailed);
    CascadeIsLeast(marked, blocked, {ord});
    assert !DependsOnAny(marked[k], {ord} + Ordinalities(marked, taken));
    forall j | DependencyOf(after, kids, j, k) ensures j != id && j !in taken && after[j] == todos[j] {
      assert DependencyOf(todos, kids, j, k);
    }
    var d :| d in todos[k].dependsOn && Unsure(todos, kids, group, d);
    UnsureKept(todos, after, kids, kids, group, d);
  }

  /** New todos are outside the group, and no todo of the task has become satisfied. */
  lemma UnsureKept(todos: Board, after: Board, kids: set<Id>, kids': set<Id>, group: set<Id>, d: int)
    requires group <= kids <= kids' && kids <= todos.Keys <= after.Keys && Unsure(todos, kids, group, d)
    requires forall j :: j in kids ==> after[j].ordinality == todos[j].ordinality
    requires forall j :: j in kids && after[j].status.Satisfies() ==> todos[j].status.Satisfies()
    ensures Unsure(after, kids', group, d)
  {
    if j :| j in Providers(todos, kids, d) && (j !in group || !todos[j].status.Satisfies()) {
      assert j in Providers(after, kids', d);
    } else if j :| j in Providers(after, kids', d) {
      assert j !in group by { assert j in kids ==> j in Providers(todos, kids, d); }
    }
  }

  /** After a completion or a skip: either `k` names the settled ordinality and the snapshot showed some dependency of
      it unsatisfied, or what it waited for is as it was. */
  lemma CompletionLeavesWaiting(
      todos: Board, status: TodoStatus, kids: set<Id>, group: set<Id>, id: Id, k: Id, snap: map<int, TodoStatus>)
    requires k in group && group <= kids <= todos.Keys && id in todos && k != id && status.Satisfies()
    requires k in BlockedKids(todos, group) && Waiting(todos, kids, group, k)
    requires IsSnapshot(todos[id := todos[id].(status := status)], kids, snap)
    requires k !in ReadyIn(todos[id := todos[id].(status := status)], kids, todos[id].ordinality, snap)
    ensures var marked := todos[id := todos[id].(status := status)];
            Waiting(WithStatus(marked, ReadyIn(marked, kids, todos[id].ordinality, snap), TodoPending), kids, group, k)
  {
    var marked := todos[id := todos[id].(status := status)];
    var after := WithStatus(marked, ReadyIn(marked, kids, todos[id].ordinality, snap), TodoPending);
    forall j | j in group && DependencyOf(after, kids, j, k) ensures after[j].status != TodoFailed {
      assert DependencyOf(todos, kids, j, k);
    }
    var d := UnsureAfter(todos, marked, kids, group, id, k, snap);
    UnsureKept(marked, after, kids, kids, group, d);
  }

  lemma UnsureAfter(
      todos: Board, marked: Board, kids: set<Id>, group: set<Id>, id: Id, k: Id,
      snap: map<int, TodoStatus>) returns (d: int)
    requires k in group && group <= kids <= todos.Keys && id in todos && k != id
    requires id in marked && marked == todos[id := todos[id].(status := marked[id].status)]
    requires k in BlockedKids(todos, group) && Waiting(todos, kids, group, k) && IsSnapshot(marked, kids, snap)
    requires k !in ReadyIn(marked, kids, todos[id].ordinality, snap)
    ensures d in todos[k].dependsOn && Unsure(marked, kids, group, d)
  {
    if todos[id].ordinality in todos[k].dependsOn {
      d :| d in todos[k].dependsOn && !(d in snap && snap[d].Satisfies());
      UnsatisfiedIsUnsure(marked, kids, group, snap, d);
    } else {
      d :| d in todos[k].dependsOn && Unsure(todos, kids, group, d);
      UnsureElsewhere(todos, marked, kids, group, id, d);
    }
  }

  /** What happens to one todo leaves the others' ordinalities as uncertain as they were. */
  lemma UnsureElsewhere(todos: Board, marked: Board, kids: set<Id>, group: set<Id>, id: Id, d: int)
    requires id in todos && id in marked && marked == todos[id := todos[id].(status := marked[id].status)]
    requires todos[id].ordinality != d && Unsure(todos, kids, group, d)
    ensures Unsure(marked, kids, group, d)
  {
    assert Providers(marked, kids, d) == Providers(todos, kids, d);
  }

  lemma UnsatisfiedIsUnsure(todos: Board, kids: set<Id>, group: set<Id>, snap: map<int, TodoStatus>, d: int)
    requires IsSnapshot(todos, kids, snap) && !(d in snap && snap[d].Satisfies())
    ensures Unsure(todos, kids, group, d)
  {
    if d in snap {
      var j :| j in kids && j in todos && todos[j].ordinality == d && todos[j].status == snap[d];
      assert j in Providers(todos, kids, d);
    }
  }

  /* ---- What every run keeps ---- */

  /** `group` is one decomposition among the todos of the task. */
  ghost predicate Safe(p: Progress, parent: Id, group: set<Id>) {
    Tidy(p, parent) && group <= Kids(p.edges, parent) && OnTrack(p.todos, Kids(p.edges, parent), group)
  }

  lemma StepKeepsSafe(p: Progress, turn: Turn, parent: Id, group: set<Id>)
    requires Safe(p, parent, group) && Stepped(p, turn)
    ensures Safe(turn.after, parent, group)
  {
    StepKeepsTidy(p, turn, parent);
    StepKeepsOnTrack(p, turn, parent, group);
    StepKeepsKids(p, turn, parent);
  }

  /** Every reachable state is safe, whatever decompositions come in between. */
  lemma {:induction false} RunIsSafe(p: Progress, run: seq<Turn>, parent: Id, group: set<Id>)
    requires Safe(p, parent, group) && IsRun(p, run)
    ensures Safe(End(p, run), parent, group)
  {
    if run != [] {
      OneLess(p, run);
      RunIsSafe(p, run[..|run| - 1], parent, group);
      StepKeepsSafe(End(p, run[..|run| - 1]), run[|run| - 1], parent, group);
    }
  }

  /* ---- When the parent is judged truly ---- */

  predicate Unsettled(t: Todo) { t.status.IsLive() || t.status == TodoBlocked }

  /** The verdict does not take a blocked todo for a failed one: open while anything is unsettled, a success exactly
      when every todo is completed or skipped, a failure exactly when all are settled and one really failed. */
  ghost predicate JudgedTruly(todos: Board, group: set<Id>) {
    && group <= todos.Keys
    && (VerdictOf(todos, group) == StillOpen <==> exists k :: k in group && Unsettled(todos[k]))
    && (VerdictOf(todos, group) == AllSucceeded <==> forall k :: k in group ==> todos[k].status.Satisfies())
    && (VerdictOf(todos, group) == SomeFailed
        <==> && (forall k :: k in group ==> !Unsettled(todos[k]))
             && exists k :: k in group && todos[k].status == TodoFailed)
  }

  /** Nobody outside `b` can be relied on for `d`: nobody provides it, or a todo of `b` does, or one of another
      decomposition. */
  ghost predicate Held(todos: Board, kids: set<Id>, group: set<Id>, b: set<Id>, d: int) {
    Providers(todos, kids, d) == {} || exists j :: j in Providers(todos, kids, d) && (j in b || j !in group)
  }

  /** A part of the decomposition that need never start: each of its todos has a dependency that is held. */
  ghost predicate Stuck(todos: Board, kids: set<Id>, group: set<Id>, b: set<Id>) {
    && b != {} && b <= group && b <= todos.Keys
    && forall k :: k in b ==> exists d :: d in todos[k].dependsOn && Held(todos, kids, group, b, d)
  }

  /** No proper part of the decomposition is stuck. */
  ghost predicate Sound(todos: Board, kids: set<Id>, group: set<Id>) {
    forall b :: Stuck(todos, kids, group, b) ==> b == group
  }

  /** On track, the only way to judge wrongly is a stuck set of blocked todos with nothing live left in the group. */
  lemma VerdictIsSound(todos: Board, kids: set<Id>, group: set<Id>)
    requires group <= kids <= todos.Keys && OnTrack(todos, kids, group)
    ensures JudgedTruly(todos, group) || Stuck(todos, kids, group, BlockedKids(todos, group))
  {
    var blocked := BlockedKids(todos, group);
    assert forall k :: k in group && todos[k].status == TodoBlocked ==> k in blocked;
    if blocked != {} && forall k :: k in group ==> !todos[k].status.IsLive() {
      forall k | k in blocked ensures exists d :: d in todos[k].dependsOn && Held(todos, kids, group, blocked, d) {
        var d :| d in todos[k].dependsOn && Unsure(todos, kids, group, d);
        if j :| j in Providers(todos, kids, d) && (j !in group || !todos[j].status.Satisfies()) {
          assert DependencyOf(todos, kids, j, k);
        }
        assert Held(todos, kids, group, blocked, d);
      }
    }
  }

  lemma StuckIsShape(a: Board, b: Board, kids: set<Id>, group: set<Id>, part: set<Id>)
    requires SameShape(a, b) && kids <= b.Keys && group <= b.Keys
    ensures Stuck(a, kids, group, part) <==> Stuck(b, kids, group, part)
  {
    forall d ensures Providers(a, kids, d) == Providers(b, kids, d)
      && (Held(a, kids, group, part, d) <==> Held(b, kids, group, part, d)) {
    }
    forall k | k in part && k in b
      ensures (exists d :: d in a[k].dependsOn && Held(a, kids, group, part, d))
              <==> exists d :: d in b[k].dependsOn && Held(b, kids, group, part, d)
    {
    }
  }

  /** Soundness is a matter of the plan and not of what has happened to it, as long as the task is not decomposed
      again. */
  lemma RunKeepsSound(p: Progress, run: seq<Turn>, parent: Id, group: set<Id>)
    requires Owned(p.todos, p.edges, parent) && group <= Kids(p.edges, parent)
    requires IsRun(p, run) && NoNewPlan(parent, run)
    ensures Kids(End(p, run).edges, parent) == Kids(p.edges, parent)
    ensures Sound(End(p, run).todos, Kids(p.edges, parent), group) <==> Sound(p.todos, Kids(p.edges, parent), group)
  {
    var kids, q := Kids(p.edges, parent), End(p, run);
    RunKeepsKids(p, run, parent);
    RunKeepsShape(p, run);
    forall b ensures Stuck(q.todos, kids, group, b) <==> Stuck(p.todos, kids, group, b) {
      StuckIsShape(q.todos, p.todos, kids, group, b);
    }
  }

  /** From a safe start, after any reports on any tasks in any order and with any redelivery, at least one of them on
      the group, and any decompositions: the group is judged truly unless a proper part of it is stuck by then. */
  lemma AnyRunJudgesTruly(p: Progress, run: seq<Turn>, parent: Id, group: set<Id>)
    requires Safe(p, parent, group) && IsRun(p, run) && SomeReportOn(group, run)
    requires Sound(End(p, run).todos, Kids(End(p, run).edges, parent), group)
    ensures JudgedTruly(End(p, run).todos, group)
  {
    var q := End(p, run);
    RunIsSafe(p, run, parent, group);
    var i :| 0 <= i < |run| && run[i].event.ReportOn? && run[i].event.id in group;
    ReportedStaysUnblocked(p, run, i);
    assert run[i].event.id !in BlockedKids(q.todos, group);
    VerdictIsSound(q.todos, Kids(q.edges, parent), group);
  }
}
