/** Runs in which agents report only on todos that have been published to them: exactly which decompositions are then
    always judged rightly. */
module TodoAgents {
  import opened WorkModel
  import opened TodoGraph
  import opened TodoRuns
  import opened TodoSafety
  import opened TodoScheduler
  import opened TodoSettlement
  import opened TodoVerdict

  /* ---- Who can report what ---- */

  /** Agents start and complete what has been published; an operator can fail any todo; only a failed todo is
      skipped. */
  ghost predicate Genuine(p: Progress, e: TodoEvent) {
    e.ReportOn? && e.id in p.todos ==>
      match e.report
      case Started => p.published[e.id] > 0
      case Completed => p.published[e.id] > 0
      case Failed => true
      case Skipped => p.todos[e.id].status == TodoFailed
  }

  ghost predicate GenuineStep(p: Progress, turn: Turn) {
    Stepped(p, turn) && Genuine(p, turn.event)
  }

  ghost predicate IsGenuine(p: Progress, run: seq<Turn>) {
    IsChain(GenuineStep, p, run)
  }

  lemma GenuineIsRun(p: Progress, run: seq<Turn>)
    requires IsGenuine(p, run)
    ensures IsRun(p, run)
  {
    forall i | 0 <= i < |run| ensures Stepped(At(p, run, i), run[i]) {
      assert GenuineStep(At(p, run, i), run[i]);
    }
  }

  lemma OneLessGenuine(p: Progress, run: seq<Turn>)
    requires run != [] && IsGenuine(p, run)
    ensures var rest, last := run[..|run| - 1], run[|run| - 1];
            && IsGenuine(p, rest) && GenuineStep(End(p, rest), last) && End(p, run) == last.after
  {
    DropLast(GenuineStep, p, run);
  }

  /* ---- Grounded todos ---- */

  /** At most one todo has this ordinality, and that is one of the group. */
  ghost predicate OneProvider(todos: Board, kids: set<Id>, group: set<Id>, d: int) {
    forall i, j :: i in Providers(todos, kids, d) && j in Providers(todos, kids, d) ==> i == j && i in group
  }

  /** Each dependency of the group has one provider at most, and that is one of the group. */
  ghost predicate Separate(todos: Board, kids: set<Id>, group: set<Id>)
    requires group <= todos.Keys
  {
    forall k, d :: k in group && d in todos[k].dependsOn ==> OneProvider(todos, kids, group, d)
  }

  /** The todos of stuck parts.  Completions alone never reach them. */
  ghost function Ungrounded(todos: Board, kids: set<Id>, group: set<Id>): set<Id> {
    set k | k in group && exists b :: Stuck(todos, kids, group, b) && k in b
  }

  /** All of them together are stuck. */
  lemma UngroundedIsStuck(todos: Board, kids: set<Id>, group: set<Id>)
    requires group <= todos.Keys && Ungrounded(todos, kids, group) != {}
    ensures Stuck(todos, kids, group, Ungrounded(todos, kids, group))
  {
    var u := Ungrounded(todos, kids, group);
    forall k | k in u ensures exists d :: d in todos[k].dependsOn && Held(todos, kids, group, u, d) {
      var b :| Stuck(todos, kids, group, b) && k in b;
      var d :| d in todos[k].dependsOn && Held(todos, kids, group, b, d);
      assert b <= u;
      assert Held(todos, kids, group, u, d);
    }
  }

  /** A stuck proper part that nothing outside takes down with it: whoever it depends on is in it, or grounded. */
  ghost predicate Sealed(todos: Board, kids: set<Id>, group: set<Id>, b: set<Id>) {
    && Stuck(todos, kids, group, b) && b != group
    && forall k, d, j :: k in b && d in todos[k].dependsOn && j in Providers(todos, kids, d) ==>
         j in b || j !in Ungrounded(todos, kids, group)
  }

  lemma UngroundedIsShape(a: Board, b: Board, kids: set<Id>, group: set<Id>)
    requires SameShape(a, b) && group <= kids <= b.Keys
    ensures Ungrounded(a, kids, group) == Ungrounded(b, kids, group)
    ensures Separate(a, kids, group) <==> Separate(b, kids, group)
    ensures forall part :: Sealed(a, kids, group, part) <==> Sealed(b, kids, group, part)
  {
    forall part ensures Stuck(a, kids, group, part) <==> Stuck(b, kids, group, part) {
      StuckIsShape(a, b, kids, group, part);
    }
    forall d ensures Providers(a, kids, d) == Providers(b, kids, d)
                     && (OneProvider(a, kids, group, d) <==> OneProvider(b, kids, group, d)) {}
    assert forall k :: k in group ==> a[k].dependsOn == b[k].dependsOn;
  }

  /* ---- What genuine runs never reach ---- */

  /** Ungrounded todos are not published, and as long as a todo is blocked the ungrounded ones it depends on are too. */
  ghost predicate Unreached(p: Progress, kids: set<Id>, group: set<Id>, u: set<Id>) {
    && u <= p.todos.Keys
    && (forall k :: k in u ==> p.published[k] == 0 && p.todos[k].status in {TodoBlocked, TodoFailed, TodoSkipped})
    && (forall k, j :: k in BlockedKids(p.todos, group) && j in u && DependencyOf(p.todos, kids, j, k) ==>
          p.todos[j].status == TodoBlocked)
  }

  /** No todo of a stuck part is released: the dependency that holds it is provided by a blocked todo or by nobody. */
  lemma NoneReleased(
      todos: Board, marked: Board, kids: set<Id>, group: set<Id>, u: set<Id>, id: Id, snap: map<int, TodoStatus>, k: Id)
    requires group <= kids <= todos.Keys && Separate(todos, kids, group) && Stuck(todos, kids, group, u) && id in todos
    requires id in marked && marked == todos[id := todos[id].(status := marked[id].status)]
    requires IsSnapshot(marked, kids, snap) && k in u
    requires forall j :: j in u && DependencyOf(todos, kids, j, k) ==> j != id && todos[j].status == TodoBlocked
    ensures !SatisfiedBy(snap, todos[k])
  {
    var d :| d in todos[k].dependsOn && Held(todos, kids, group, u, d);
    HeldByUs(todos, kids, group, u, d);
    forall j | j in Providers(todos, kids, d) ensures marked[j] == todos[j] && todos[j].status == TodoBlocked {
      assert DependencyOf(todos, kids, j, k);
    }
    BlockedProvidersShow(todos, marked, kids, snap, d);
  }

  lemma HeldByUs(todos: Board, kids: set<Id>, group: set<Id>, u: set<Id>, d: int)
    requires OneProvider(todos, kids, group, d) && Held(todos, kids, group, u, d)
    ensures Providers(todos, kids, d) <= u
  {
    if i :| i in Providers(todos, kids, d) && (i in u || i !in group) {
      assert forall j :: j in Providers(todos, kids, d) ==> j == i;
    }
  }

  lemma BlockedProvidersShow(todos: Board, marked: Board, kids: set<Id>, snap: map<int, TodoStatus>, d: int)
    requires kids <= todos.Keys == marked.Keys && forall j :: j in kids ==> marked[j].ordinality == todos[j].ordinality
    requires IsSnapshot(marked, kids, snap)
    requires forall j :: j in Providers(todos, kids, d) ==> marked[j].status == TodoBlocked
    ensures !(d in snap && snap[d].Satisfies())
  {
    if d in snap {
      var j :| j in kids && j in marked && marked[j].ordinality == d && marked[j].status == snap[d];
      assert j in Providers(todos, kids, d);
    }
  }

  lemma ReportStaysUnreached(p: Progress, turn: Turn, parent: Id, group: set<Id>)
    requires Safe(p, parent, group) && GenuineStep(p, turn) && turn.event.ReportOn? && turn.event.id in p.todos
    requires p.todos[turn.event.id].parentTaskId == parent && Separate(p.todos, Kids(p.edges, parent), group)
    requires Unreached(p, Kids(p.edges, parent), group, Ungrounded(p.todos, Kids(p.edges, parent), group))
    ensures Unreached(turn.after, Kids(p.edges, parent), group, Ungrounded(p.todos, Kids(p.edges, parent), group))
  {
    var kids := Kids(p.edges, parent);
    var u := Ungrounded(p.todos, kids, group);
    UngroundedNotReady(p, turn, parent, group);
    ReportLeavesUngrounded(p, turn, u);
    StepKeepsSafe(p, turn, parent, group);
    StepKeepsKids(p, turn, parent);
    StepKeepsShape(p, turn);
    UnreachedAfter(p, turn.after, kids, group, u);
  }

  lemma UngroundedNotReady(p: Progress, turn: Turn, parent: Id, group: set<Id>)
    requires Safe(p, parent, group) && GenuineStep(p, turn) && turn.event.ReportOn? && turn.event.id in p.todos
    requires p.todos[turn.event.id].parentTaskId == parent && Separate(p.todos, Kids(p.edges, parent), group)
    requires Unreached(p, Kids(p.edges, parent), group, Ungrounded(p.todos, Kids(p.edges, parent), group))
    ensures ReleasedIn(p.todos, p.edges, turn.event.id, turn.event.report, turn.trail.snap)
            !! Ungrounded(p.todos, Kids(p.edges, parent), group)
  {
    var kids, id, report := Kids(p.edges, parent), turn.event.id, turn.event.report;
    var u := Ungrounded(p.todos, kids, group);
    if Releases(report) && u != {} {
      UngroundedIsStuck(p.todos, kids, group);
      assert id in u ==> p.todos[id].status == TodoFailed;
      StuckNotReady(p.todos, Marked(p.todos, id, report), kids, group, u, id, turn.trail.snap);
    }
  }

  lemma StuckNotReady(
      todos: Board, marked: Board, kids: set<Id>, group: set<Id>, u: set<Id>, id: Id, snap: map<int, TodoStatus>)
    requires group <= kids <= todos.Keys && Separate(todos, kids, group) && Stuck(todos, kids, group, u) && id in todos
    requires id in marked && marked == todos[id := todos[id].(status := marked[id].status)]
    requires IsSnapshot(marked, kids, snap)
    requires (id in u ==> todos[id].status != TodoBlocked && marked[id].status != TodoBlocked)
    requires forall k, j :: k in BlockedKids(todos, group) && j in u && DependencyOf(todos, kids, j, k) ==>
               todos[j].status == TodoBlocked
    ensures ReadyIn(marked, kids, todos[id].ordinality, snap) !! u
  {
    forall k | k in u && k in ReadyIn(marked, kids, todos[id].ordinality, snap) ensures false {
      assert k in BlockedKids(todos, group);
      NoneReleased(todos, marked, kids, group, u, id, snap, k);
    }
  }

  /** `k` stays as it is, fails, or is skipped after a failure, and is not published. */
  predicate StaysOut(p: Progress, q: Progress, k: Id)
    requires k in p.todos
  {
    && k in q.todos && q.published[k] == p.published[k]
    && (|| q.todos[k].status == p.todos[k].status
        || q.todos[k].status == TodoFailed
        || (p.todos[k].status == TodoFailed && q.todos[k].status == TodoSkipped))
  }

  lemma ReportLeavesUngrounded(p: Progress, turn: Turn, u: set<Id>)
    requires GenuineStep(p, turn) && turn.event.ReportOn? && turn.event.id in p.todos && u <= p.todos.Keys
    requires ReleasedIn(p.todos, p.edges, turn.event.id, turn.event.report, turn.trail.snap) !! u
    requires forall k :: k in u ==> p.published[k] == 0
    ensures forall k :: k in u ==> StaysOut(p, turn.after, k)
  {
    EnumerationCounts(turn.trail.order,
                      ReleasedIn(p.todos, p.edges, turn.event.id, turn.event.report, turn.trail.snap));
  }

  lemma UnreachedAfter(p: Progress, q: Progress, kids: set<Id>, group: set<Id>, u: set<Id>)
    requires Unreached(p, kids, group, u) && u <= group <= kids <= p.todos.Keys
    requires SameShape(q.todos, p.todos) && OnTrack(q.todos, kids, group)
    requires forall k :: k in p.todos && q.todos[k].status == TodoBlocked ==> p.todos[k].status == TodoBlocked
    requires forall k :: k in u ==> StaysOut(p, q, k)
    ensures Unreached(q, kids, group, u)
  {
    forall k, j | k in BlockedKids(q.todos, group) && j in u && DependencyOf(q.todos, kids, j, k)
      ensures q.todos[j].status == TodoBlocked
    {
      assert k in BlockedKids(p.todos, group) && DependencyOf(p.todos, kids, j, k);
    }
  }

  lemma StepStaysUnreached(p: Progress, turn: Turn, parent: Id, group: set<Id>)
    requires Safe(p, parent, group) && GenuineStep(p, turn)
    requires turn.event.PlanMade? ==> turn.event.batch.plan.parent != parent
    requires Separate(p.todos, Kids(p.edges, parent), group)
    requires Unreached(p, Kids(p.edges, parent), group, Ungrounded(p.todos, Kids(p.edges, parent), group))
    ensures Unreached(turn.after, Kids(p.edges, parent), group, Ungrounded(p.todos, Kids(p.edges, parent), group))
  {
    if turn.event.ReportOn? && turn.event.id in p.todos && p.todos[turn.event.id].parentTaskId == parent {
      ReportStaysUnreached(p, turn, parent, group);
    } else {
      OtherTaskStaysOut(p, turn, parent);
      SameKidsUnreached(p, turn.after, Kids(p.edges, parent), group, Ungrounded(p.todos, Kids(p.edges, parent), group));
    }
  }

  lemma SameKidsUnreached(p: Progress, q: Progress, kids: set<Id>, group: set<Id>, u: set<Id>)
    requires Unreached(p, kids, group, u) && u <= group <= kids <= p.todos.Keys
    requires forall k :: k in kids && k in p.todos ==>
               k in q.todos && q.todos[k] == p.todos[k] && q.published[k] == p.published[k]
    ensures Unreached(q, kids, group, u)
  {
    forall k, j | k in BlockedKids(q.todos, group) && j in u && DependencyOf(q.todos, kids, j, k)
      ensures q.todos[j].status == TodoBlocked
    {
      assert k in BlockedKids(p.todos, group) && DependencyOf(p.todos, kids, j, k);
    }
  }

  /** What happens to the todos of other tasks leaves those of this task alone. */
  lemma OtherTaskStaysOut(p: Progress, turn: Turn, parent: Id)
    requires Owned(p.todos, p.edges, parent) && Stepped(p, turn)
    requires TaskOf(p, turn.event) != parent || turn.after == p
    ensures forall k :: k in Kids(p.edges, parent) && k in p.todos ==>
              k in turn.after.todos && turn.after.todos[k] == p.todos[k] && turn.after.published[k] == p.published[k]
  {
    if turn.after == p { return; }
    match turn.event
    case ReportOn(id, report) =>
      var ready := ReleasedIn(p.todos, p.edges, id, report, turn.trail.snap);
      EnumerationCounts(turn.trail.order, ready);
      forall k | k in Kids(p.edges, parent)
        ensures k in turn.after.todos && turn.after.todos[k] == p.todos[k] && turn.after.published[k] == p.published[k]
      {
        OtherTaskUntouched(p.todos, p.edges, parent, id, report, turn.trail, turn.after.todos, k);
      }
    case PlanMade(b) => DecompositionAdds(p, b);
  }

  lemma {:induction false} RunStaysUnreached(p: Progress, run: seq<Turn>, parent: Id, group: set<Id>)
    requires Safe(p, parent, group) && IsGenuine(p, run) && NoNewPlan(parent, run)
    requires Separate(p.todos, Kids(p.edges, parent), group)
    requires Unreached(p, Kids(p.edges, parent), group, Ungrounded(p.todos, Kids(p.edges, parent), group))
    ensures Unreached(End(p, run), Kids(p.edges, parent), group, Ungrounded(p.todos, Kids(p.edges, parent), group))
  {
    if run != [] {
      var rest, last, kids := run[..|run| - 1], run[|run| - 1], Kids(p.edges, parent);
      OneLessGenuine(p, run);
      GenuineIsRun(p, rest);
      RunStaysUnreached(p, rest, parent, group);
      RunIsSafe(p, rest, parent, group);
      RunKeepsKids(p, rest, parent);
      RunKeepsShape(p, rest);
      UngroundedIsShape(End(p, rest).todos, p.todos, kids, group);
      StepStaysUnreached(End(p, rest), last, parent, group);
    }
  }

  /** As a decomposition leaves its group: roots are pending and published, all others blocked. */
  ghost predicate FreshlyMade(p: Progress, group: set<Id>)
    requires group <= p.todos.Keys
  {
    Unstarted(p.todos, group) && forall k :: k in group ==> (p.published[k] > 0 <==> p.todos[k].dependsOn == [])
  }

  lemma StartsUnreached(p: Progress, parent: Id, group: set<Id>)
    requires Safe(p, parent, group) && FreshlyMade(p, group)
    ensures Unreached(p, Kids(p.edges, parent), group, Ungrounded(p.todos, Kids(p.edges, parent), group))
  {
    var kids := Kids(p.edges, parent);
    if Ungrounded(p.todos, kids, group) != {} {
      UngroundedIsStuck(p.todos, kids, group);
      StuckIsBlocked(p.todos, kids, group, Ungrounded(p.todos, kids, group));
    }
  }

  /** A wrong verdict after a genuine run leaves a sealed part blocked. */
  lemma MisjudgedIsSealed(p: Progress, run: seq<Turn>, parent: Id, group: set<Id>)
    requires Safe(p, parent, group) && FreshlyMade(p, group) && Separate(p.todos, Kids(p.edges, parent), group)
    requires IsGenuine(p, run) && NoNewPlan(parent, run) && SomeReportOn(group, run)
    ensures JudgedTruly(End(p, run).todos, group)
            || Sealed(p.todos, Kids(p.edges, parent), group, BlockedKids(End(p, run).todos, group))
  {
    var kids, q := Kids(p.edges, parent), End(p, run);
    GenuineIsRun(p, run);
    StartsUnreached(p, parent, group);
    RunStaysUnreached(p, run, parent, group);
    RunIsSafe(p, run, parent, group);
    RunKeepsKids(p, run, parent);
    RunKeepsShape(p, run);
    var i :| 0 <= i < |run| && run[i].event.ReportOn? && run[i].event.id in group;
    ReportedStaysUnblocked(p, run, i);
    assert run[i].event.id !in BlockedKids(q.todos, group);
    VerdictIsSound(q.todos, kids, group);
    UngroundedIsShape(q.todos, p.todos, kids, group);
    if Stuck(q.todos, kids, group, BlockedKids(q.todos, group)) {
      BlockedIsSealed(q, kids, group);
    }
  }

  lemma BlockedIsSealed(q: Progress, kids: set<Id>, group: set<Id>)
    requires group <= kids <= q.todos.Keys && Separate(q.todos, kids, group)
    requires Unreached(q, kids, group, Ungrounded(q.todos, kids, group))
    requires Stuck(q.todos, kids, group, BlockedKids(q.todos, group)) && BlockedKids(q.todos, group) != group
    ensures Sealed(q.todos, kids, group, BlockedKids(q.todos, group))
  {
    forall k, d, j | k in BlockedKids(q.todos, group) && d in q.todos[k].dependsOn && j in Providers(q.todos, kids, d)
      ensures j in BlockedKids(q.todos, group) || j !in Ungrounded(q.todos, kids, group)
    {
      assert DependencyOf(q.todos, kids, j, k);
    }
  }

  /* ---- A sealed part is judged wrongly ---- */

  /** The todos of `u` wait, and the others are completed, or blocked, or with an agent. */
  predicate Advancing(p: Progress, group: set<Id>, u: set<Id>) {
    && u <= group <= p.todos.Keys
    && (forall k :: k in u ==> p.todos[k].status == TodoBlocked)
    && (forall k :: k in group - u ==>
          || p.todos[k].status == TodoCompleted
          || p.todos[k].status == TodoBlocked
          || (p.todos[k].status.IsLive() && p.published[k] > 0))
  }

  /** All ungrounded todos of a group in its own ordinalities wait. */
  ghost predicate Waits(p: Progress, parent: Id, group: set<Id>, u: set<Id>) {
    var kids := Kids(p.edges, parent);
    && Safe(p, parent, group) && Separate(p.todos, kids, group)
    && u == Ungrounded(p.todos, kids, group) && Advancing(p, group, u)
  }

  function Uncompleted(todos: Board, some: set<Id>): set<Id>
    requires some <= todos.Keys
  {
    set k | k in some && todos[k].status != TodoCompleted
  }

  /** While a grounded todo is left, some grounded todo is with an agent. */
  lemma SomeIsLive(p: Progress, parent: Id, group: set<Id>, u: set<Id>) returns (id: Id)
    requires Waits(p, parent, group, u) && Uncompleted(p.todos, group - u) != {}
    ensures id in Uncompleted(p.todos, group - u) && p.todos[id].status.IsLive() && p.published[id] > 0
  {
    var kids, rest := Kids(p.edges, parent), Uncompleted(p.todos, group - u);
    if u != {} { UngroundedIsStuck(p.todos, kids, group); }
    if forall k :: k in rest ==> p.todos[k].status == TodoBlocked { RestIsStuck(p.todos, kids, group, u, rest); }
    id :| id in rest && p.todos[id].status != TodoBlocked;
  }

  lemma RestIsStuck(todos: Board, kids: set<Id>, group: set<Id>, u: set<Id>, rest: set<Id>)
    requires group <= kids <= todos.Keys && OnTrack(todos, kids, group) && Separate(todos, kids, group)
    requires (u == {} || Stuck(todos, kids, group, u)) && rest == Uncompleted(todos, group - u) && rest != {}
             && u <= group
    requires forall k :: k in rest ==> todos[k].status == TodoBlocked
    ensures Stuck(todos, kids, group, u + rest)
  {
    forall k | k in u + rest ensures exists d :: d in todos[k].dependsOn && Held(todos, kids, group, u + rest, d) {
      if k in u {
        var d :| d in todos[k].dependsOn && Held(todos, kids, group, u, d);
        assert Held(todos, kids, group, u + rest, d);
      } else {
        assert k in BlockedKids(todos, group);
        var d :| d in todos[k].dependsOn && Unsure(todos, kids, group, d);
        assert OneProvider(todos, kids, group, d);
        assert Held(todos, kids, group, u + rest, d);
      }
    }
  }

  /** Its agent completes it. */
  lemma Advance(p: Progress, parent: Id, group: set<Id>, u: set<Id>, id: Id) returns (turn: Turn)
    requires Waits(p, parent, group, u) && id in group - u
    requires p.todos[id].status.IsLive() && p.published[id] > 0
    ensures GenuineStep(p, turn) && turn.event == ReportOn(id, Completed) && turn.after.edges == p.edges
    ensures SameShape(turn.after.todos, p.todos) && Waits(turn.after, parent, group, u)
    ensures Uncompleted(turn.after.todos, group - u) < Uncompleted(p.todos, group - u)
  {
    var snap := Pessimistic(p.todos, Kids(p.edges, parent), id);
    turn := CompleteOne(p, parent, id, snap);
    CompletionAdvances(p, turn.after, parent, group, u, id, snap);
    StaysWaiting(p, turn, parent, group, u);
  }

  lemma CompletionAdvances(
      p: Progress, q: Progress, parent: Id, group: set<Id>, u: set<Id>, id: Id, snap: map<int, TodoStatus>)
    requires Waits(p, parent, group, u) && id in group - u && p.todos[id].status.IsLive()
    requires IsSnapshot(Marked(p.todos, id, Completed), Kids(p.edges, parent), snap)
    requires q.todos == Completing(p.todos, Kids(p.edges, parent), id, snap)
    requires q.published == p.published + multiset(ReadyAfter(p.todos, Kids(p.edges, parent), id, snap))
    ensures Advancing(q, group, u) && Uncompleted(q.todos, group - u) < Uncompleted(p.todos, group - u)
  {
    WaitersNotReady(p, parent, group, u, id, Marked(p.todos, id, Completed), snap);
    ReadyAreBlocked(p.todos, Kids(p.edges, parent), id, snap);
    ReleaseAdvances(p, q, group, u, id, ReadyAfter(p.todos, Kids(p.edges, parent), id, snap));
  }

  lemma ReadyAreBlocked(todos: Board, kids: set<Id>, id: Id, snap: map<int, TodoStatus>)
    requires id in todos
    ensures forall k :: k in ReadyAfter(todos, kids, id, snap) ==>
              k in todos && k != id && todos[k].status == TodoBlocked
  {
  }

  lemma WaitersNotReady(
      p: Progress, parent: Id, group: set<Id>, u: set<Id>, id: Id, marked: Board, snap: map<int, TodoStatus>)
    requires Waits(p, parent, group, u) && id in group - u
    requires marked == p.todos[id := p.todos[id].(status := TodoCompleted)]
    requires IsSnapshot(marked, Kids(p.edges, parent), snap)
    ensures ReadyIn(marked, Kids(p.edges, parent), p.todos[id].ordinality, snap) !! u
  {
    if u != {} {
      UngroundedIsStuck(p.todos, Kids(p.edges, parent), group);
      StuckNotReady(p.todos, marked, Kids(p.edges, parent), group, u, id, snap);
    }
  }

  lemma StaysWaiting(p: Progress, turn: Turn, parent: Id, group: set<Id>, u: set<Id>)
    requires Waits(p, parent, group, u) && Stepped(p, turn) && turn.after.edges == p.edges
    requires SameShape(turn.after.todos, p.todos) && Advancing(turn.after, group, u)
    ensures Waits(turn.after, parent, group, u)
  {
    StepKeepsSafe(p, turn, parent, group);
    UngroundedIsShape(turn.after.todos, p.todos, Kids(p.edges, parent), group);
  }

  lemma ReleaseAdvances(p: Progress, q: Progress, group: set<Id>, u: set<Id>, id: Id, ready: set<Id>)
    requires Advancing(p, group, u) && id in group - u && p.todos[id].status.IsLive() && ready !! u
    requires forall k :: k in ready ==> k in p.todos && k != id && p.todos[k].status == TodoBlocked
    requires q.todos == WithStatus(Marked(p.todos, id, Completed), ready, TodoPending)
    requires q.published == p.published + multiset(ready)
    ensures Advancing(q, group, u) && Uncompleted(q.todos, group - u) < Uncompleted(p.todos, group - u)
  {
    assert id in Uncompleted(p.todos, group - u) && id !in Uncompleted(q.todos, group - u);
  }

  /** Agents can complete everything that is grounded. */
  lemma {:induction false} CompleteGrounded(p: Progress, parent: Id, group: set<Id>, u: set<Id>)
    returns (run: seq<Turn>)
    requires Waits(p, parent, group, u)
    ensures IsGenuine(p, run) && OnlyReports(run)
    ensures var q := End(p, run);
            && q.edges == p.edges && SameShape(q.todos, p.todos) && Waits(q, parent, group, u)
            && Uncompleted(q.todos, group - u) == {}
    ensures Uncompleted(p.todos, group - u) != {} ==> SomeReportOn(group, run)
    decreases Uncompleted(p.todos, group - u)
  {
    run := [];
    if Uncompleted(p.todos, group - u) != {} {
      var id := SomeIsLive(p, parent, group, u);
      var turn := Advance(p, parent, group, u, id);
      var rest := CompleteGrounded(turn.after, parent, group, u);
      FirstTurn(p, turn, rest, group);
      run := [turn] + rest;
    }
  }

  lemma FirstTurn(p: Progress, turn: Turn, rest: seq<Turn>, group: set<Id>)
    requires GenuineStep(p, turn) && IsGenuine(turn.after, rest) && OnlyReports(rest)
    requires turn.event.ReportOn? && turn.event.id in group
    ensures IsGenuine(p, [turn] + rest) && End(p, [turn] + rest) == End(turn.after, rest)
    ensures OnlyReports([turn] + rest) && SomeReportOn(group, [turn] + rest)
  {
    OneLink(GenuineStep, p, turn);
    ChainSplits(GenuineStep, p, [turn], rest);
    assert ([turn] + rest)[0] == turn;
  }

  /* ---- Then the rest is failed by hand ---- */

  /** Whoever provides a dependency of `b` is one of `some`. */
  ghost predicate ProvidedBy(todos: Board, kids: set<Id>, b: set<Id>, some: set<Id>)
    requires b <= todos.Keys
  {
    forall k, d :: k in b && d in todos[k].dependsOn ==> Providers(todos, kids, d) <= some
  }

  lemma SealedIsProvided(todos: Board, kids: set<Id>, group: set<Id>, u: set<Id>, b: set<Id>)
    requires group <= kids <= todos.Keys && Separate(todos, kids, group) && u == Ungrounded(todos, kids, group)
    requires Sealed(todos, kids, group, b)
    ensures b <= u && ProvidedBy(todos, kids, b, b + (group - u))
  {
    forall k, d | k in b && d in todos[k].dependsOn ensures Providers(todos, kids, d) <= b + (group - u) {
      assert OneProvider(todos, kids, group, d);
    }
  }

  lemma ProvidedIsShape(a: Board, b: Board, kids: set<Id>, part: set<Id>, some: set<Id>)
    requires SameShape(a, b) && part <= kids <= b.Keys && ProvidedBy(b, kids, part, some)
    ensures ProvidedBy(a, kids, part, some)
  {
    forall d ensures Providers(a, kids, d) == Providers(b, kids, d) {}
  }

  /** What agents could do is done; ungrounded todos outside the sealed part wait, or have failed. */
  predicate Closing(todos: Board, group: set<Id>, u: set<Id>, b: set<Id>)
  {
    && b <= u <= group <= todos.Keys
    && (forall k :: k in b ==> todos[k].status == TodoBlocked)
    && (forall k :: k in group - u ==> todos[k].status == TodoCompleted)
    && (forall k :: k in u - b ==> todos[k].status == TodoBlocked || todos[k].status == TodoFailed)
  }

  /** The cascade of such a failure does not get into the sealed part. */
  lemma CascadeStaysOut(todos: Board, marked: Board, kids: set<Id>, group: set<Id>, u: set<Id>, b: set<Id>, id: Id)
    requires Closing(todos, group, u, b) && group <= kids <= todos.Keys && id in u - b
    requires ProvidedBy(todos, kids, b, b + (group - u)) && marked == todos[id := todos[id].(status := TodoFailed)]
    ensures Cascade(marked, BlockedKids(marked, kids), {todos[id].ordinality}) !! b
  {
    var blocked, ord := BlockedKids(marked, kids), todos[id].ordinality;
    forall k | k in blocked && DependsOnAny(marked[k], {ord} + Ordinalities(marked, blocked - b))
      ensures k in blocked - b
    {
      var d :| d in marked[k].dependsOn && d in {ord} + Ordinalities(marked, blocked - b);
      var j :| j in kids && (j == id || j in blocked - b) && todos[j].ordinality == d;
      assert j in Providers(todos, kids, d);
    }
    assert CascadeClosed(marked, blocked, {ord}, blocked - b);
    CascadeIsLeast(marked, blocked, {ord});
  }

  lemma FailOne(p: Progress, parent: Id, group: set<Id>, u: set<Id>, b: set<Id>, id: Id) returns (turn: Turn)
    requires Owned(p.todos, p.edges, parent) && group <= Kids(p.edges, parent) && Closing(p.todos, group, u, b)
    requires id in BlockedKids(p.todos, u - b) && ProvidedBy(p.todos, Kids(p.edges, parent), b, b + (group - u))
    ensures GenuineStep(p, turn) && turn.event == ReportOn(id, Failed) && turn.after.edges == p.edges
    ensures SameShape(turn.after.todos, p.todos) && Closing(turn.after.todos, group, u, b)
    ensures BlockedKids(turn.after.todos, u - b) < BlockedKids(p.todos, u - b)
  {
    var kids, marked := Kids(p.edges, parent), Marked(p.todos, id, Failed);
    var taken := Cascade(marked, BlockedKids(marked, kids), {p.todos[id].ordinality});
    turn := Turn(ReportOn(id, Failed), Trail(map[], [], UNSET, []),
                 Progress(WithStatus(marked, taken, TodoFailed), p.edges, p.published));
    CascadeStaysOut(p.todos, marked, kids, group, u, b, id);
    assert taken <= BlockedKids(marked, kids);
    FailureCloses(p.todos, turn.after.todos, group, u, b, id, taken);
  }

  lemma FailureCloses(todos: Board, after: Board, group: set<Id>, u: set<Id>, b: set<Id>, id: Id, taken: set<Id>)
    requires Closing(todos, group, u, b) && id in BlockedKids(todos, u - b) && taken !! b
    requires forall k :: k in taken ==> k in todos && todos[k].status == TodoBlocked
    requires after == WithStatus(todos[id := todos[id].(status := TodoFailed)], taken, TodoFailed)
    ensures Closing(after, group, u, b) && BlockedKids(after, u - b) < BlockedKids(todos, u - b)
  {
    assert id !in BlockedKids(after, u - b);
  }

  lemma {:induction false} FailTheRest(p: Progress, parent: Id, group: set<Id>, u: set<Id>, b: set<Id>)
    returns (run: seq<Turn>)
    requires Owned(p.todos, p.edges, parent) && group <= Kids(p.edges, parent) && Closing(p.todos, group, u, b)
    requires ProvidedBy(p.todos, Kids(p.edges, parent), b, b + (group - u))
    ensures IsGenuine(p, run) && OnlyReports(run)
    ensures Closing(End(p, run).todos, group, u, b) && BlockedKids(End(p, run).todos, u - b) == {}
    ensures BlockedKids(p.todos, u - b) != {} ==> SomeReportOn(group, run)
    decreases BlockedKids(p.todos, u - b)
  {
    run := [];
    if BlockedKids(p.todos, u - b) != {} {
      var id :| id in BlockedKids(p.todos, u - b);
      var turn := FailOne(p, parent, group, u, b, id);
      ProvidedIsShape(turn.after.todos, p.todos, Kids(p.edges, parent), b, b + (group - u));
      var rest := FailTheRest(turn.after, parent, group, u, b);
      FirstTurn(p, turn, rest, group);
      run := [turn] + rest;
    }
  }

  lemma FreshWaits(p: Progress, parent: Id, group: set<Id>)
    requires Safe(p, parent, group) && FreshlyMade(p, group) && Separate(p.todos, Kids(p.edges, parent), group)
    ensures Waits(p, parent, group, Ungrounded(p.todos, Kids(p.edges, parent), group))
  {
    var kids := Kids(p.edges, parent);
    if Ungrounded(p.todos, kids, group) != {} {
      UngroundedIsStuck(p.todos, kids, group);
      StuckIsBlocked(p.todos, kids, group, Ungrounded(p.todos, kids, group));
    }
  }

  lemma GroundedDone(todos: Board, group: set<Id>, u: set<Id>, b: set<Id>)
    requires b <= u <= group <= todos.Keys && Uncompleted(todos, group - u) == {}
    requires forall k :: k in u ==> todos[k].status == TodoBlocked
    ensures Closing(todos, group, u, b) && BlockedKids(todos, u - b) == u - b
  {
    assert forall k :: k in group - u ==> k !in Uncompleted(todos, group - u);
  }

  lemma NothingDone(todos: Board, group: set<Id>, u: set<Id>)
    requires u <= group <= todos.Keys && Unstarted(todos, group)
    ensures Uncompleted(todos, group - u) == group - u
  {
  }

  /** Agents complete what is grounded, an operator fails the rest but for the sealed part, and the verdict is wrong. */
  lemma SealedIsMisjudged(p: Progress, parent: Id, group: set<Id>, b: set<Id>) returns (run: seq<Turn>)
    requires Safe(p, parent, group) && FreshlyMade(p, group) && Separate(p.todos, Kids(p.edges, parent), group)
    requires Sealed(p.todos, Kids(p.edges, parent), group, b)
    ensures IsGenuine(p, run) && OnlyReports(run) && SomeReportOn(group, run) && group <= End(p, run).todos.Keys
    ensures VerdictOf(End(p, run).todos, group) == SomeFailed && !JudgedTruly(End(p, run).todos, group)
  {
    var kids := Kids(p.edges, parent);
    var u := Ungrounded(p.todos, kids, group);
    FreshWaits(p, parent, group);
    SealedIsProvided(p.todos, kids, group, u, b);
    var first := CompleteGrounded(p, parent, group, u);
    var mid := End(p, first);
    GroundedDone(mid.todos, group, u, b);
    ProvidedIsShape(mid.todos, p.todos, kids, b, b + (group - u));
    var rest := FailTheRest(mid, parent, group, u, b);
    ChainSplits(GenuineStep, p, first, rest);
    SomethingDone(p.todos, group, u, b);
    EitherReports(first, rest, group);
    run := first + rest;
    ClosedVerdict(End(p, run).todos, group, u, b);
  }

  lemma SomethingDone(todos: Board, group: set<Id>, u: set<Id>, b: set<Id>)
    requires b <= u <= group <= todos.Keys && b != group && Unstarted(todos, group)
    ensures Uncompleted(todos, group - u) != {} || u - b != {}
  {
    NothingDone(todos, group, u);
    var k :| k in group && k !in b;
    assert k in group - u || k in u - b;
  }

  lemma EitherReports(first: seq<Turn>, more: seq<Turn>, group: set<Id>)
    requires OnlyReports(first) && OnlyReports(more) && (SomeReportOn(group, first) || SomeReportOn(group, more))
    ensures OnlyReports(first + more) && SomeReportOn(group, first + more)
  {
    if SomeReportOn(group, more) {
      JoinedReports(first, more, group);
    } else {
      var i :| 0 <= i < |first| && first[i].event.ReportOn? && first[i].event.id in group;
      assert (first + more)[i] == first[i];
    }
  }

  lemma ClosedVerdict(todos: Board, group: set<Id>, u: set<Id>, b: set<Id>)
    requires Closing(todos, group, u, b) && BlockedKids(todos, u - b) == {} && b != {}
    ensures group <= todos.Keys && VerdictOf(todos, group) == SomeFailed && !JudgedTruly(todos, group)
  {
    forall k | k in u - b ensures todos[k].status == TodoFailed { assert k !in BlockedKids(todos, u - b); }
    var k :| k in b;
    assert Unsettled(todos[k]) && !todos[k].status.Satisfies();
  }

  /* ---- The theorem ---- */

  /** After every genuine run with a report on the group and no new decomposition of the task. */
  ghost predicate AgentsJudgeTruly(p: Progress, parent: Id, group: set<Id>) {
    forall run :: IsGenuine(p, run) && NoNewPlan(parent, run) && SomeReportOn(group, run) ==>
      JudgedTruly(End(p, run).todos, group)
  }

  /** With agents that report on published todos only, and operators who may fail any, a decomposition with ordinalities
      of its own is judged truly after every run exactly when it has no sealed part. */
  lemma AgentsJudgeTrulyExactlyIf(p: Progress, parent: Id, group: set<Id>)
    requires Safe(p, parent, group) && FreshlyMade(p, group) && Separate(p.todos, Kids(p.edges, parent), group)
    ensures AgentsJudgeTruly(p, parent, group) <==> !exists b :: Sealed(p.todos, Kids(p.edges, parent), group, b)
  {
    var kids := Kids(p.edges, parent);
    forall run | IsGenuine(p, run) && NoNewPlan(parent, run) && SomeReportOn(group, run)
      ensures JudgedTruly(End(p, run).todos, group) || exists b :: Sealed(p.todos, kids, group, b)
    {
      MisjudgedIsSealed(p, run, parent, group);
    }
    if b :| Sealed(p.todos, kids, group, b) {
      var run := SealedIsMisjudged(p, parent, group, b);
    }
  }

  /** Both accepted, and one depends on the other's ordinality. */
  predicate Provides(provider: TodoItem, item: TodoItem) {
    Accepted(provider) && Accepted(item) && provider.ordinality in item.dependsOn
  }

  /** No two accepted items provide the same dependency. */
  ghost predicate SinglyProvided(items: seq<TodoItem>) {
    forall i, j, k :: 0 <= i < |items| && 0 <= j < |items| && 0 <= k < |items| && Provides(items[i], items[k]) ==>
      (Provides(items[j], items[k]) && items[i].ordinality == items[j].ordinality ==> i == j)
  }

  /** So it is for decompositions: after any run a task is decomposed into todos whose dependencies no two of them, and
      no older todo, provide. */
  lemma AgentsJudgeDecompositionTruly(p: Progress, before: seq<Turn>, b: Batch)
    requires Tidy(p, b.plan.parent) && IsRun(p, before) && NewIds(End(p, before), b) && b.linked
    requires SinglyProvided(b.plan.items)
    requires Kids(End(p, before).edges, b.plan.parent) <= End(p, before).todos.Keys && NoCollision(End(p, before), b)
    ensures var start, parent := Decomposed(End(p, before), b), b.plan.parent;
            AgentsJudgeTruly(start, parent, Group(b))
            <==> !exists part :: Sealed(start.todos, Kids(start.edges, parent), Group(b), part)
  {
    var q, start := End(p, before), Decomposed(End(p, before), b);
    RunIsTidy(p, before, b.plan.parent);
    DecompositionStartsSafe(q, b);
    DecompositionIsFresh(q, b);
    DecompositionIsSeparate(q, b);
    AgentsJudgeTrulyExactlyIf(start, b.plan.parent, Group(b));
  }

  lemma DecompositionIsFresh(p: Progress, b: Batch)
    requires Decomposes(p, b)
    ensures Group(b) <= Decomposed(p, b).todos.Keys && FreshlyMade(Decomposed(p, b), Group(b))
  {
    DecompositionAdds(p, b);
    DecompositionStartsSafe(p, b);
  }

  lemma DecompositionIsSeparate(p: Progress, b: Batch)
    requires Decomposes(p, b) && SinglyProvided(b.plan.items) && NoCollision(p, b)
    ensures var q := Decomposed(p, b);
            Group(b) <= q.todos.Keys && Separate(q.todos, Kids(q.edges, b.plan.parent), Group(b))
  {
    DecompositionAdds(p, b);
    BatchIsSeparate(Decomposed(p, b).todos, Kids(Decomposed(p, b).edges, b.plan.parent), b);
  }

  lemma BatchIsSeparate(todos: Board, kids: set<Id>, b: Batch)
    requires |b.plan.items| == |b.ids| && ArePlanned(todos, b) && Group(b) <= kids <= todos.Keys
    requires SinglyProvided(b.plan.items)
    requires forall k, i :: k in kids - Group(b) && 0 <= i < |b.ids| && Accepted(b.plan.items[i]) ==>
               todos[k].ordinality !in b.plan.items[i].dependsOn
    ensures Separate(todos, kids, Group(b))
  {
    forall k, d | k in Group(b) && d in todos[k].dependsOn ensures OneProvider(todos, kids, Group(b), d) {
      var i := ItemOf(todos, b, k);
      assert forall j :: j in Providers(todos, kids, d) ==> j in Group(b);
      forall j1, j2 | j1 in Providers(todos, kids, d) && j2 in Providers(todos, kids, d) ensures j1 == j2 {
        SameItem(todos, b, b.plan.items[i], j1, j2);
      }
    }
  }

  lemma SameItem(todos: Board, b: Batch, item: TodoItem, j1: Id, j2: Id)
    requires |b.plan.items| == |b.ids| && ArePlanned(todos, b) && SinglyProvided(b.plan.items)
    requires item in b.plan.items && Accepted(item) && j1 in Group(b) && j2 in Group(b)
    requires j1 in todos && j2 in todos && todos[j1].ordinality == todos[j2].ordinality
    requires todos[j1].ordinality in item.dependsOn
    ensures j1 == j2
  {
    var k :| 0 <= k < |b.plan.items| && b.plan.items[k] == item;
    var i1 := ItemOf(todos, b, j1);
    var i2 := ItemOf(todos, b, j2);
    assert Provides(b.plan.items[i1], b.plan.items[k]) && Provides(b.plan.items[i2], b.plan.items[k]);
  }

  lemma ItemOf(todos: Board, b: Batch, k: Id) returns (i: nat)
    requires |b.plan.items| == |b.ids| && ArePlanned(todos, b) && k in Group(b)
    ensures i < |b.ids| && b.ids[i] == k && Accepted(b.plan.items[i])
    ensures k in todos && todos[k].ordinality == b.plan.items[i].ordinality
    ensures todos[k].dependsOn == b.plan.items[i].dependsOn
  {
    i :| IsPlanned(todos, b, k, i);
  }

  /** Soundness is more than such runs need: the first of these two todos depends on an ordinality that nobody has and
      on the second, which depends on the first.  Neither is ever published, and a failure of either takes both down. */
  lemma SoundIsNotNeeded(a: Todo, b: Todo)
    requires a.ordinality == 1 && a.dependsOn == [9, 2] && b.ordinality == 2 && b.dependsOn == [1]
    ensures var todos: Board, both := map["a" := a, "b" := b], {"a", "b"};
            && Separate(todos, both, both) && !Sound(todos, both, both)
            && forall part :: !Sealed(todos, both, both, part)
  {
    var todos: Board, both := map["a" := a, "b" := b], {"a", "b"};
    assert 9 in a.dependsOn && 2 in a.dependsOn && 1 in b.dependsOn;
    assert Providers(todos, both, 9) == {} && Providers(todos, both, 2) == {"b"} && Providers(todos, both, 1) == {"a"};
    assert Held(todos, both, both, {"a"}, 9) && Held(todos, both, both, both, 9) && Held(todos, both, both, both, 1);
    assert Stuck(todos, both, both, {"a"}) && Stuck(todos, both, both, both);
    assert {"a"} != both by { assert "b" in both; }
    forall part ensures !Sealed(todos, both, both, part) {}
  }
}
