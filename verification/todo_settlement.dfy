/** From a decomposition event to the end of the parent task, whatever happened before it. */
module TodoSettlement {
  import opened WorkModel
  import opened TodoGraph
  import opened TodoRuns
  import opened TodoSafety
  import opened TodoScheduler
  import opened TodoVerdict

  /* ---- The new group is safe ---- */

  /** A decomposition of a task that exists; the task may have todos of earlier decompositions. */
  ghost predicate Decomposes(p: Progress, b: Batch) {
    NewIds(p, b) && b.linked && Tidy(p, b.plan.parent)
  }

  lemma DecompositionStartsSafe(p: Progress, b: Batch)
    requires Decomposes(p, b)
    ensures var q, parent, group := Decomposed(p, b), b.plan.parent, Group(b);
            && Kids(q.edges, parent) == Kids(p.edges, parent) + group
            && Safe(q, parent, group) && ArePlanned(q.todos, b) && Unstarted(q.todos, group)
  {
    var q, parent := Decomposed(p, b), b.plan.parent;
    DecompositionAdds(p, b);
    DecompositionKeepsOwned(p, b, q, parent);
    PlannedOnTrack(q.todos, Kids(q.edges, parent), b);
    forall k | k in Kids(q.edges, parent)
      ensures q.published[k] <= 1 && (q.todos[k].status == TodoBlocked ==> q.published[k] == 0)
    {
      if k in Group(b) { var i :| IsPlanned(q.todos, b, k, i); }
    }
  }

  lemma PlannedOnTrack(todos: Board, kids: set<Id>, b: Batch)
    requires |b.plan.items| == |b.ids| && ArePlanned(todos, b) && Group(b) <= kids <= todos.Keys
    ensures OnTrack(todos, kids, Group(b)) && Unstarted(todos, Group(b))
    ensures forall k :: k in Group(b) ==> todos[k].decompRunId == b.plan.decompRunId && todos[k].createdAt == b.now
  {
    forall k | k in Group(b)
      ensures todos[k].decompRunId == b.plan.decompRunId && todos[k].createdAt == b.now
      ensures todos[k].status == if todos[k].dependsOn == [] then TodoPending else TodoBlocked
    {
      var i :| IsPlanned(todos, b, k, i);
    }
    forall k | k in BlockedKids(todos, Group(b)) ensures Waiting(todos, kids, Group(b), k) {
      var d := todos[k].dependsOn[0];
      assert d in todos[k].dependsOn && Unsure(todos, kids, Group(b), d) by {
        if j :| j in Providers(todos, kids, d) { assert j !in Group(b) || !todos[j].status.Satisfies(); }
      }
    }
  }

  /* ---- The theorem for decompositions ---- */

  /** After any run, from a store without todos or from any tidy one, a task is decomposed.  From then on the
      decomposition is judged truly after every run exactly when no proper part of it is stuck. */
  lemma DecompositionNeverMisjudged(p: Progress, before: seq<Turn>, b: Batch)
    requires Tidy(p, b.plan.parent) && IsRun(p, before) && NewIds(End(p, before), b) && b.linked
    ensures var start, parent := Decomposed(End(p, before), b), b.plan.parent;
            Sound(start.todos, Kids(start.edges, parent), Group(b)) <==> AlwaysJudgedTruly(start, parent, Group(b))
  {
    RunIsTidy(p, before, b.plan.parent);
    DecompositionStartsSafe(End(p, before), b);
    JudgedTrulyExactlyIfSound(Decomposed(End(p, before), b), b.plan.parent, Group(b));
  }

  /** Accepted items depend on accepted items only; `rank` shows there is no cycle. */
  ghost predicate GroundedPlan(items: seq<TodoItem>, rank: map<int, nat>) {
    && (forall i :: 0 <= i < |items| && Accepted(items[i]) ==> items[i].ordinality in rank)
    && (forall i, d :: 0 <= i < |items| && Accepted(items[i]) && d in items[i].dependsOn ==>
          && d in rank && rank[d] < rank[items[i].ordinality]
          && exists j :: 0 <= j < |items| && Accepted(items[j]) && items[j].ordinality == d)
  }

  /** No older todo of the task has an ordinality that the plan depends on. */
  ghost predicate NoCollision(p: Progress, b: Batch)
    requires Kids(p.edges, b.plan.parent) <= p.todos.Keys
  {
    forall k, i :: k in Kids(p.edges, b.plan.parent) && 0 <= i < |b.plan.items| && Accepted(b.plan.items[i]) ==>
      p.todos[k].ordinality !in b.plan.items[i].dependsOn
  }

  /** A grounded decomposition whose dependencies no older todo provides is sound; after any run every todo of the task
      has been published once at most, and every blocked todo of the decomposition waits for a live one. */
  lemma GroundedDecompositionIsSound(p: Progress, b: Batch, rank: map<int, nat>, run: seq<Turn>)
    requires Decomposes(p, b) && GroundedPlan(b.plan.items, rank) && NoCollision(p, b)
    requires IsRun(Decomposed(p, b), run) && NoNewPlan(b.plan.parent, run)
    ensures var start, q, parent := Decomposed(p, b), End(Decomposed(p, b), run), b.plan.parent;
            var kids := Kids(start.edges, parent);
            && Sound(start.todos, kids, Group(b))
            && (forall k :: k in kids ==> q.published[k] <= 1)
            && forall k :: k in BlockedKids(q.todos, Group(b)) ==>
              exists chain :: WaitChain(q.todos, kids, chain) && chain[0] == k
  {
    var start, parent := Decomposed(p, b), b.plan.parent;
    var q, kids := End(start, run), Kids(start.edges, parent);
    DecompositionStartsSafe(p, b);
    var rankOf := PlannedGrounded(p, b, rank);
    GroundedIsSound(start.todos, kids, Group(b), rankOf);
    RunIsTidy(start, run, parent);
    RunKeepsKids(start, run, parent);
    forall k | k in BlockedKids(q.todos, Group(b))
      ensures exists chain :: WaitChain(q.todos, kids, chain) && chain[0] == k
    {
      var chain := BlockedAlwaysWaitForLive(start, run, parent, Group(b), rankOf, k);
    }
  }

  lemma PlannedGrounded(p: Progress, b: Batch, rank: map<int, nat>) returns (rankOf: map<Id, nat>)
    requires Decomposes(p, b) && GroundedPlan(b.plan.items, rank) && NoCollision(p, b)
    ensures var q := Decomposed(p, b);
            Group(b) <= q.todos.Keys && Grounded(q.todos, Kids(q.edges, b.plan.parent), Group(b), rankOf)
  {
    DecompositionAdds(p, b);
    rankOf := BatchGrounded(Decomposed(p, b).todos, Kids(Decomposed(p, b).edges, b.plan.parent), b, rank);
  }

  lemma BatchGrounded(todos: Board, kids: set<Id>, b: Batch, rank: map<int, nat>) returns (rankOf: map<Id, nat>)
    requires |b.plan.items| == |b.ids| && ArePlanned(todos, b) && Group(b) <= kids <= todos.Keys
    requires GroundedPlan(b.plan.items, rank)
    requires forall k, i :: k in kids - Group(b) && 0 <= i < |b.ids| && Accepted(b.plan.items[i]) ==>
               todos[k].ordinality !in b.plan.items[i].dependsOn
    ensures Grounded(todos, kids, Group(b), rankOf)
  {
    forall k | k in Group(b) ensures todos[k].ordinality in rank {
      var i :| IsPlanned(todos, b, k, i);
    }
    rankOf := map k | k in Group(b) :: rank[todos[k].ordinality];
    forall k, d | k in Group(b) && d in todos[k].dependsOn
      ensures Providers(todos, kids, d) != {}
      ensures forall j :: j in Providers(todos, kids, d) ==> j in Group(b) && rankOf[j] < rankOf[k]
    {
      var i :| IsPlanned(todos, b, k, i);
      var j :| 0 <= j < |b.ids| && Accepted(b.plan.items[j]) && b.plan.items[j].ordinality == d;
      assert IsPlanned(todos, b, b.ids[j], j);
      assert b.ids[j] in Providers(todos, kids, d);
    }
  }

  /* ---- The parent task ---- */

  /** Whichever todo was created last, it is one of the group, and the group is its whole decomposition. */
  ghost predicate Newest(todos: Board, kids: set<Id>, group: set<Id>)
    requires kids <= todos.Keys
  {
    kids != {} && forall key :: IsLatestAmong(todos, kids, key) ==> GroupKids(todos, kids, key) == group
  }

  /** A decomposition under a new id, made later than every older todo, is the one that counts. */
  lemma LaterIsNewest(p: Progress, b: Batch)
    requires Decomposes(p, b) && Group(b) != {}
    requires forall k :: k in Kids(p.edges, b.plan.parent) ==>
               p.todos[k].createdAt < b.now && p.todos[k].decompRunId != b.plan.decompRunId
    ensures var q := Decomposed(p, b);
            && Kids(q.edges, b.plan.parent) <= q.todos.Keys
            && Newest(q.todos, Kids(q.edges, b.plan.parent), Group(b))
  {
    var q := Decomposed(p, b);
    var kids := Kids(q.edges, b.plan.parent);
    DecompositionAdds(p, b);
    PlannedOnTrack(q.todos, kids, b);
    LatestGroup(q.todos, kids, Group(b), b.plan.decompRunId, b.now);
  }

  lemma LatestGroup(todos: Board, kids: set<Id>, group: set<Id>, decomp: Id, now: Time)
    requires group <= kids <= todos.Keys && group != {}
    requires forall k :: k in group ==> todos[k].decompRunId == decomp && todos[k].createdAt == now
    requires forall k :: k in kids - group ==> todos[k].decompRunId != decomp && todos[k].createdAt < now
    ensures Newest(todos, kids, group)
  {
    var some :| some in group;
    forall key | IsLatestAmong(todos, kids, key) ensures GroupKids(todos, kids, key) == group {
      var top :| top in kids && todos[top].decompRunId == key
                 && forall j :: j in kids ==> todos[j].createdAt <= todos[top].createdAt;
      assert todos[some].createdAt <= todos[top].createdAt;
      assert top in group;
    }
  }

  lemma NewestIsShape(a: Board, b: Board, kids: set<Id>, group: set<Id>)
    requires SameShape(a, b) && kids <= b.Keys && Newest(b, kids, group)
    ensures Newest(a, kids, group)
  {
    forall key | IsLatestAmong(a, kids, key) ensures GroupKids(a, kids, key) == group {
      var top :| top in kids && a[top].decompRunId == key && forall j :: j in kids ==>
        a[j].createdAt <= a[top].createdAt;
      assert IsLatestAmong(b, kids, key) by { assert forall j :: j in kids ==> b[j].createdAt <= b[top].createdAt; }
      assert GroupKids(a, kids, key) == GroupKids(b, kids, key);
    }
  }

  /** Where a verdict takes a task: only a task in progress or split can be settled by its todos. */
  function SettledStatus(status: TaskStatus, verdict: Verdict): TaskStatus {
    if status != TaskInProgress && status != TaskSplit then status
    else match verdict
      case StillOpen => status
      case AllSucceeded => TaskCompleted
      case SomeFailed => TaskFailed
  }

  /** What a verdict leads to, for a parent in any status. */
  lemma SettledByVerdict(
      before: map<Id, Task>, parent: Id, verdict: Verdict, now: Time, after: map<Id, Task>, news: seq<Event>)
    requires Settled(before, parent, verdict, now, after, news)
    ensures after.Keys == before.Keys
    ensures parent in before ==> after[parent].status == SettledStatus(before[parent].status, verdict)
    ensures forall t :: t in before && t != parent ==> after[t] == before[t]
  {
  }

  /** The handler settles by the newest group. */
  lemma NewestSettles(
      before: map<Id, Task>, todos: Board, edges: set<Edge>, parent: Id, group: set<Id>, now: Time, trail: Trail,
      after: map<Id, Task>)
    requires Kids(edges, parent) <= todos.Keys && Newest(todos, Kids(edges, parent), group) && group <= todos.Keys
    requires ParentSettled(before, todos, edges, parent, now, trail, after)
    ensures Settled(before, parent, VerdictOf(todos, group), now, after, trail.news)
  {
  }

  /** A safe and sound start whose newest group is `group`, and any run from it in which the task is not decomposed
      again. */
  ghost predicate SoundRun(p: Progress, run: seq<Turn>, parent: Id, group: set<Id>) {
    && Safe(p, parent, group) && Sound(p.todos, Kids(p.edges, parent), group)
    && Newest(p.todos, Kids(p.edges, parent), group)
    && IsRun(p, run) && NoNewPlan(parent, run)
  }

  /** After such a run the handler call for a report on this task, the first one on the group or a later one, has turned
      the todos into `after`. */
  ghost predicate ReportedAfter(
      p: Progress, run: seq<Turn>, parent: Id, group: set<Id>, id: Id, report: Report, trail: Trail, after: Board)
  {
    var mid := End(p, run);
    && SoundRun(p, run, parent, group)
    && id in Kids(mid.edges, parent) && (id in group || SomeReportOn(group, run))
    && id in mid.todos && Reported(mid.todos, mid.edges, id, report, trail, after)
  }

  lemma LastReportJudgesTruly(
      p: Progress, run: seq<Turn>, parent: Id, group: set<Id>, id: Id, report: Report, trail: Trail, after: Board)
    requires ReportedAfter(p, run, parent, group, id, report, trail, after)
    ensures Kids(End(p, run).edges, parent) == Kids(p.edges, parent) <= after.Keys && SameShape(after, p.todos)
    ensures JudgedTruly(after, group) && Newest(after, Kids(p.edges, parent), group)
  {
    var mid := End(p, run);
    var turn := Turn(ReportOn(id, report), trail, Progress(after, mid.edges, mid.published + multiset(trail.order)));
    OneMore(p, run, turn);
    OneMoreReport(p, run, parent, group, turn);
    RunKeepsSound(p, run + [turn], parent, group);
    AnyRunJudgesTruly(p, run + [turn], parent, group);
    RunKeepsShape(p, run + [turn]);
    NewestIsShape(after, p.todos, Kids(p.edges, parent), group);
  }

  lemma OneMoreReport(p: Progress, run: seq<Turn>, parent: Id, group: set<Id>, turn: Turn)
    requires NoNewPlan(parent, run) && turn.event.ReportOn? && (turn.event.id in group || SomeReportOn(group, run))
    ensures NoNewPlan(parent, run + [turn]) && SomeReportOn(group, run + [turn])
  {
    if turn.event.id in group {
      assert (run + [turn])[|run|] == turn;
    } else {
      var i :| 0 <= i < |run| && run[i].event.ReportOn? && run[i].event.id in group;
      assert (run + [turn])[i] == run[i];
    }
  }

  lemma SettledTruly(
      tasks: map<Id, Task>, parent: Id, after: Board, group: set<Id>, now: Time, tasks': map<Id, Task>,
      news: seq<Event>)
    requires JudgedTruly(after, group) && Settled(tasks, parent, VerdictOf(after, group), now, tasks', news)
    requires parent in tasks
    ensures parent in tasks' && tasks'[parent].status == EndStatus(tasks[parent].status, after, group)
  {
    SettledByVerdict(tasks, parent, VerdictOf(after, group), now, tasks', news);
  }

  /** Where the todos of its newest decomposition should take a task. */
  function EndStatus(status: TaskStatus, todos: Board, group: set<Id>): TaskStatus
    requires group <= todos.Keys
  {
    if status != TaskInProgress && status != TaskSplit then status
    else if exists k :: k in group && Unsettled(todos[k]) then status
    else if exists k :: k in group && todos[k].status == TodoFailed then TaskFailed
    else TaskCompleted
  }

  /** The handler call that follows any run, the first report on the group included: a parent in progress or split is
      settled exactly when every todo of its newest decomposition is settled, as completed if each is completed or
      skipped, as failed if one really failed; a parent in any other status keeps it. */
  lemma ParentEndsTruly(
      p: Progress, run: seq<Turn>, parent: Id, group: set<Id>, id: Id, report: Report, trail: Trail, after: Board,
      tasks: map<Id, Task>, now: Time, tasks': map<Id, Task>)
    requires ReportedAfter(p, run, parent, group, id, report, trail, after)
    requires ParentSettled(tasks, after, End(p, run).edges, parent, now, trail, tasks') && parent in tasks
    ensures group <= after.Keys && tasks'.Keys == tasks.Keys
    ensures tasks'[parent].status == EndStatus(tasks[parent].status, after, group)
    ensures forall t :: t in tasks && t != parent ==> tasks'[t] == tasks[t]
  {
    LastReportJudgesTruly(p, run, parent, group, id, report, trail, after);
    NewestSettles(tasks, after, End(p, run).edges, parent, group, now, trail, tasks');
    SettledByVerdict(tasks, parent, VerdictOf(after, group), now, tasks', trail.news);
    SettledTruly(tasks, parent, after, group, now, tasks', trail.news);
  }
}
