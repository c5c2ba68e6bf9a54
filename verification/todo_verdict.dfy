/** Exactly which decompositions the settlement of a task always judges rightly: those without a proper part that need
    never start. */
module TodoVerdict {
  import opened WorkModel
  import opened TodoGraph
  import opened TodoRuns
  import opened TodoSafety
  import opened TodoScheduler

  /* ---- A stuck part is judged wrongly ---- */

  /** Redelivered start events put todos of other decompositions in progress without touching anything else. */
  lemma {:induction false} StartAll(p: Progress, some: set<Id>) returns (run: seq<Turn>)
    requires some <= p.todos.Keys
    ensures IsRun(p, run) && OnlyReports(run)
    ensures End(p, run).todos == WithStatus(p.todos, some, TodoDispatched) && End(p, run).edges == p.edges
    decreases some
  {
    run := [];
    if some == {} {
      assert WithStatus(p.todos, some, TodoDispatched) == p.todos;
    } else {
      var id :| id in some;
      var rest := StartAll(p, some - {id});
      var mid := End(p, rest);
      var turn := StartOne(mid, id);
      assert turn.after.todos == WithStatus(p.todos, some, TodoDispatched);
      OneMore(p, rest, turn);
      run := rest + [turn];
    }
  }

  lemma StartOne(p: Progress, id: Id) returns (turn: Turn)
    requires id in p.todos
    ensures Stepped(p, turn) && turn.event == ReportOn(id, Started) && turn.after.edges == p.edges
    ensures turn.after.todos == p.todos[id := p.todos[id].(status := TodoDispatched)]
  {
    turn := Turn(ReportOn(id, Started), Trail(map[], [], UNSET, []),
                 Progress(Marked(p.todos, id, Started), p.edges, p.published));
  }

  ghost predicate OnlyReports(run: seq<Turn>) {
    forall i :: 0 <= i < |run| ==> run[i].event.ReportOn?
  }

  /** Nothing outside the group can be relied on, and the stuck part is blocked. */
  ghost predicate Starved(todos: Board, kids: set<Id>, group: set<Id>, b: set<Id>) {
    && b <= group <= kids <= todos.Keys
    && (forall k :: k in b ==> todos[k].status == TodoBlocked)
    && (forall k :: k in kids - group ==> todos[k].status == TodoDispatched)
  }

  /** `done` is completed, and the stuck part as starved as it was. */
  ghost predicate StarvedBut(p: Progress, q: Progress, kids: set<Id>, group: set<Id>, b: set<Id>, done: set<Id>) {
    && q.edges == p.edges && SameShape(q.todos, p.todos) && Starved(q.todos, kids, group, b)
    && forall k :: k in done ==> k in q.todos && q.todos[k].status == TodoCompleted
  }

  /** Reporting `done`, members of the group outside the stuck part, as completed leaves the part blocked if the
      snapshots show what is unsatisfied wherever they have the choice. */
  lemma {:induction false} StuckStarves(p: Progress, parent: Id, group: set<Id>, b: set<Id>, done: set<Id>)
    returns (run: seq<Turn>)
    requires Owned(p.todos, p.edges, parent) && Starved(p.todos, Kids(p.edges, parent), group, b)
    requires Stuck(p.todos, Kids(p.edges, parent), group, b) && done <= group - b
    ensures IsRun(p, run) && OnlyReports(run) && (done != {} ==> SomeReportOn(group, run))
    ensures StarvedBut(p, End(p, run), Kids(p.edges, parent), group, b, done)
    decreases done
  {
    run := [];
    if done != {} {
      var id :| id in done;
      var rest := StuckStarves(p, parent, group, b, done - {id});
      var turn := StarveNext(p, End(p, rest), parent, group, b, done, id);
      OneMore(p, rest, turn);
      run := rest + [turn];
      assert run[|rest|].event.id in group;
    }
  }

  lemma StarveNext(p: Progress, q: Progress, parent: Id, group: set<Id>, b: set<Id>, done: set<Id>, id: Id)
    returns (turn: Turn)
    requires Owned(p.todos, p.edges, parent) && group <= Kids(p.edges, parent) && id in done && done <= group - b
    requires Stuck(p.todos, Kids(p.edges, parent), group, b)
    requires StarvedBut(p, q, Kids(p.edges, parent), group, b, done - {id})
    ensures Stepped(q, turn) && turn.event == ReportOn(id, Completed)
    ensures StarvedBut(p, turn.after, Kids(p.edges, parent), group, b, done)
  {
    StuckIsShape(q.todos, p.todos, Kids(p.edges, parent), group, b);
    turn := StarveMore(q, parent, group, b, id);
    assert done == (done - {id}) + {id};
  }

  lemma StarveMore(p: Progress, parent: Id, group: set<Id>, b: set<Id>, id: Id) returns (turn: Turn)
    requires id in p.todos && p.todos[id].parentTaskId == parent && id in group - b
    requires Starved(p.todos, Kids(p.edges, parent), group, b) && Stuck(p.todos, Kids(p.edges, parent), group, b)
    ensures Stepped(p, turn) && turn.event == ReportOn(id, Completed) && turn.after.edges == p.edges
    ensures SameShape(turn.after.todos, p.todos) && Starved(turn.after.todos, Kids(p.edges, parent), group, b)
    ensures turn.after.todos[id].status == TodoCompleted
    ensures forall k :: k in p.todos && p.todos[k].status == TodoCompleted ==>
              turn.after.todos[k].status == TodoCompleted
  {
    var kids := Kids(p.edges, parent);
    turn := CompleteOne(p, parent, id, Pessimistic(p.todos, kids, id));
    CompletionStarves(p.todos, kids, group, b, id);
  }

  /** The snapshot after the completion of `id` that shows what is unsatisfied wherever it has the choice. */
  ghost function Pessimistic(todos: Board, kids: set<Id>, id: Id): map<int, TodoStatus>
    requires id in todos
  {
    Favouring(Marked(todos, id, Completed), kids, false)
  }

  /** Who is ready after the completion of `id`, as the snapshot shows it. */
  function ReadyAfter(todos: Board, kids: set<Id>, id: Id, snap: map<int, TodoStatus>): set<Id>
    requires id in todos
  {
    ReadyIn(Marked(todos, id, Completed), kids, todos[id].ordinality, snap)
  }

  function Completing(todos: Board, kids: set<Id>, id: Id, snap: map<int, TodoStatus>): Board
    requires id in todos
  {
    WithStatus(Marked(todos, id, Completed), ReadyAfter(todos, kids, id, snap), TodoPending)
  }

  lemma CompletionStarves(todos: Board, kids: set<Id>, group: set<Id>, b: set<Id>, id: Id)
    requires id in todos && Starved(todos, kids, group, b) && Stuck(todos, kids, group, b) && id in group - b
    ensures var after := Completing(todos, kids, id, Pessimistic(todos, kids, id));
            && Starved(after, kids, group, b) && after[id].status == TodoCompleted
            && forall k :: k in todos && todos[k].status == TodoCompleted ==> after[k].status == TodoCompleted
  {
    var marked := Marked(todos, id, Completed);
    NoneReady(todos, marked, kids, group, b, id);
    StarvedStays(todos, marked, kids, group, b, id, ReadyAfter(todos, kids, id, Pessimistic(todos, kids, id)));
  }

  /** A completion as the handler carries it out with this snapshot. */
  lemma CompleteOne(p: Progress, parent: Id, id: Id, snap: map<int, TodoStatus>) returns (turn: Turn)
    requires id in p.todos && p.todos[id].parentTaskId == parent
    requires IsSnapshot(Marked(p.todos, id, Completed), Kids(p.edges, parent), snap)
    ensures Stepped(p, turn) && turn.event == ReportOn(id, Completed) && turn.after.edges == p.edges
    ensures turn.after.todos == Completing(p.todos, Kids(p.edges, parent), id, snap)
    ensures turn.after.published == p.published + multiset(ReadyAfter(p.todos, Kids(p.edges, parent), id, snap))
    ensures SameShape(turn.after.todos, p.todos)
  {
    var ready := ReadyAfter(p.todos, Kids(p.edges, parent), id, snap);
    var order := SomeOrder(ready);
    EnumerationCounts(order, ready);
    turn := Turn(ReportOn(id, Completed), Trail(snap, order, UNSET, []),
                 Progress(Completing(p.todos, Kids(p.edges, parent), id, snap), p.edges, p.published
                          + multiset(order)));
  }

  lemma NoneReady(todos: Board, marked: Board, kids: set<Id>, group: set<Id>, b: set<Id>, id: Id)
    requires Starved(todos, kids, group, b) && Stuck(todos, kids, group, b)
    requires id in group - b && marked == todos[id := todos[id].(status := TodoCompleted)]
    ensures forall k :: k in ReadyIn(marked, kids, todos[id].ordinality, Favouring(marked, kids, false)) ==>
              k in marked && marked[k].status == TodoBlocked && k !in b
  {
    forall k | k in b ensures !SatisfiedBy(Favouring(marked, kids, false), marked[k]) {
      var d := HeldIsHeld(todos, marked, kids, group, b, id, k);
      HeldIsNotReady(marked, kids, marked[k], d);
    }
  }

  lemma StarvedStays(todos: Board, marked: Board, kids: set<Id>, group: set<Id>, b: set<Id>, id: Id, ready: set<Id>)
    requires id in group - b && Starved(todos, kids, group, b)
    requires marked == todos[id := todos[id].(status := TodoCompleted)]
    requires forall k :: k in ready ==> k in marked && marked[k].status == TodoBlocked && k !in b
    ensures var after := WithStatus(marked, ready, TodoPending);
            && Starved(after, kids, group, b) && after[id].status == TodoCompleted
            && forall k :: k in todos && todos[k].status == TodoCompleted ==> after[k].status == TodoCompleted
  {
  }

  lemma HeldIsHeld(todos: Board, marked: Board, kids: set<Id>, group: set<Id>, b: set<Id>, id: Id, k: Id)
    returns (d: int)
    requires Starved(todos, kids, group, b) && Stuck(todos, kids, group, b) && k in b
    requires id in group - b && marked == todos[id := todos[id].(status := TodoCompleted)]
    ensures d in marked[k].dependsOn
    ensures || Providers(marked, kids, d) == {}
            || exists j :: j in Providers(marked, kids, d) && !marked[j].status.Satisfies()
  {
    d :| d in todos[k].dependsOn && Held(todos, kids, group, b, d);
    assert Providers(marked, kids, d) == Providers(todos, kids, d);
    if j :| j in Providers(todos, kids, d) && (j in b || j !in group) {
      assert !marked[j].status.Satisfies();
    }
  }

  lemma HeldIsNotReady(marked: Board, kids: set<Id>, t: Todo, d: int)
    requires d in t.dependsOn
    requires || Providers(marked, kids, d) == {}
             || exists j :: j in Providers(marked, kids, d) && !marked[j].status.Satisfies()
    ensures !SatisfiedBy(Favouring(marked, kids, false), t)
  {
    if Providers(marked, kids, d) == {} {
      assert forall j :: j in kids && j in marked && marked[j].ordinality == d ==> j in Providers(marked, kids, d);
    } else {
      var j :| j in Providers(marked, kids, d) && !marked[j].status.Satisfies();
      assert !Favouring(marked, kids, false)[marked[j].ordinality].Satisfies();
    }
  }

  /** Every todo is as the decomposition left it: blocked if it has dependencies, pending if it has none. */
  predicate Unstarted(todos: Board, group: set<Id>)
    requires group <= todos.Keys
  {
    forall k :: k in group ==> todos[k].status == if todos[k].dependsOn == [] then TodoPending else TodoBlocked
  }

  lemma StuckIsBlocked(todos: Board, kids: set<Id>, group: set<Id>, b: set<Id>)
    requires group <= todos.Keys && Unstarted(todos, group) && Stuck(todos, kids, group, b)
    ensures forall k :: k in b ==> todos[k].status == TodoBlocked
  {
  }

  lemma StarvedVerdict(todos: Board, group: set<Id>, b: set<Id>)
    requires b <= group <= todos.Keys && b != {}
    requires forall k :: k in group ==> todos[k].status == if k in b then TodoBlocked else TodoCompleted
    ensures VerdictOf(todos, group) == SomeFailed && !JudgedTruly(todos, group)
  {
    var k :| k in b;
    assert Unsettled(todos[k]) && !todos[k].status.Satisfies();
  }

  /** Once everything else in the group is completed the parent is judged a failure, although nothing in it failed. */
  lemma StuckIsMisjudged(p: Progress, parent: Id, group: set<Id>, b: set<Id>) returns (run: seq<Turn>)
    requires Owned(p.todos, p.edges, parent) && group <= Kids(p.edges, parent) && Unstarted(p.todos, group)
    requires Stuck(p.todos, Kids(p.edges, parent), group, b) && b != group
    ensures IsRun(p, run) && OnlyReports(run) && SomeReportOn(group, run) && group <= End(p, run).todos.Keys
    ensures forall k :: k in group ==>
              End(p, run).todos[k].status == if k in b then TodoBlocked else TodoCompleted
    ensures VerdictOf(End(p, run).todos, group) == SomeFailed && !JudgedTruly(End(p, run).todos, group)
  {
    var kids := Kids(p.edges, parent);
    StuckIsBlocked(p.todos, kids, group, b);
    var started := StartAll(p, kids - group);
    var mid := End(p, started);
    RunKeepsShape(p, started);
    StuckIsShape(mid.todos, p.todos, kids, group, b);
    var rest := StarveGroup(mid, parent, group, b);
    RunThrough(p, started, rest);
    JoinedReports(started, rest, group);
    run := started + rest;
  }

  lemma JoinedReports(first: seq<Turn>, more: seq<Turn>, group: set<Id>)
    requires OnlyReports(first) && OnlyReports(more) && SomeReportOn(group, more)
    ensures OnlyReports(first + more) && SomeReportOn(group, first + more)
  {
    var i :| 0 <= i < |more| && more[i].event.ReportOn? && more[i].event.id in group;
    assert (first + more)[|first| + i] == more[i];
  }

  lemma StarveGroup(p: Progress, parent: Id, group: set<Id>, b: set<Id>) returns (run: seq<Turn>)
    requires Owned(p.todos, p.edges, parent) && Starved(p.todos, Kids(p.edges, parent), group, b)
    requires Stuck(p.todos, Kids(p.edges, parent), group, b) && b != group
    ensures IsRun(p, run) && OnlyReports(run) && SomeReportOn(group, run) && group <= End(p, run).todos.Keys
    ensures forall k :: k in group ==>
              End(p, run).todos[k].status == if k in b then TodoBlocked else TodoCompleted
    ensures VerdictOf(End(p, run).todos, group) == SomeFailed && !JudgedTruly(End(p, run).todos, group)
  {
    run := StuckStarves(p, parent, group, b, group - b);
    var outside :| outside in group && outside !in b;
    assert outside in group - b;
    StarvedVerdict(End(p, run).todos, group, b);
  }

  /** After every run with a report on the group and no new decomposition of the task, whatever the orders and
      snapshots. */
  ghost predicate AlwaysJudgedTruly(p: Progress, parent: Id, group: set<Id>) {
    forall run :: IsRun(p, run) && NoNewPlan(parent, run) && SomeReportOn(group, run) ==>
      JudgedTruly(End(p, run).todos, group)
  }

  /** The main theorem: a decomposition is judged truly after every run exactly when no proper part of it is stuck. */
  lemma JudgedTrulyExactlyIfSound(p: Progress, parent: Id, group: set<Id>)
    requires Safe(p, parent, group) && Unstarted(p.todos, group)
    ensures Sound(p.todos, Kids(p.edges, parent), group) <==> AlwaysJudgedTruly(p, parent, group)
  {
    var kids := Kids(p.edges, parent);
    if Sound(p.todos, kids, group) {
      forall run | IsRun(p, run) && NoNewPlan(parent, run) && SomeReportOn(group, run)
        ensures JudgedTruly(End(p, run).todos, group)
      {
        RunKeepsSound(p, run, parent, group);
        AnyRunJudgesTruly(p, run, parent, group);
      }
    } else {
      var b :| Stuck(p.todos, kids, group, b) && b != group;
      var run := StuckIsMisjudged(p, parent, group, b);
    }
  }

  /* ---- Two kinds of decomposition ---- */

  /** Every dependency is provided, by the group only, and `rank` numbers it below its dependents. */
  ghost predicate Grounded(todos: Board, kids: set<Id>, group: set<Id>, rank: map<Id, nat>)
    requires group <= todos.Keys
  {
    && group <= rank.Keys
    && forall k, d :: k in group && d in todos[k].dependsOn ==>
         Providers(todos, kids, d) != {} && forall j :: j in Providers(todos, kids, d) ==>
           j in group && rank[j] < rank[k]
  }

  lemma {:induction false} NothingIsStuck(
      todos: Board, kids: set<Id>, group: set<Id>, rank: map<Id, nat>, b: set<Id>, k: Id)
    requires group <= todos.Keys && Grounded(todos, kids, group, rank) && k in b
    ensures !Stuck(todos, kids, group, b)
    decreases if k in rank then rank[k] else 0
  {
    if Stuck(todos, kids, group, b) {
      var d :| d in todos[k].dependsOn && Held(todos, kids, group, b, d);
      var j :| j in Providers(todos, kids, d) && (j in b || j !in group);
      NothingIsStuck(todos, kids, group, rank, b, j);
    }
  }

  lemma GroundedIsSound(todos: Board, kids: set<Id>, group: set<Id>, rank: map<Id, nat>)
    requires group <= todos.Keys && Grounded(todos, kids, group, rank)
    ensures Sound(todos, kids, group)
  {
    forall b ensures !Stuck(todos, kids, group, b) {
      if k :| k in b { NothingIsStuck(todos, kids, group, rank, b, k); }
    }
  }

  /** One todo that depends on an ordinality which an earlier decomposition used as well is enough to make a retry
      unsound, unless it is the only todo. */
  lemma CollisionIsUnsound(todos: Board, kids: set<Id>, group: set<Id>, k: Id, older: Id)
    requires group <= kids <= todos.Keys && k in group && group != {k}
    requires older in kids - group && todos[older].ordinality in todos[k].dependsOn
    ensures !Sound(todos, kids, group)
  {
    var d := todos[older].ordinality;
    assert older in Providers(todos, kids, d);
    assert Held(todos, kids, group, {k}, d);
    assert Stuck(todos, kids, group, {k});
  }

  /** A chain of dependencies from the first todo down to the last, all blocked but the last. */
  ghost predicate WaitChain(todos: Board, kids: set<Id>, chain: seq<Id>) {
    && |chain| > 0
    && (forall i :: 0 <= i < |chain| ==> chain[i] in kids && chain[i] in todos)
    && (forall i :: 0 <= i < |chain| - 1 ==>
          todos[chain[i]].status == TodoBlocked && DependencyOf(todos, kids, chain[i + 1], chain[i]))
    && todos[chain[|chain| - 1]].status.IsLive()
  }

  /** Every blocked todo waits, through blocked ones, for a todo that is pending or dispatched. */
  lemma {:induction false} WaitsForLive(todos: Board, kids: set<Id>, group: set<Id>, rank: map<Id, nat>, k: Id)
    returns (chain: seq<Id>)
    requires group <= kids <= todos.Keys && Grounded(todos, kids, group, rank) && OnTrack(todos, kids, group)
    requires k in BlockedKids(todos, group)
    ensures WaitChain(todos, kids, chain) && chain[0] == k
    decreases rank[k]
  {
    var d :| d in todos[k].dependsOn && Unsure(todos, kids, group, d);
    var j :| j in Providers(todos, kids, d) && !todos[j].status.Satisfies();
    assert DependencyOf(todos, kids, j, k);
    if todos[j].status.IsLive() {
      chain := [k, j];
    } else {
      var rest := WaitsForLive(todos, kids, group, rank, j);
      chain := [k] + rest;
    }
  }

  /** So it is after any run of a grounded decomposition. */
  lemma BlockedAlwaysWaitForLive(p: Progress, run: seq<Turn>, parent: Id, group: set<Id>, rank: map<Id, nat>, k: Id)
    returns (chain: seq<Id>)
    requires Safe(p, parent, group) && Grounded(p.todos, Kids(p.edges, parent), group, rank)
    requires IsRun(p, run) && NoNewPlan(parent, run) && k in BlockedKids(End(p, run).todos, group)
    ensures WaitChain(End(p, run).todos, Kids(p.edges, parent), chain) && chain[0] == k
  {
    var q, kids := End(p, run), Kids(p.edges, parent);
    RunIsSafe(p, run, parent, group);
    RunKeepsKids(p, run, parent);
    RunKeepsShape(p, run);
    forall d ensures Providers(q.todos, kids, d) == Providers(p.todos, kids, d) {}
    chain := WaitsForLive(q.todos, kids, group, rank, k);
  }
}
