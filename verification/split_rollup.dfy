/** The roll-up of a split task from its children: maybeCompleteSplitParent in internal/server/split_handler.go. */
module SplitRollUp {
  import opened WorkModel
  import opened TodoScheduler

  /** The tasks whose subtask_of edge leads to the parent. */
  function Children(edges: set<Edge>, parent: Id): set<Id> {
    Sources(edges, SubtaskOf, parent)
  }

  /** A cancelled child counts as a failed one. */
  function ChildrenVerdict(tasks: map<Id, Task>, children: set<Id>): Verdict
    requires children <= tasks.Keys
  {
    if exists c :: c in children && !tasks[c].status.IsTerminal() then StillOpen
    else if exists c :: c in children && tasks[c].status != TaskCompleted then SomeFailed
    else AllSucceeded
  }

  /** The tasks after the roll-up of `parent`: nothing happens without a parent or children, or with a child missing. */
  ghost predicate RolledUp(
      before: map<Id, Task>, edges: set<Edge>, parent: Id, now: Time, after: map<Id, Task>, news: seq<Event>) {
    var children := Children(edges, parent);
    if parent == UNSET || children == {} || !(children <= before.Keys) then after == before && news == []
    else Settled(before, parent, ChildrenVerdict(before, children), now, after, news)
  }

  method MaybeCompleteSplitParent(s: WorkStore, parent: Id, now: Time) returns (ghost news: seq<Event>)
    requires s.HasIds()
    modifies s`tasks, s`edges, s`events
    ensures s.HasIds() && s.edges == old(s.edges) && s.events == old(s.events) + news
    ensures RolledUp(old(s.tasks), s.edges, parent, now, s.tasks, news)
    // With all its children there, and at least one, a parent in progress or split ends with the last of them.
    ensures parent in old(s.tasks) ==>
              var was := old(s.tasks)[parent].status;
              var over := && (exists c :: Edge(SubtaskOf, c, parent) in s.edges)
                          && forall c :: Edge(SubtaskOf, c, parent) in s.edges ==>
                               c in old(s.tasks) && old(s.tasks)[c].status.IsTerminal();
              var won := forall c :: Edge(SubtaskOf, c, parent) in s.edges ==>
                           c in old(s.tasks) && old(s.tasks)[c].status == TaskCompleted;
              && parent in s.tasks
              && s.tasks[parent].status == if !over || (was != TaskInProgress && was != TaskSplit) then was
                                           else if won then TaskCompleted else TaskFailed
    ensures s.tasks.Keys == old(s.tasks).Keys
    ensures forall t :: t in s.tasks && t != parent ==> s.tasks[t] == old(s.tasks)[t]
  {
    news := [];
    if parent == UNSET {
      return;
    }
    var judged, verdict := JudgeChildren(s, parent);
    if judged {
      news := SettleParent(s, parent, verdict, now);
    }
    RolledUpTells(old(s.tasks), s.edges, parent, now, s.tasks, news);
  }

  /** A roll-up speaks of the parent only. */
  lemma NewsOfParent(
      before: map<Id, Task>, edges: set<Edge>, parent: Id, now: Time, after: map<Id, Task>, news: seq<Event>)
    requires RolledUp(before, edges, parent, now, after, news)
    ensures after.Keys == before.Keys && forall t :: t in after && t != parent ==> after[t] == before[t]
    ensures forall e :: e in news ==> (e.EvTaskCompleted? || e.EvTaskStatusChanged?) && e.taskId == parent
  {
    var children := Children(edges, parent);
    if parent != UNSET && children != {} && children <= before.Keys {
      SettlementTells(before, parent, ChildrenVerdict(before, children), now, after, news);
    }
  }

  lemma RolledUpTells(
      before: map<Id, Task>, edges: set<Edge>, parent: Id, now: Time, after: map<Id, Task>, news: seq<Event>)
    requires parent != UNSET && RolledUp(before, edges, parent, now, after, news)
    ensures after.Keys == before.Keys && forall t :: t in after && t != parent ==> after[t] == before[t]
    ensures parent in before ==>
              var was := before[parent].status;
              var over := && (exists c :: Edge(SubtaskOf, c, parent) in edges)
                          && forall c :: Edge(SubtaskOf, c, parent) in edges ==>
                            c in before && before[c].status.IsTerminal();
              var won := forall c :: Edge(SubtaskOf, c, parent) in edges ==>
                c in before && before[c].status == TaskCompleted;
              && parent in after
              && after[parent].status == if !over || (was != TaskInProgress && was != TaskSplit) then was
                                         else if won then TaskCompleted else TaskFailed
  {
    RollUpTells(before, edges, parent);
    var children := Children(edges, parent);
    if parent in before && children != {} && children <= before.Keys {
      SettlementMoves(before, parent, ChildrenVerdict(before, children), now, after, news);
    }
  }

  /** The verdict on the children, in terms of the edges to the parent. */
  lemma RollUpTells(tasks: map<Id, Task>, edges: set<Edge>, parent: Id)
    ensures Children(edges, parent) != {} <==> exists c :: Edge(SubtaskOf, c, parent) in edges
    ensures Children(edges, parent) <= tasks.Keys <==> forall c :: Edge(SubtaskOf, c, parent) in edges ==> c in tasks
    ensures Children(edges, parent) <= tasks.Keys ==>
              var verdict := ChildrenVerdict(tasks, Children(edges, parent));
              && (verdict != StillOpen
                  <==> forall c :: Edge(SubtaskOf, c, parent) in edges ==> c in tasks && tasks[c].status.IsTerminal())
              && (verdict == AllSucceeded
                  <==> forall c :: Edge(SubtaskOf, c, parent) in edges ==>
                    c in tasks && tasks[c].status == TaskCompleted)
  {
    var children := Children(edges, parent);
    assert forall c :: c in children <==> Edge(SubtaskOf, c, parent) in edges;
    if children != {} { var c :| c in children; }
  }

  /** Looks at the children one by one; not `judged` if there is none or one is missing.  A child that is not terminal
      may end the walk before a missing one is found, with the same effect. */
  method JudgeChildren(s: WorkStore, parent: Id) returns (judged: bool, verdict: Verdict)
    ensures var children := Children(s.edges, parent);
            && (judged ==> children != {} && children <= s.tasks.Keys && verdict == ChildrenVerdict(s.tasks, children))
            && (!judged ==>
                  children == {} || !(children <= s.tasks.Keys) || ChildrenVerdict(s.tasks, children) == StillOpen)
  {
    judged, verdict := false, AllSucceeded;
    ghost var children := Children(s.edges, parent);
    var rest := Children(s.edges, parent);
    while rest != {}
      invariant rest <= children && children - rest <= s.tasks.Keys
      invariant judged <==> rest != children
      invariant forall c :: c in children - rest ==> s.tasks[c].status.IsTerminal()
      invariant verdict == if exists c :: c in children - rest && s.tasks[c].status != TaskCompleted then SomeFailed
                else AllSucceeded
      decreases rest
    {
      var c :| c in rest;
      if c !in s.tasks || !s.tasks[c].status.IsTerminal() {
        return false, StillOpen;
      }
      ghost var seen := children - rest;
      rest := rest - {c};
      assert children - rest == seen + {c};
      judged := true;
      if s.tasks[c].status != TaskCompleted {
        verdict := SomeFailed;
      }
    }
    assert children - rest == children;
  }
}
