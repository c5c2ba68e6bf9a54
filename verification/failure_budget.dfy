/** The failure budget of a run and the lineage of its recovery runs: workflow_run_failure_budget.go. */
module FailureBudget {
  import opened WorkModel
  import RunLifecycle

  /* ---- The counter ---- */

  /** A budget that is not positive never runs out. */
  predicate Exhausted(used: int, budget: int) {
    budget > 0 && used > budget
  }

  function Charged(run: Run, child: Id): Run {
    if child in run.counted then run else run.(used := run.used + 1, counted := run.counted + [child])
  }

  /* ---- The calls that write a run ---- */

  /** The two calls on the budget, a status change, and the two halves of a cancel. */
  datatype Call =
    | SetBudget(budget: int)
    | Charge(child: Id)
    | SetStatus(next: RunStatus, reason: string, now: Time)
    | Cancel(reason: string, caller: string, deadline: Time, now: Time)
    | FinalizeCancel(now: Time)

  function Apply(run: Run, id: Id, call: Call): Run {
    match call
    case SetBudget(budget) =>
      if run.parentRunId != UNSET || run.budget != 0 then run else run.(budget := budget, rootRunId := id)
    case Charge(child) => if run.parentRunId != UNSET then run else Charged(run, child)
    case SetStatus(next, reason, now) =>
      if run.status.CanTransitionTo(next) then RunLifecycle.StatusWritten(run, next, reason, now) else run
    case Cancel(reason, caller, deadline, now) =>
      if run.status == RunInProgress then RunLifecycle.Cancelling(run, reason, caller, deadline, now) else run
    case FinalizeCancel(now) => if run.status == RunCancelling then RunLifecycle.CancelFinished(run, now) else run
  }

  /** Sets the budget of a root run, once: a non-zero budget is never overwritten. */
  method SetFailureBudget(s: WorkStore, id: Id, budget: int) returns (r: Result<Run>)
    requires s.Valid()
    modifies s`runs, s`history
    ensures s.Valid() && s.history == old(s.history)
    ensures r == if id !in old(s.runs) then Err(ErrRunNotFound)
                 else if old(s.runs[id]).parentRunId != UNSET then Err(ErrNotRootRun)
                 else if old(s.runs[id]).budget != 0 then Err(ErrBudgetAlreadySet)
                 else Ok(old(s.runs[id]).(budget := budget, rootRunId := id))
    ensures s.runs == if id in old(s.runs) then old(s.runs)[id := Apply(old(s.runs[id]), id, SetBudget(budget))]
            else old(s.runs)
    ensures r.Ok? ==> s.runs[id] == r.value
  {
    if id !in s.runs {
      return Err(ErrRunNotFound);
    }
    var run := s.runs[id];
    if run.parentRunId != UNSET {
      return Err(ErrNotRootRun);
    }
    if run.budget != 0 {
      return Err(ErrBudgetAlreadySet);
    }
    run := run.(budget := budget, rootRunId := id);
    s.PutRun(id, run);
    return Ok(run);
  }

  datatype Reply = Reply(used: int, budget: int, exhausted: bool)

  function ReplyOf(run: Run): Reply {
    Reply(run.used, run.budget, Exhausted(run.used, run.budget))
  }

  /** Counts a child of a root run once, however often it is reported. */
  method IncrementFailureBudget(s: WorkStore, root: Id, child: Id) returns (r: Result<Reply>)
    requires s.Valid()
    modifies s`runs, s`history
    ensures s.Valid() && s.history == old(s.history)
    ensures r == if root !in old(s.runs) then Err(ErrRunNotFound)
                 else if old(s.runs[root]).parentRunId != UNSET then Err(ErrNotRootRun)
                 else Ok(ReplyOf(Charged(old(s.runs[root]), child)))
    ensures s.runs == if root in old(s.runs) then old(s.runs)[root := Apply(old(s.runs[root]), root, Charge(child))]
            else old(s.runs)
  {
    if root !in s.runs {
      return Err(ErrRunNotFound);
    }
    var run := s.runs[root];
    if run.parentRunId != UNSET {
      return Err(ErrNotRootRun);
    }
    for i := 0 to |run.counted|
      invariant child !in run.counted[..i]
    {
      if run.counted[i] == child {
        return Ok(ReplyOf(run));
      }
    }
    run := run.(used := run.used + 1, counted := run.counted + [child]);
    s.PutRun(root, run);
    return Ok(ReplyOf(run));
  }

  /* ---- Any sequence of calls on one root run ---- */

  function ApplyAll(run: Run, id: Id, calls: seq<Call>): Run {
    if calls == [] then run else Apply(ApplyAll(run, id, calls[..|calls| - 1]), id, calls[|calls| - 1])
  }

  /** The children reported, each at its first report. */
  function FirstReports(calls: seq<Call>): seq<Id> {
    if calls == [] then []
    else
      var earlier, last := FirstReports(calls[..|calls| - 1]), calls[|calls| - 1];
      if last.Charge? && last.child !in earlier then earlier + [last.child] else earlier
  }

  lemma {:induction false} FirstReportsAreTheChildren(calls: seq<Call>)
    ensures NoRepeats(FirstReports(calls))
    ensures forall c :: c in FirstReports(calls) <==> Charge(c) in calls
  {
    if calls != [] {
      var rest, last := calls[..|calls| - 1], calls[|calls| - 1];
      assert calls == rest + [last];
      FirstReportsAreTheChildren(rest);
    }
  }

  /** The counter is the number of distinct children, kept without repeats, and a budget once set stays. */
  lemma {:induction false} CounterCountsDistinctChildren(run: Run, id: Id, calls: seq<Call>)
    requires run.parentRunId == UNSET && run.used == 0 && run.counted == []
    ensures var after := ApplyAll(run, id, calls);
            && after.counted == FirstReports(calls) && after.used == |FirstReports(calls)|
            && after.parentRunId == UNSET
            && (run.budget != 0 ==> after.budget == run.budget)
  {
    if calls != [] { CounterCountsDistinctChildren(run, id, calls[..|calls| - 1]); }
  }

  /** The children that were told at least once that the budget is not exhausted. */
  function ToldOpen(run: Run, id: Id, calls: seq<Call>): set<Id> {
    if calls == [] then {}
    else
      var rest, last := calls[..|calls| - 1], calls[|calls| - 1];
      var after := ApplyAll(run, id, calls);
      ToldOpen(run, id, rest) + (if last.Charge? && !ReplyOf(after).exhausted then {last.child} else {})
  }

  function Among(ids: seq<Id>): set<Id> {
    set x | x in ids
  }

  /** How many distinct children had been reported by the last moment without a positive budget. */
  function ReportedFreely(run: Run, id: Id, calls: seq<Call>): nat {
    if ApplyAll(run, id, calls).budget <= 0 then |FirstReports(calls)|
    else if calls == [] then 0
    else ReportedFreely(run, id, calls[..|calls| - 1])
  }

  /** As many as were reported freely, and if the budget is larger as many as it says. */
  function Cap(budget: int, free: nat, all: nat): nat {
    if budget <= free then free else if budget <= all then budget else all
  }

  function Admitted(run: Run, id: Id, calls: seq<Call>): (n: nat)
    ensures n <= |FirstReports(calls)|
  {
    FreelyIsAtMost(run, id, calls);
    Cap(ApplyAll(run, id, calls).budget, ReportedFreely(run, id, calls), |FirstReports(calls)|)
  }

  lemma {:induction false} FreelyIsAtMost(run: Run, id: Id, calls: seq<Call>)
    ensures ReportedFreely(run, id, calls) <= |FirstReports(calls)|
  {
    if calls != [] { FreelyIsAtMost(run, id, calls[..|calls| - 1]); }
  }

  /** Over any calls, wherever among them the budget is set and whether it is positive: the children ever let through
      are exactly the first ones, as many as had been reported before a positive budget was in place, and if the budget
      is larger as many as it says. */
  lemma {:induction false} BudgetAdmitsTheFirst(run: Run, id: Id, calls: seq<Call>)
    requires run.parentRunId == UNSET && run.used == 0 && run.counted == []
    ensures ToldOpen(run, id, calls) == Among(FirstReports(calls)[..Admitted(run, id, calls)])
  {
    if calls != [] {
      var rest, last := calls[..|calls| - 1], calls[|calls| - 1];
      BudgetAdmitsTheFirst(run, id, rest);
      CounterCountsDistinctChildren(run, id, rest);
      CounterCountsDistinctChildren(run, id, calls);
      FirstReportsAreTheChildren(rest);
      AdmittedGrows(run, id, calls);
    }
  }

  /** With a positive budget in place from the start those are the first children up to the budget. */
  lemma {:induction false} BudgetFromTheStart(run: Run, id: Id, calls: seq<Call>)
    requires run.parentRunId == UNSET && run.used == 0 && run.counted == [] && run.budget > 0
    ensures ReportedFreely(run, id, calls) == 0
    ensures Admitted(run, id, calls) == if |FirstReports(calls)| <= run.budget then |FirstReports(calls)|
            else run.budget
  {
    CounterCountsDistinctChildren(run, id, calls);
    if calls != [] { BudgetFromTheStart(run, id, calls[..|calls| - 1]); }
  }

  /** One more call: who is let through now. */
  lemma AdmittedGrows(run: Run, id: Id, calls: seq<Call>)
    requires calls != [] && run.parentRunId == UNSET && run.used == 0 && run.counted == []
    requires var after := ApplyAll(run, id, calls); after.used == |FirstReports(calls)| && after.parentRunId == UNSET
    requires var before := ApplyAll(run, id, calls[..|calls| - 1]);
             && before.used == |FirstReports(calls[..|calls| - 1])| && before.parentRunId == UNSET
             && before.counted == FirstReports(calls[..|calls| - 1])
    ensures var rest, last := calls[..|calls| - 1], calls[|calls| - 1];
            Among(FirstReports(calls)[..Admitted(run, id, calls)])
            == Among(FirstReports(rest)[..Admitted(run, id, rest)])
               + (if last.Charge? && !ReplyOf(ApplyAll(run, id, calls)).exhausted then {last.child} else {})
  {
    var rest, last := calls[..|calls| - 1], calls[|calls| - 1];
    var before, now := FirstReports(rest), FirstReports(calls);
    FreelyIsAtMost(run, id, rest);
    CapStep(ApplyAll(run, id, rest).budget, ApplyAll(run, id, calls).budget, ReportedFreely(run, id, rest),
            ReportedFreely(run, id, calls), |before|, |now|, last.Charge?);
    assert now[..|now|] == now && before[..|before|] == before;
    if last.Charge? && !ReplyOf(ApplyAll(run, id, calls)).exhausted {
      OneMore(before, now, last.child);
    } else {
      assert now[..Admitted(run, id, calls)] == before[..Admitted(run, id, rest)];
    }
  }

  /** A call that lets its child through finds everybody let through, before and after; any other call changes
      nothing. */
  lemma CapStep(budget: int, budget': int, free: nat, free': nat, all: nat, all': nat, charge: bool)
    requires free <= all && (budget <= 0 ==> free == all) && free' == (if budget' <= 0 then all' else free)
    requires (budget != 0 ==> budget' == budget) && if charge then budget' == budget && all <= all' <= all + 1
             else all' == all
    ensures if charge && !Exhausted(all', budget')
            then Cap(budget, free, all) == all && Cap(budget', free', all') == all'
            else Cap(budget, free, all) == Cap(budget', free', all')
  {
  }

  lemma OneMore(before: seq<Id>, now: seq<Id>, child: Id)
    requires now == if child !in before then before + [child] else before
    ensures Among(now) == Among(before) + {child}
  {
  }

  /* ---- Lineage ---- */

  /** Parents exist and were born before their children: a forest. */
  ghost predicate Forest(runs: map<Id, Run>, born: map<Id, nat>) {
    && UNSET !in runs && runs.Keys <= born.Keys
    && forall r :: r in runs && runs[r].parentRunId != UNSET ==>
         runs[r].parentRunId in runs && born[runs[r].parentRunId] < born[r]
  }

  /** The top of a run's parent chain. */
  ghost function Top(runs: map<Id, Run>, born: map<Id, nat>, r: Id): (t: Id)
    requires Forest(runs, born) && r in runs
    ensures t in runs && runs[t].parentRunId == UNSET
    decreases born[r]
  {
    if runs[r].parentRunId == UNSET then r else Top(runs, born, runs[r].parentRunId)
  }

  /** Every run's root pointer is right: a recovery run's names the top of its chain, a top run's is empty or itself. */
  ghost predicate RootsRight(runs: map<Id, Run>, born: map<Id, nat>) {
    && Forest(runs, born)
    && forall r :: r in runs ==>
         if runs[r].parentRunId == UNSET then runs[r].rootRunId == UNSET || runs[r].rootRunId == r
         else runs[r].rootRunId == Top(runs, born, r)
  }

  ghost predicate LineageRight(runs: map<Id, Run>) {
    exists born :: RootsRight(runs, born)
  }

  function ResolveRootRunId(id: Id, run: Run): Id {
    if run.rootRunId != UNSET then run.rootRunId else id
  }

  /** The resolved root is the top of the chain, and the counter lives there: IncrementFailureBudget accepts it. */
  lemma RootIsAccepted(s: WorkStore, born: map<Id, nat>, r: Id)
    requires RootsRight(s.runs, born) && r in s.runs
    ensures var root := ResolveRootRunId(r, s.runs[r]);
            && root == Top(s.runs, born, r)
            && root in s.runs && s.runs[root].parentRunId == UNSET
  {
  }

  /** The top of a chain does not depend on how birth is numbered, and a new run moves nobody's top. */
  lemma {:induction false} TopIsStable(
      runs: map<Id, Run>, born: map<Id, nat>, more: map<Id, Run>, born': map<Id, nat>, r: Id)
    requires Forest(runs, born) && Forest(more, born') && r in runs
    requires forall k :: k in runs ==> k in more && more[k].parentRunId == runs[k].parentRunId
    ensures Top(more, born', r) == Top(runs, born, r)
    decreases born[r]
  {
    if runs[r].parentRunId != UNSET { TopIsStable(runs, born, more, born', runs[r].parentRunId); }
  }

  /** A new child keeps every root pointer right exactly when its parent exists and it points at the parent's top. */
  lemma ChildKeepsRoots(runs: map<Id, Run>, born: map<Id, nat>, id: Id, child: Run)
    requires RootsRight(runs, born) && id !in runs && id != UNSET && child.parentRunId != UNSET
    requires child.parentRunId != id
    ensures LineageRight(runs[id := child])
            <==> child.parentRunId in runs && child.rootRunId == Top(runs, born, child.parentRunId)
  {
    var more := runs[id := child];
    if LineageRight(more) {
      var born' :| RootsRight(more, born');
      assert more[id] == child && child.parentRunId in more;
      TopIsStable(runs, born, more, born', child.parentRunId);
    }
    if child.parentRunId in runs && child.rootRunId == Top(runs, born, child.parentRunId) {
      RightChildFits(runs, born, id, child);
    }
  }

  lemma RightChildFits(runs: map<Id, Run>, born: map<Id, nat>, id: Id, child: Run)
    requires RootsRight(runs, born) && id !in runs && id != UNSET && child.parentRunId in runs
    requires child.rootRunId == Top(runs, born, child.parentRunId)
    ensures LineageRight(runs[id := child])
  {
    var more, born' := runs[id := child], born[id := born[child.parentRunId] + 1];
    assert Forest(more, born');
    forall r | r in runs ensures Top(more, born', r) == Top(runs, born, r) { TopIsStable(runs, born, more, born', r); }
    assert RootsRight(more, born');
  }

  /** Writing a run's other fields, or a root's pointer to itself, keeps every root pointer right. */
  lemma UpdateKeepsRoots(runs: map<Id, Run>, born: map<Id, nat>, id: Id, run: Run)
    requires RootsRight(runs, born) && id in runs && run.parentRunId == runs[id].parentRunId
    requires run.rootRunId == runs[id].rootRunId || (run.parentRunId == UNSET && run.rootRunId == id)
    ensures RootsRight(runs[id := run], born)
  {
    var after := runs[id := run];
    assert Forest(after, born);
    forall r | r in runs ensures Top(after, born, r) == Top(runs, born, r) { TopIsStable(runs, born, after, born, r); }
  }

  /** Any call on a run keeps lineages right. */
  lemma CallKeepsRoots(runs: map<Id, Run>, born: map<Id, nat>, id: Id, call: Call)
    requires RootsRight(runs, born) && id in runs
    ensures RootsRight(runs[id := Apply(runs[id], id, call)], born)
  {
    UpdateKeepsRoots(runs, born, id, Apply(runs[id], id, call));
  }

  /** The root a recovery run is stamped with. */
  function ChosenRoot(runs: map<Id, Run>, parent: Id, root: Id): Id
    requires root == UNSET ==> parent in runs
  {
    if root == UNSET then ResolveRootRunId(parent, runs[parent]) else root
  }

  function NewChild(name: string, generated: string, parent: Id, root: Id, now: Time): Run {
    RunLifecycle.NewRun(RunLifecycle.ChosenName(name, generated), "", now).(parentRunId := parent, rootRunId := root)
  }

  /** Mints a child of a failed run.  Left to itself it inherits the root from the parent, which must then exist; a root
      given by the caller is taken as it is. */
  method CreateRecoveryWorkflowRun(
      s: WorkStore, id: Id, name: string, generated: string, parent: Id, root: Id, now: Time)
    returns (r: Result<Run>)
    requires s.Valid() && s.Fresh(id)
    modifies s`runs, s`history
    ensures s.Valid()
    ensures parent == UNSET ==> r == Err(ErrInvalidTask)
    ensures parent != UNSET && root == UNSET && parent !in old(s.runs) ==> r == Err(ErrRunNotFound)
    ensures parent != UNSET && (root == UNSET ==> parent in old(s.runs)) ==>
              r == match RunLifecycle.CreationError(old(s.runs), name, generated)
                   case Some(err) => Err(err)
                   case None => Ok(NewChild(name, generated, parent, ChosenRoot(old(s.runs), parent, root), now))
    ensures s.runs == if r.Ok? then old(s.runs)[id := r.value] else old(s.runs)
    ensures s.history == if r.Ok? then old(s.history)[id := [RunPending]] else old(s.history)
    ensures r.Ok? ==>
              && r.value.parentRunId == parent && r.value.status == RunPending
              && r.value.name == (if name == "" then generated else name)
              && r.value.rootRunId == if root != UNSET then root
                                      else if old(s.runs)[parent].rootRunId != UNSET then old(s.runs)[parent].rootRunId
                                      else parent
    // With the root left empty lineages stay right.
    ensures root == UNSET && LineageRight(old(s.runs)) ==> LineageRight(s.runs)
  {
    if parent == UNSET {
      return Err(ErrInvalidTask);
    }
    var chosen := root;
    if chosen == UNSET {
      if parent !in s.runs {
        return Err(ErrRunNotFound);
      }
      chosen := s.runs[parent].rootRunId;
      if chosen == UNSET {
        chosen := parent;
      }
    }
    r := CreateChild(s, id, name, generated, parent, chosen, now);
    if root == UNSET && r.Ok? && LineageRight(old(s.runs)) {
      ghost var born :| RootsRight(old(s.runs), born);
      ChildKeepsRoots(old(s.runs), born, id, r.value);
    }
  }

  /** Creates the run and stamps its parentage. */
  method CreateChild(s: WorkStore, id: Id, name: string, generated: string, parent: Id, root: Id, now: Time)
    returns (r: Result<Run>)
    requires s.Valid() && s.Fresh(id)
    modifies s`runs, s`history
    ensures s.Valid()
    ensures r == match RunLifecycle.CreationError(old(s.runs), name, generated)
                 case Some(err) => Err(err)
                 case None => Ok(NewChild(name, generated, parent, root, now))
    ensures s.runs == if r.Ok? then old(s.runs)[id := r.value] else old(s.runs)
    ensures s.history == if r.Ok? then old(s.history)[id := [RunPending]] else old(s.history)
  {
    r := RunLifecycle.CreateWorkflowRun(s, id, name, generated, now);
    if r.Ok? {
      var child := r.value.(parentRunId := parent, rootRunId := root);
      WrittenTwice(old(s.runs), id, r.value, child);
      s.PutRun(id, child);
      r := Ok(child);
    }
  }

  lemma WrittenTwice(runs: map<Id, Run>, id: Id, first: Run, second: Run)
    ensures runs[id := first][id := second] == runs[id := second]
  {
  }
}
