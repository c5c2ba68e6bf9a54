/** Run statuses over any sequence of calls.  Every operation that writes a run says in its postcondition what it
    appends to the run's history, as `RunLifecycle.Logged`; these are the consequences. */
module RunTraces {
  import opened WorkModel
  import opened RunLifecycle

  datatype RunEvent = Created(id: Id) | Called(id: Id, call: RunCall)

  function Last(h: seq<RunStatus>): RunStatus
    requires h != []
  {
    h[|h| - 1]
  }

  ghost predicate AllLegal(history: map<Id, seq<RunStatus>>) {
    forall r :: r in history ==> LegalHistory(history[r])
  }

  function TraceStep(history: map<Id, seq<RunStatus>>, e: RunEvent): (after: map<Id, seq<RunStatus>>)
    ensures history.Keys <= after.Keys
  {
    match e
    case Created(id) => if id in history then history else history[id := [RunPending]]
    case Called(id, call) =>
      if id !in history || history[id] == [] then history
      else history[id := history[id] + Visits(Last(history[id]), call)]
  }

  function Trace(history: map<Id, seq<RunStatus>>, events: seq<RunEvent>): (after: map<Id, seq<RunStatus>>)
    ensures history.Keys <= after.Keys
  {
    if events == [] then history else TraceStep(Trace(history, events[..|events| - 1]), events[|events| - 1])
  }

  /** What a handler promises about the histories of a valid store is one step, and the stored status is the last
      visited. */
  lemma LoggedIsStep(runs: map<Id, Run>, history: map<Id, seq<RunStatus>>, id: Id, call: RunCall)
    requires HistoriesMatch(runs, history)
    ensures Logged(runs, history, id, call) == TraceStep(history, Called(id, call))
    ensures id in runs ==> Last(history[id]) == runs[id].status
  {
    if id in runs && Visits(runs[id].status, call) == [] {
      assert history[id] + Visits(runs[id].status, call) == history[id];
    }
  }

  lemma CallStaysLegal(h: seq<RunStatus>, call: RunCall)
    requires LegalHistory(h)
    ensures LegalHistory(h + Visits(Last(h), call))
  {
    var more := Visits(Last(h), call);
    var longer := h + more;
    forall i | 0 <= i < |longer| - 1 ensures longer[i].CanTransitionTo(longer[i + 1]) {
      if i < |h| - 1 { assert h[i].CanTransitionTo(h[i + 1]); }
    }
  }

  /** Histories only grow, and along the table, whatever is called on whichever runs. */
  lemma {:induction false} TracesGrowLegally(history: map<Id, seq<RunStatus>>, events: seq<RunEvent>)
    requires AllLegal(history)
    ensures var after := Trace(history, events);
            AllLegal(after) && forall r :: r in history ==> r in after && history[r] <= after[r]
  {
    if events != [] {
      var rest, last := events[..|events| - 1], events[|events| - 1];
      TracesGrowLegally(history, rest);
      var mid := Trace(history, rest);
      if last.Called? && last.id in mid { CallStaysLegal(mid[last.id], last.call); }
    }
  }

  lemma PastIsPast(was: seq<RunStatus>, now: seq<RunStatus>)
    requires LegalHistory(was) && LegalHistory(now) && was <= now
    ensures Last(was) == RunRolledBack ==> now == was
    ensures !IsOpen(Last(was)) ==> forall i :: |was| <= i < |now| ==> !IsOpen(now[i])
    ensures forall i, j :: 0 <= i < |was| <= j < |now| ==> !(IsOutcome(was[i]) && IsOutcome(now[j]))
    ensures Phase(Last(was)) <= Phase(Last(now))
  {
    HistoryShape(now);
    assert Last(was) == now[|was| - 1];
    forall i, j | 0 <= i < |was| <= j < |now| ensures !(IsOutcome(was[i]) && IsOutcome(now[j])) {
      assert was[i] == now[i];
    }
    if |was| < |now| { PhasesAdvance(now, |was| - 1, |now| - 1); }
  }

  /** Between any two moments of a store's life: a run that was rolled back still is, and nothing has happened to it; a
      run that was past its open statuses has not been in one since; and a run that had completed, failed or been
      cancelled has had no such outcome again. */
  lemma NoWayBack(history: map<Id, seq<RunStatus>>, events: seq<RunEvent>, r: Id)
    requires AllLegal(history) && r in history
    ensures var was, now := history[r], Trace(history, events)[r];
            && LegalHistory(was) && LegalHistory(now) && was <= now
            && (Last(was) == RunRolledBack ==> now == was)
            && (!IsOpen(Last(was)) ==> forall i :: |was| <= i < |now| ==> !IsOpen(now[i]))
            && (forall i, j :: 0 <= i < |was| <= j < |now| ==> !(IsOutcome(was[i]) && IsOutcome(now[j])))
            && Phase(Last(was)) <= Phase(Last(now))
  {
    TracesGrowLegally(history, events);
    PastIsPast(history[r], Trace(history, events)[r]);
  }

  /** A rollback can be asked for at any moment: it succeeds exactly from failed, completed, cancelled and
      rollback_failed unless another run stands in the way, and then the run never changes again. */
  lemma RollbackIsFinal(history: map<Id, seq<RunStatus>>, r: Id, later: seq<RunEvent>)
    requires AllLegal(history) && r in history
    ensures var after := TraceStep(history, Called(r, RollbackAsked(false)));
            && LegalHistory(history[r]) && LegalHistory(after[r])
            && (Last(after[r]) == RunRolledBack
                <==> Last(history[r]) in {RunFailed, RunCompleted, RunCancelled, RunRollbackFailed, RunRolledBack})
            && (Last(after[r]) == RunRolledBack ==> Trace(after, later)[r] == after[r])
  {
    CallStaysLegal(history[r], RollbackAsked(false));
    var after := TraceStep(history, Called(r, RollbackAsked(false)));
    NoWayBack(after, later, r);
  }
}
