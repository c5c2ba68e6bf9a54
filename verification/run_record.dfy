/** What the record of a run says after any sequence of calls that write it: who it is, why and when it started and
    ended, and who cancelled it (workflow_run.go, workflow_run_cancel.go and workflow_run_failure_budget.go). */
module RunRecord {
  import opened WorkModel
  import opened FailureBudget
  import RunLifecycle

  /** No call changes what a run was created with. */
  lemma {:induction false} IdentityStays(run: Run, id: Id, calls: seq<Call>)
    ensures var after := ApplyAll(run, id, calls);
            && after.name == run.name && after.terminalEvent == run.terminalEvent && after.createdAt == run.createdAt
            && after.parentRunId == run.parentRunId
  {
    if calls != [] { IdentityStays(run, id, calls[..|calls| - 1]); }
  }

  /** Call `i` changes the status of the run to `next`. */
  predicate Moves(run: Run, id: Id, calls: seq<Call>, i: nat)
    requires i < |calls|
  {
    var status := ApplyAll(run, id, calls[..i]).status;
    match calls[i]
    case SetStatus(next, _, _) => status.CanTransitionTo(next)
    case Cancel(_, _, _, _) => status == RunInProgress
    case FinalizeCancel(_) => status == RunCancelling
    case _ => false
  }

  lemma SamePrefix(run: Run, id: Id, calls: seq<Call>, i: nat)
    requires i < |calls| - 1
    ensures calls[..|calls| - 1][..i] == calls[..i]
    ensures Moves(run, id, calls[..|calls| - 1], i) <==> Moves(run, id, calls, i)
  {
    assert calls[..|calls| - 1][..i] == calls[..i];
  }

  /* ---- The reason ---- */

  predicate GivesReason(run: Run, id: Id, calls: seq<Call>, i: nat)
    requires i < |calls|
  {
    Moves(run, id, calls, i) && calls[i].SetStatus? && calls[i].reason != ""
  }

  /** The reason stored is the last one that a status change gave: a change without one keeps it. */
  lemma {:induction false} ReasonIsLast(run: Run, id: Id, calls: seq<Call>, i: nat)
    requires i < |calls| && GivesReason(run, id, calls, i)
    requires forall j: nat :: i < j < |calls| ==> !GivesReason(run, id, calls, j)
    ensures ApplyAll(run, id, calls).failureReason == calls[i].reason
  {
    var n := |calls| - 1;
    if i < n {
      SamePrefix(run, id, calls, i);
      forall j: nat | i < j < n ensures !GivesReason(run, id, calls[..n], j) {
        SamePrefix(run, id, calls, j);
        assert !GivesReason(run, id, calls, j);
      }
      ReasonIsLast(run, id, calls[..n], i);
      assert !GivesReason(run, id, calls, n);
    }
  }

  lemma {:induction false} ReasonStays(run: Run, id: Id, calls: seq<Call>)
    requires forall j: nat :: j < |calls| ==> !GivesReason(run, id, calls, j)
    ensures ApplyAll(run, id, calls).failureReason == run.failureReason
  {
    if calls != [] {
      var n := |calls| - 1;
      forall j: nat | j < n ensures !GivesReason(run, id, calls[..n], j) {
        SamePrefix(run, id, calls, j);
        assert !GivesReason(run, id, calls, j);
      }
      ReasonStays(run, id, calls[..n]);
      assert !GivesReason(run, id, calls, n);
    }
  }

  /* ---- The times ---- */

  /** A start once recorded stays. */
  lemma {:induction false} StartStays(run: Run, id: Id, calls: seq<Call>)
    requires run.startedAt != NO_TIME
    ensures ApplyAll(run, id, calls).startedAt == run.startedAt
  {
    if calls != [] { StartStays(run, id, calls[..|calls| - 1]); }
  }

  /** A run without a recorded start gets the time of the call that puts it in progress, and of no other. */
  lemma FirstStart(run: Run, id: Id, call: Call)
    requires run.startedAt == NO_TIME
    ensures Apply(run, id, call).startedAt
            == if call.SetStatus? && call.next == RunInProgress && run.status.CanTransitionTo(RunInProgress)
               then call.now else NO_TIME
  {
  }

  /** Call `i` ends the run: as completed, failed or cancelled, or as rolled back one way or the other. */
  predicate EndsRun(run: Run, id: Id, calls: seq<Call>, i: nat)
    requires i < |calls|
  {
    && Moves(run, id, calls, i)
    && (calls[i].FinalizeCancel?
        || (calls[i].SetStatus? && calls[i].next.IsTerminal() && calls[i].next != RunCancelled))
  }

  function TimeOf(call: Call): Time {
    match call
    case SetStatus(_, _, now) => now
    case Cancel(_, _, _, now) => now
    case FinalizeCancel(now) => now
    case _ => NO_TIME
  }

  /** The end stored is the time of the last call that ended the run. */
  lemma {:induction false} EndIsLast(run: Run, id: Id, calls: seq<Call>, i: nat)
    requires i < |calls| && EndsRun(run, id, calls, i)
    requires forall j: nat :: i < j < |calls| ==> !EndsRun(run, id, calls, j)
    ensures ApplyAll(run, id, calls).completedAt == TimeOf(calls[i])
  {
    var n := |calls| - 1;
    if i < n {
      SamePrefix(run, id, calls, i);
      forall j: nat | i < j < n ensures !EndsRun(run, id, calls[..n], j) {
        SamePrefix(run, id, calls, j);
        assert !EndsRun(run, id, calls, j);
      }
      EndIsLast(run, id, calls[..n], i);
      assert !EndsRun(run, id, calls, n);
    }
  }

  lemma {:induction false} EndStays(run: Run, id: Id, calls: seq<Call>)
    requires forall j: nat :: j < |calls| ==> !EndsRun(run, id, calls, j)
    ensures ApplyAll(run, id, calls).completedAt == run.completedAt
  {
    if calls != [] {
      var n := |calls| - 1;
      forall j: nat | j < n ensures !EndsRun(run, id, calls[..n], j) {
        SamePrefix(run, id, calls, j);
        assert !EndsRun(run, id, calls, j);
      }
      EndStays(run, id, calls[..n]);
      assert !EndsRun(run, id, calls, n);
    }
  }

  /** Whatever moves the run stamps it. */
  lemma MoveIsStamped(run: Run, id: Id, calls: seq<Call>)
    requires calls != [] && Moves(run, id, calls, |calls| - 1)
    ensures ApplyAll(run, id, calls).updatedAt == TimeOf(calls[|calls| - 1])
  {
  }

  /* ---- The envelope of a cancel ---- */

  /** Who cancelled a run, why and until when it may settle, stays as the accepted cancel said, whatever is called
      afterwards: there is never a second one. */
  lemma {:induction false} EnvelopeStays(run: Run, id: Id, calls: seq<Call>, i: nat)
    requires i < |calls| && calls[i].Cancel? && Moves(run, id, calls, i)
    ensures var after := ApplyAll(run, id, calls);
            && after.cancelledBy == calls[i].caller && after.cancelReason == calls[i].reason
            && after.cancellingUntil == calls[i].deadline && !RunLifecycle.IsOpen(after.status)
    ensures forall j: nat :: i < j < |calls| && calls[j].Cancel? ==> !Moves(run, id, calls, j)
  {
    var n := |calls| - 1;
    if i < n {
      SamePrefix(run, id, calls, i);
      EnvelopeStays(run, id, calls[..n], i);
      forall j: nat | i < j < |calls| && calls[j].Cancel? ensures !Moves(run, id, calls, j) {
        if j < n { SamePrefix(run, id, calls, j); }
      }
    }
  }

  lemma {:induction false} NoCancelNoEnvelope(run: Run, id: Id, calls: seq<Call>)
    requires forall j: nat :: j < |calls| && calls[j].Cancel? ==> !Moves(run, id, calls, j)
    ensures var after := ApplyAll(run, id, calls);
            && after.cancelledBy == run.cancelledBy && after.cancelReason == run.cancelReason
            && after.cancellingUntil == run.cancellingUntil
  {
    if calls != [] {
      var n := |calls| - 1;
      forall j: nat | j < n && calls[j].Cancel? ensures !Moves(run, id, calls[..n], j) {
        SamePrefix(run, id, calls, j);
      }
      NoCancelNoEnvelope(run, id, calls[..n]);
      assert calls[n].Cancel? ==> !Moves(run, id, calls, n);
    }
  }
}
