/** What holds in every interleaving of the run protocol, crashes and restarts included. */
module ProtocolTheorems {
  import opened Common
  import opened SafetyModels
  import opened Runs
  import opened RunStore
  import opened EventLog
  import opened Protocol

  /** The state after an interleaving that starts in `s`. */
  ghost function RunFrom(durable: bool, s: System, labels: seq<Label>): (t: System)
    requires Inv(s)
    ensures Inv(t)
  {
    if labels == [] then s
    else
      var before := RunFrom(durable, s, labels[..|labels| - 1]);
      StepKeepsInv(durable, before, labels[|labels| - 1]);
      Step(durable, before, labels[|labels| - 1])
  }

  lemma InitialInv()
    ensures Inv(INITIAL)
  {
  }

  ghost function Reached(durable: bool, labels: seq<Label>): (t: System)
    ensures Inv(t)
  {
    InitialInv();
    RunFrom(durable, INITIAL, labels)
  }

  /** No wake-up is ever lost; once everything has been delivered and the worker idles, nothing is queued. */
  lemma NoRunIsForgotten(durable: bool, labels: seq<Label>)
    ensures var s := Reached(durable, labels);
            && (forall id :: s.db.IsQueued(id) ==> WakeupPending(s, id))
            && (s.phase.Idle? && s.queue == multiset{} && s.handlers == multiset{} ==> forall id :: !s.db.IsQueued(id))
  {
    var s := Reached(durable, labels);
    forall id | s.db.IsQueued(id) ensures WakeupPending(s, id) {
    }
  }

  /** The row of every run is what its log replays to, and the log is legal. */
  lemma RowsAreEventSourced(durable: bool, labels: seq<Label>, id: RunId)
    requires id in Reached(durable, labels).db.rows
    ensures var db := Reached(durable, labels).db;
            id in db.events && LegalLog(db.events[id]) && Replay(db.events[id]) == ViewOf(db.rows[id])
  {
    var db := Reached(durable, labels).db;
    assert RunConsistent(db.rows[id], db.events[id]);
  }

  /** The closing transition never raises: the run is still RUNNING when its worker closes it, whatever the API did. */
  lemma ClosingNeverRaises(durable: bool, labels: seq<Label>)
    requires Reached(durable, labels).phase.Closing?
    ensures var s := Reached(durable, labels);
            ClosingReply(s.db, s.phase.id, s.phase.outcome, s.phase.cancelSeen).result == Success(())
  {
    var s := Reached(durable, labels);
    ClosingWrites(s.db, s.phase.id, s.phase.outcome, s.phase.cancelSeen);
  }

  /** A run is executed at most once per admission: once for its creation, once for every approval or requeue. */
  lemma ExecutedOncePerAdmission(durable: bool, labels: seq<Label>, id: RunId)
    requires id in Reached(durable, labels).db.rows
    ensures var s := Reached(durable, labels);
            && id in s.db.events
            && Count(s.calls, id) + Count(s.dropped, id) + InHand(s.phase, id) == Starts(s.db.events[id])
            && Starts(s.db.events[id]) <= Releases(s.db.events[id]) + 1
            && (s.db.IsQueued(id) ==> Starts(s.db.events[id]) == Releases(s.db.events[id]))
  {
    var s := Reached(durable, labels);
    assert RunConsistent(s.db.rows[id], s.db.events[id]);
    StartCredit(s.db.events[id]);
  }

  /* ---- What a step does to one row ---- */

  /**
    How a step may change the row of a run that exists. Only the closing of this very run leads to
    COMPLETED or FAILED, and only it and its claim lead out of RUNNING and QUEUED in other ways.
   */
  ghost predicate RowMoves(s: System, l: Label, before: Row, after: Row, id: RunId) {
    || after == before
    || (l == ApiCancel(id) && !IsTerminal(before.status) && after == CancelledRow(before))
    || (l == ApiApprove(id) && before.status == ApprovalRequired && before.approval.Some?
        && after == ApprovedRow(before, before.approval.value))
    || (l.Claim? && s.phase == Holding(id) && before.status == Queued && after == ClaimedRow(before))
    || (l.CloseRun? && s.phase.Closing? && s.phase.id == id && before.status == Running
        && after == ClosingWriteOf(before, s.phase.outcome, s.phase.cancelSeen).row)
    || (l.Recover? && s.phase.Down? && after == RestartedRow(before))
  }

  lemma NothingMoves(durable: bool, s: System, l: Label)
    requires s.db.WellFormed() && !Enabled(s, l)
    ensures Step(durable, s, l) == s
  {
    hide ClosingReply, ClaimRun, RecoverInterrupted, RequestCancel, Approve, CreateRun, ListQueued, NoDuplicates;
  }

  /** Queue, worker and crash steps outside the store's transactions leave the database alone. */
  lemma OthersKeepDb(durable: bool, s: System, l: Label)
    requires s.db.WellFormed()
    requires !l.ApiCreate? && !l.ApiCancel? && !l.ApiApprove? && !l.Claim? && !l.CloseRun? && !l.Recover?
    ensures Step(durable, s, l).db == s.db
  {
    hide ClosingReply, ClaimRun, RecoverInterrupted, RequestCancel, Approve, CreateRun, ListQueued, NoDuplicates;
  }

  lemma StepMovesRow(durable: bool, s: System, l: Label, id: RunId)
    requires s.db.WellFormed() && OwnedRunIsRunning(s) && id in s.db.rows
    ensures id in Step(durable, s, l).db.rows
    ensures RowMoves(s, l, s.db.rows[id], Step(durable, s, l).db.rows[id], id)
    ensures l.CloseRun? && s.phase.Closing? && s.phase.id == id ==>
              Step(durable, s, l).db.rows[id] == ClosingWriteOf(s.db.rows[id], s.phase.outcome, s.phase.cancelSeen).row
  {
    hide Step, NoDuplicates, CancelledRow, ApprovedRow, ClaimedRow, ClosingWriteOf, RestartedRow, RestartedLog,
         NextEvent;
    hide ClosingReply, ClaimRun, RecoverInterrupted, RequestCancel, Approve, CreateRun, ListQueued;
    if !Enabled(s, l) {
      assert Step(durable, s, l) == s by { NothingMoves(durable, s, l); }
    } else {
      match l
      case ApiCreate(x) => ApiSteps(durable, s, x); CreateWellFormed(s.db, x);
      case ApiCancel(x) => ApiSteps(durable, s, x); CancelWrites(s.db, x);
      case ApiApprove(x) => ApiSteps(durable, s, x); ApproveWrites(s.db, x);
      case Claim => Protocol.ClaimStep(durable, s); ClaimWrites(s.db, s.phase.id);
      case CloseRun =>
        CloseStep(durable, s);
        ClosingWrites(s.db, s.phase.id, s.phase.outcome, s.phase.cancelSeen);
      case Recover => RecoverStep(durable, s); if durable { RestartWrites(s.db); }
      case _ => assert Step(durable, s, l).db == s.db by { OthersKeepDb(durable, s, l); }
    }
  }

  /** The worker's phase after a step, as far as it concerns closing a run. */
  lemma StepMovesPhase(durable: bool, s: System, l: Label)
    requires s.db.WellFormed()
    ensures var t := Step(durable, s, l);
            t.phase.Closing? ==>
              || t.phase == s.phase
              || (l.ReadCancelFlag? && s.phase.Decided? && t.phase.id == s.phase.id && t.db == s.db
                  && t.phase.cancelSeen == s.db.CancelFlag(s.phase.id))
    ensures l.CloseRun? && s.phase.Closing? ==> !Step(durable, s, l).phase.Closing?
  {
    hide ClosingReply, ClaimRun, RecoverInterrupted, RequestCancel, Approve, CreateRun, ListQueued;
    hide NoDuplicates;
  }

  /* ---- Cancellation ---- */

  const BLANK_ROW := Row(Running, false, None, [], None)

  /** The status the run will get from the closing transaction that its worker has decided on. */
  function DecidedStatus(s: System): Status
    requires s.phase.Closing?
  {
    ClosingWriteOf(BLANK_ROW, s.phase.outcome, s.phase.cancelSeen).row.status
  }

  lemma ClosingStatus(row: Row, outcome: Outcome, cancelSeen: bool)
    ensures ClosingWriteOf(row, outcome, cancelSeen).row.status ==
            ClosingWriteOf(BLANK_ROW, outcome, cancelSeen).row.status
    ensures ClosingWriteOf(row, outcome, cancelSeen).row.cancelRequested == row.cancelRequested
    ensures cancelSeen ==> ClosingWriteOf(row, outcome, cancelSeen).row.status == Cancelled
  {
  }

  /** The worker has already read "not cancelled" and is about to write a completion or a failure. */
  predicate CancelTooLate(s: System, id: RunId) {
    s.phase.Closing? && s.phase.id == id && (DecidedStatus(s) == Completed || DecidedStatus(s) == Failed)
  }

  predicate BoundToCancel(s: System, id: RunId) {
    && s.db.CancelFlag(id)
    && s.db.rows[id].status != Completed && s.db.rows[id].status != Failed
    && !CancelTooLate(s, id)
  }

  lemma StepStaysBound(durable: bool, s: System, l: Label, id: RunId)
    requires s.db.WellFormed() && OwnedRunIsRunning(s) && BoundToCancel(s, id)
    ensures BoundToCancel(Step(durable, s, l), id)
  {
    hide Step, NoDuplicates, ClosingWriteOf;
    StepMovesRow(durable, s, l, id);
    StepMovesPhase(durable, s, l);
    var t := Step(durable, s, l);
    if s.phase.Closing? {
      ClosingStatus(s.db.rows[id], s.phase.outcome, s.phase.cancelSeen);
    }
    if t.phase.Closing? {
      ClosingStatus(BLANK_ROW, t.phase.outcome, t.phase.cancelSeen);
    }
  }

  lemma {:induction false} StaysBound(durable: bool, s: System, labels: seq<Label>, id: RunId)
    requires Inv(s) && BoundToCancel(s, id)
    ensures BoundToCancel(RunFrom(durable, s, labels), id)
  {
    hide Step, BoundToCancel, Consistent, NoLostWakeup, StartsAccounted;
    if labels != [] {
      StaysBound(durable, s, labels[..|labels| - 1], id);
      StepStaysBound(durable, RunFrom(durable, s, labels[..|labels| - 1]), labels[|labels| - 1], id);
    }
  }

  /** The run has finished with something other than a cancellation. */
  predicate FinishedOtherwise(s: System, id: RunId) {
    id in s.db.rows && (s.db.rows[id].status == Completed || s.db.rows[id].status == Failed)
  }

  lemma LateCancelIsLost(durable: bool, s: System, id: RunId)
    requires s.db.WellFormed() && OwnedRunIsRunning(s) && CancelTooLate(s, id)
    ensures FinishedOtherwise(Step(durable, s, CloseRun), id)
  {
    hide Step, NoDuplicates, ClosingWriteOf;
    StepMovesRow(durable, s, CloseRun, id);
    ClosingStatus(s.db.rows[id], s.phase.outcome, s.phase.cancelSeen);
  }

  lemma RunOne(durable: bool, s: System, l: Label)
    requires Inv(s)
    ensures RunFrom(durable, s, [l]) == Step(durable, s, l)
  {
    assert [l][..0] == [];
    assert RunFrom(durable, s, []) == s;
  }

  /**
    What a recorded cancel request guarantees: CANCELLED is the only terminal status ahead, through
    approvals, requeues and restarts, if and only if the request did not land between the worker's
    last look at the flag and its writing of a completion or failure.
   */
  lemma CancelGuarantee(durable: bool, s: System, id: RunId)
    requires Inv(s) && s.db.CancelFlag(id) && !FinishedOtherwise(s, id)
    ensures (forall labels: seq<Label> :: !FinishedOtherwise(RunFrom(durable, s, labels), id)) <==>
              !CancelTooLate(s, id)
  {
    hide Step, Consistent, StartsAccounted, NoLostWakeup;
    if CancelTooLate(s, id) {
      LateCancelIsLost(durable, s, id);
      RunOne(durable, s, CloseRun);
      assert FinishedOtherwise(RunFrom(durable, s, [CloseRun]), id);
    } else {
      forall labels: seq<Label> ensures !FinishedOtherwise(RunFrom(durable, s, labels), id) {
        StaysBound(durable, s, labels, id);
      }
    }
  }

  /* ---- The window exists ---- */

  lemma ReachedNext(durable: bool, labels: seq<Label>, l: Label)
    ensures Reached(durable, labels + [l]) == Step(durable, Reached(durable, labels), l)
  {
    hide Step;
    InitialInv();
    assert (labels + [l])[..|labels|] == labels;
  }

  lemma NothingReached(durable: bool)
    ensures Reached(durable, []) == INITIAL
  {
    InitialInv();
  }

  lemma EmptyRecovery()
    ensures EMPTY.WellFormed() && RecoverInterrupted(EMPTY) == Reply(EMPTY, Success([])) && ListQueued(EMPTY) == []
  {
    NothingRecovered(EMPTY);
    assert Interrupted(EMPTY) == [];
  }

  lemma EmptySteps(durable: bool)
    ensures Step(durable, INITIAL, Recover) == INITIAL.(phase := Recovered([]))
    ensures Step(durable, INITIAL.(phase := Recovered([])), ListQueuedRuns) == INITIAL.(phase := Notifying([]))
    ensures Step(durable, INITIAL.(phase := Notifying([])), FinishStart) == INITIAL.(phase := Idle)
  {
    hide Step, RecoverInterrupted, ListQueued, NoDuplicates;
    EmptyRecovery();
    RecoverStep(durable, INITIAL);
    var nobody: seq<RunId> := [];
    assert nobody + nobody == nobody;
    StartSteps(durable, INITIAL.(phase := Recovered(nobody)));
    StartSteps(durable, INITIAL.(phase := Notifying(nobody)));
  }

  /** A state with an empty database that has just started. */
  lemma StartedEmpty(durable: bool) returns (labels: seq<Label>)
    ensures Reached(durable, labels) == INITIAL.(phase := Idle)
  {
    hide Reached;
    EmptyRecovery();
    labels := [];
    assert Reached(durable, labels) == INITIAL by { NothingReached(durable); }
    EmptySteps(durable);
    ReachedNext(durable, labels, Recover);
    labels := labels + [Recover];
    ReachedNext(durable, labels, ListQueuedRuns);
    labels := labels + [ListQueuedRuns];
    ReachedNext(durable, labels, FinishStart);
    labels := labels + [FinishStart];
  }

  lemma CreatedStep(durable: bool, s: System, id: RunId)
    requires s.db.WellFormed() && id !in s.db.rows
    ensures var t := Step(durable, s, ApiCreate(id));
            && t.phase == s.phase && id in t.handlers && t.db.WellFormed()
            && id in t.db.rows && t.db.rows[id] == Row(Queued, false, None, [], None)
  {
    hide ClosingReply, ClaimRun, RecoverInterrupted, RequestCancel, Approve, CreateRun, ListQueued, NoDuplicates,
         NextEvent;
    CreateWellFormed(s.db, id);
  }

  lemma DeliveredSteps(durable: bool, s: System, id: RunId)
    requires s.db.WellFormed() && s.phase.Idle? && id in s.handlers
    ensures var t := Step(durable, s, ApiNotify(id));
            t.db == s.db && Step(durable, t, Dequeue(id)).db == s.db
                && Step(durable, t, Dequeue(id)).phase == Holding(id)
  {
    hide ClosingReply, ClaimRun, RecoverInterrupted, RequestCancel, Approve, CreateRun, ListQueued, NoDuplicates;
  }

  lemma ClaimedStep(durable: bool, s: System, id: RunId)
    requires s.db.WellFormed() && s.db.IsQueued(id) && !s.db.CancelFlag(id) && s.phase == Holding(id)
    ensures var t := Step(durable, s, Label.Claim);
            && id in t.db.rows && t.db.rows[id] == s.db.rows[id].(status := Running)
            && t.phase == Claimed(id, t.db.rows[id])
  {
    hide ClosingReply, ClaimRun, RecoverInterrupted, RequestCancel, Approve, CreateRun, ListQueued, NoDuplicates,
         NextEvent;
    ClaimWrites(s.db, id);
  }

  /** A run is created, announced, taken from the queue and claimed. */
  lemma ClaimedOne(durable: bool) returns (labels: seq<Label>)
    ensures var s := Reached(durable, labels);
            s.phase == Claimed(0, BLANK_ROW) && 0 in s.db.rows && s.db.rows[0] == BLANK_ROW
  {
    hide Reached, Step, Consistent, NoLostWakeup, StartsAccounted, NoDuplicates;
    labels := StartedEmpty(durable);
    ghost var s := Reached(durable, labels);
    CreatedStep(durable, s, 0);
    ReachedNext(durable, labels, ApiCreate(0));
    labels, s := labels + [ApiCreate(0)], Step(durable, s, ApiCreate(0));
    DeliveredSteps(durable, s, 0);
    ReachedNext(durable, labels, ApiNotify(0));
    labels, s := labels + [ApiNotify(0)], Step(durable, s, ApiNotify(0));
    ReachedNext(durable, labels, Dequeue(0));
    labels, s := labels + [Dequeue(0)], Step(durable, s, Dequeue(0));
    ClaimedStep(durable, s, 0);
    ReachedNext(durable, labels, Label.Claim);
    labels := labels + [Label.Claim];
  }

  /** What the worker does with a claimed run up to its last read of the flag leaves the database alone. */
  lemma ExecutedSteps(durable: bool, s: System, outcome: Outcome)
    requires s.db.WellFormed() && s.phase.Claimed?
    ensures var written := Step(durable, s, WriteArtifact(true));
            var decided := Step(durable, written, ExecutorReturns(outcome));
            var closing := Step(durable, decided, ReadCancelFlag);
            && written.db == s.db && decided.db == s.db && closing.db == s.db
            && closing.phase == Closing(s.phase.id, s.phase.record, outcome, s.db.CancelFlag(s.phase.id))
  {
    hide ClosingReply, ClaimRun, RecoverInterrupted, RequestCancel, Approve, CreateRun, ListQueued, NoDuplicates;
  }

  lemma CancelledStep(durable: bool, s: System, id: RunId)
    requires s.db.WellFormed() && id in s.db.rows && s.db.rows[id].status == Running
    ensures var t := Step(durable, s, ApiCancel(id));
            && t.phase == s.phase
            && id in t.db.rows && t.db.rows[id] == s.db.rows[id].(cancelRequested := true)
  {
    hide ClosingReply, ClaimRun, RecoverInterrupted, RequestCancel, Approve, CreateRun, ListQueued, NoDuplicates,
         NextEvent;
    CancelWrites(s.db, id);
  }

  lemma CompletionIsDecided()
    ensures ClosingWriteOf(BLANK_ROW, Outcome(Completed, "", None), false).row.status == Completed
  {
  }

  /**
    A recorded cancel request can be lost: the executor completes the run, the worker reads the flag,
    only then the request arrives, and the run completes.
   */
  lemma CancelCanBeLost(durable: bool) returns (labels: seq<Label>)
    ensures var s := Reached(durable, labels);
            s.db.CancelFlag(0) && !FinishedOtherwise(s, 0) && CancelTooLate(s, 0)
    ensures FinishedOtherwise(Reached(durable, labels + [CloseRun]), 0)
  {
    hide Reached, Step, ClosingWriteOf, Consistent, NoLostWakeup, StartsAccounted, NoDuplicates;
    CompletionIsDecided();
    var completed := Outcome(Completed, "", None);
    labels := ClaimedOne(durable);
    ghost var s := Reached(durable, labels);
    ExecutedSteps(durable, s, completed);
    ReachedNext(durable, labels, WriteArtifact(true));
    labels, s := labels + [WriteArtifact(true)], Step(durable, s, WriteArtifact(true));
    ReachedNext(durable, labels, ExecutorReturns(completed));
    labels, s := labels + [ExecutorReturns(completed)], Step(durable, s, ExecutorReturns(completed));
    ReachedNext(durable, labels, ReadCancelFlag);
    labels, s := labels + [ReadCancelFlag], Step(durable, s, ReadCancelFlag);
    CancelledStep(durable, s, 0);
    ReachedNext(durable, labels, ApiCancel(0));
    labels, s := labels + [ApiCancel(0)], Step(durable, s, ApiCancel(0));
    LateCancelIsLost(durable, s, 0);
    ReachedNext(durable, labels, CloseRun);
  }

  /* ---- A flag set before the last read ---- */

  /** The worker is closing the run with the flag unseen, and not by cancelling it. */
  predicate ClosesUncancelled(s: System, id: RunId) {
    s.phase.Closing? && s.phase.id == id && DecidedStatus(s) != Cancelled
  }

  /** The flag is set, on a cancelled run or on a RUNNING one whose worker has not read it as unset. */
  predicate Sealed(s: System, id: RunId) {
    && s.db.CancelFlag(id)
    && (s.db.rows[id].status == Cancelled || (s.db.rows[id].status == Running && !ClosesUncancelled(s, id)))
  }

  /** RUNNING or CANCELLED: neither finished otherwise nor parked nor queued again. */
  predicate RunsOrCancelled(s: System, id: RunId) {
    id in s.db.rows && (s.db.rows[id].status == Running || s.db.rows[id].status == Cancelled)
  }

  /** While the worker has the run and has not read the flag as unset, a set flag seals it. */
  lemma FlagBeforeLastReadSeals(s: System, id: RunId)
    requires OwnedRunIsRunning(s) && s.phase.Owns(id) && s.db.CancelFlag(id)
    requires s.phase.Closing? ==> s.phase.cancelSeen
    ensures Sealed(s, id)
  {
    hide ClosingWriteOf;
    if s.phase.Closing? {
      ClosingStatus(BLANK_ROW, s.phase.outcome, s.phase.cancelSeen);
    }
  }

  lemma StepStaysSealed(durable: bool, s: System, l: Label, id: RunId)
    requires s.db.WellFormed() && OwnedRunIsRunning(s) && Sealed(s, id)
    ensures Sealed(Step(durable, s, l), id)
  {
    hide Step, NoDuplicates, ClosingWriteOf;
    StepMovesRow(durable, s, l, id);
    StepMovesPhase(durable, s, l);
    var t := Step(durable, s, l);
    if s.phase.Closing? {
      ClosingStatus(s.db.rows[id], s.phase.outcome, s.phase.cancelSeen);
    }
    if t.phase.Closing? {
      ClosingStatus(BLANK_ROW, t.phase.outcome, t.phase.cancelSeen);
    }
  }

  lemma {:induction false} StaysSealed(durable: bool, s: System, labels: seq<Label>, id: RunId)
    requires Inv(s) && Sealed(s, id)
    ensures Sealed(RunFrom(durable, s, labels), id)
  {
    hide Step, Sealed, Consistent, NoLostWakeup, StartsAccounted;
    if labels != [] {
      StaysSealed(durable, s, labels[..|labels| - 1], id);
      StepStaysSealed(durable, RunFrom(durable, s, labels[..|labels| - 1]), labels[|labels| - 1], id);
    }
  }

  lemma NeverClosesRunning(outcome: Outcome, cancelSeen: bool)
    ensures ClosingWriteOf(BLANK_ROW, outcome, cancelSeen).row.status != Running
  {
  }

  lemma UnsealedEscapes(durable: bool, s: System, id: RunId)
    requires s.db.WellFormed() && OwnedRunIsRunning(s) && s.db.CancelFlag(id) && RunsOrCancelled(s, id)
              && !Sealed(s, id)
    ensures !RunsOrCancelled(Step(durable, s, CloseRun), id)
  {
    hide Step, NoDuplicates, ClosingWriteOf;
    StepMovesRow(durable, s, CloseRun, id);
    ClosingStatus(s.db.rows[id], s.phase.outcome, s.phase.cancelSeen);
    NeverClosesRunning(s.phase.outcome, s.phase.cancelSeen);
  }

  /**
    A flag set before the worker's last read decides the run: whatever API calls, crashes and restarts
    follow, the run stays RUNNING until it is CANCELLED. And only such a flag does: a flagged run has
    no other status ahead if and only if it is sealed.
   */
  lemma FlagSeenCancels(durable: bool, s: System, id: RunId)
    requires Inv(s) && s.db.CancelFlag(id)
    ensures (forall labels: seq<Label> :: RunsOrCancelled(RunFrom(durable, s, labels), id)) <==> Sealed(s, id)
  {
    hide Step, Consistent, StartsAccounted, NoLostWakeup;
    if Sealed(s, id) {
      forall labels: seq<Label> ensures RunsOrCancelled(RunFrom(durable, s, labels), id) {
        StaysSealed(durable, s, labels, id);
      }
    } else {
      assert RunFrom(durable, s, []) == s;
      if RunsOrCancelled(s, id) {
        UnsealedEscapes(durable, s, id);
        RunOne(durable, s, CloseRun);
        assert !RunsOrCancelled(RunFrom(durable, s, [CloseRun]), id);
      } else {
        assert !RunsOrCancelled(RunFrom(durable, s, []), id);
      }
    }
  }

  /** In every continuation, the transaction with which the worker closes a sealed run cancels it. */
  lemma SealedRunIsClosedCancelled(durable: bool, s: System, labels: seq<Label>, id: RunId)
    requires Inv(s) && Sealed(s, id)
    ensures var t := RunFrom(durable, s, labels);
            t.phase.Closing? && t.phase.id == id ==>
              id in Step(durable, t, CloseRun).db.rows && Step(durable, t, CloseRun).db.rows[id].status == Cancelled
  {
    hide Step, Consistent, StartsAccounted, NoLostWakeup, ClosingWriteOf;
    var t := RunFrom(durable, s, labels);
    StaysSealed(durable, s, labels, id);
    StepMovesRow(durable, t, CloseRun, id);
    if t.phase.Closing? {
      ClosingStatus(t.db.rows[id], t.phase.outcome, t.phase.cancelSeen);
    }
  }

  /** The worker has the run, or the run is cancelled. */
  predicate InCustody(s: System, id: RunId) {
    s.phase.Owns(id) || (id in s.db.rows && s.db.rows[id].status == Cancelled)
  }

  /** Nothing takes the run from the worker. */
  ghost predicate Undisturbed(labels: seq<Label>) {
    forall l :: l in labels ==> !l.Crash? && l != WriteArtifact(false)
  }

  lemma StepKeepsCustody(durable: bool, s: System, l: Label, id: RunId)
    requires s.db.WellFormed() && OwnedRunIsRunning(s) && Sealed(s, id) && InCustody(s, id)
    requires !l.Crash? && l != WriteArtifact(false)
    ensures InCustody(Step(durable, s, l), id)
  {
    hide NoDuplicates, ClosingWriteOf, ClosingReply, ClaimRun, RecoverInterrupted, RequestCancel, Approve, CreateRun,
         ListQueued;
    StepMovesRow(durable, s, l, id);
    if s.phase.Closing? {
      ClosingStatus(s.db.rows[id], s.phase.outcome, s.phase.cancelSeen);
    }
  }

  lemma {:induction false} KeepsCustody(durable: bool, s: System, labels: seq<Label>, id: RunId)
    requires Inv(s) && Sealed(s, id) && InCustody(s, id) && Undisturbed(labels)
    ensures InCustody(RunFrom(durable, s, labels), id)
  {
    hide Step, Sealed, InCustody, Consistent, NoLostWakeup, StartsAccounted;
    if labels != [] {
      var front := labels[..|labels| - 1];
      KeepsCustody(durable, s, front, id);
      StaysSealed(durable, s, front, id);
      StepKeepsCustody(durable, RunFrom(durable, s, front), labels[|labels| - 1], id);
    }
  }

  /**
    The run does end CANCELLED: once the worker lets go of a sealed run it had, with the process alive
    and the request artifact written, the run is cancelled, whatever the API did meanwhile.
   */
  lemma SealedRunEndsCancelled(durable: bool, s: System, labels: seq<Label>, id: RunId)
    requires Inv(s) && Sealed(s, id) && s.phase.Owns(id) && Undisturbed(labels)
    requires !RunFrom(durable, s, labels).phase.Owns(id)
    ensures var t := RunFrom(durable, s, labels); id in t.db.rows && t.db.rows[id].status == Cancelled
  {
    hide Step, Sealed, Consistent, NoLostWakeup, StartsAccounted;
    KeepsCustody(durable, s, labels, id);
  }

  /* ---- Approvals ---- */

  /** The executor never asks for an approval that the claimed record already holds. */
  predicate RespectsRecord(record: Row, outcome: Outcome) {
    outcome.Outcome? && outcome.approval.Some? ==> outcome.approval.value.fingerprint !in record.approved
  }

  ghost predicate HonestRun(durable: bool, s: System, labels: seq<Label>)
    requires Inv(s)
  {
    labels == [] ||
    (var front, l := labels[..|labels| - 1], labels[|labels| - 1];
     && HonestRun(durable, s, front)
     && (var t := RunFrom(durable, s, front);
         l.ExecutorReturns? && t.phase.Executing? ==> RespectsRecord(t.phase.record, l.outcome)))
  }

  ghost predicate FreshRequests(s: System)
    requires s.db.WellFormed()
  {
    && (forall id :: id in s.db.rows ==> NoDuplicates(RequestedFingerprints(s.db.events[id])))
    && (s.phase.Decided? || s.phase.Closing? ==> RespectsRecord(s.phase.record, s.phase.outcome))
  }

  lemma RequestsAppend(log: seq<Event>, e: Event)
    ensures RequestedFingerprints(log + [e]) ==
            RequestedFingerprints(log) +
            if e.kind == ApprovalRequiredEvent && e.payload.ApprovalPayload?
            then [e.payload.approval.fingerprint] else []
  {
    assert Front(log + [e]) == log;
  }

  /** The requests already made for a RUNNING run are exactly its approved fingerprints. */
  lemma RunningHasNoPending(row: Row, log: seq<Event>)
    requires RunConsistent(row, log) && row.status == Running
    requires NoDuplicates(RequestedFingerprints(log))
    ensures RequestedFingerprints(log) == row.approved
  {
    PendingApproval(log);
    ApprovalsGrow(log);
    assert PendingFingerprint(Replay(log)) == [];
  }

  lemma WriteKeepsFresh(db: Db, id: RunId, row: Row, kind: EventKind, payload: Payload)
    requires db.WellFormed() && id in db.rows
    requires forall x :: x in db.rows ==> NoDuplicates(RequestedFingerprints(db.events[x]))
    requires kind == ApprovalRequiredEvent && payload.ApprovalPayload? ==>
               payload.approval.fingerprint !in RequestedFingerprints(db.events[id])
    ensures var db' := Write(db, id, row, kind, payload);
            forall x :: x in db'.rows ==> NoDuplicates(RequestedFingerprints(db'.events[x]))
  {
    RequestsAppend(db.events[id], NextEvent(db.events[id], kind, row.status, payload));
  }

  lemma ApiKeepsFresh(durable: bool, s: System, l: Label)
    requires s.db.WellFormed() && FreshRequests(s) && Enabled(s, l)
    requires l.ApiCreate? || l.ApiCancel? || l.ApiApprove?
    ensures Step(durable, s, l).db.WellFormed() ==> FreshRequests(Step(durable, s, l))
  {
    match l
    case ApiCreate(x) =>
      RequestsAppend([], NextEvent([], QueuedEvent, Queued, NoPayload));
      assert [] + [NextEvent([], QueuedEvent, Queued, NoPayload)] == Step(durable, s, l).db.events[x];
    case ApiCancel(x) =>
      CancelWrites(s.db, x);
      if x in s.db.rows && !IsTerminal(s.db.rows[x].status) {
        WriteKeepsFresh(s.db, x, CancelledRow(s.db.rows[x]),
                        if s.db.rows[x].status == Running then CancelRequestedEvent else CancelledEvent, NoPayload);
      }
    case ApiApprove(x) =>
      ApproveWrites(s.db, x);
      if x in s.db.rows && s.db.rows[x].status == ApprovalRequired && s.db.rows[x].approval.Some? {
        var request := s.db.rows[x].approval.value;
        WriteKeepsFresh(s.db, x, ApprovedRow(s.db.rows[x], request), ApprovedEvent, RequestPayload(request.requestId));
      }
  }

  lemma ClaimKeepsFresh(durable: bool, s: System)
    requires s.db.WellFormed() && FreshRequests(s) && s.phase.Holding?
    ensures Step(durable, s, Claim).db.WellFormed() ==> FreshRequests(Step(durable, s, Claim))
  {
    hide ClosingReply, ClaimRun, RecoverInterrupted, RequestCancel, Approve, CreateRun, ListQueued;
    hide NoDuplicates, RequestedFingerprints, ClaimedRow, Write;
    var id := s.phase.id;
    ClaimWrites(s.db, id);
    if s.db.IsQueued(id) {
      WriteKeepsFresh(s.db, id, ClaimedRow(s.db.rows[id]), ClaimKind(s.db.rows[id]), NoPayload);
    }
  }

  lemma RestartedRequests(db: Db, id: RunId)
    requires id in db.rows && id in db.events
    ensures RequestedFingerprints(RestartedLog(db, id)) == RequestedFingerprints(db.events[id])
  {
    if db.rows[id].status == Running {
      RequestsAppend(db.events[id], Last(RestartedLog(db, id)));
    }
  }

  lemma RecoverKeepsFresh(durable: bool, s: System)
    requires s.db.WellFormed() && FreshRequests(s) && s.phase.Down?
    ensures Step(durable, s, Recover).db.WellFormed() ==> FreshRequests(Step(durable, s, Recover))
  {
    if durable {
      RestartWrites(s.db);
      var s' := Step(durable, s, Recover);
      forall x | x in s'.db.rows && x in s'.db.events ensures NoDuplicates(RequestedFingerprints(s'.db.events[x])) {
        RestartedRequests(s.db, x);
      }
    }
  }

  /** A closing transaction requests the outcome's approval, or none. */
  lemma ClosingRequests(row: Row, outcome: Outcome, cancelSeen: bool)
    ensures var w := ClosingWriteOf(row, outcome, cancelSeen);
            w.kind == ApprovalRequiredEvent && w.payload.ApprovalPayload? ==>
              outcome.Outcome? && outcome.approval == Some(w.payload.approval)
  {
  }

  lemma CloseKeepsFresh(durable: bool, s: System)
    requires s.db.WellFormed() && OwnedRunIsRunning(s) && FreshRequests(s) && s.phase.Closing?
    requires RequestedFingerprints(s.db.events[s.phase.id]) == s.db.rows[s.phase.id].approved
    ensures Step(durable, s, CloseRun).db.WellFormed() ==> FreshRequests(Step(durable, s, CloseRun))
  {
    hide ClosingReply, ClosingWriteOf, RequestedFingerprints, NoDuplicates;
    hide ClaimRun, RecoverInterrupted, RequestCancel, Approve, CreateRun, ListQueued;
    var id := s.phase.id;
    var w := ClosingWriteOf(s.db.rows[id], s.phase.outcome, s.phase.cancelSeen);
    ClosingRequests(s.db.rows[id], s.phase.outcome, s.phase.cancelSeen);
    ClosingWrites(s.db, id, s.phase.outcome, s.phase.cancelSeen);
    WriteKeepsFresh(s.db, id, w.row, w.kind, w.payload);
  }

  lemma StepKeepsFresh(durable: bool, s: System, l: Label)
    requires Inv(s) && FreshRequests(s)
    requires l.ExecutorReturns? && s.phase.Executing? ==> RespectsRecord(s.phase.record, l.outcome)
    ensures Step(durable, s, l).db.WellFormed() && FreshRequests(Step(durable, s, l))
  {
    StepKeepsInv(durable, s, l);
    if Enabled(s, l) {
      match l
      case Claim => ClaimKeepsFresh(durable, s);
      case CloseRun =>
        assert RunConsistent(s.db.rows[s.phase.id], s.db.events[s.phase.id]);
        RunningHasNoPending(s.db.rows[s.phase.id], s.db.events[s.phase.id]);
        CloseKeepsFresh(durable, s);
      case Recover => RecoverKeepsFresh(durable, s);
      case ApiCreate(_) => ApiKeepsFresh(durable, s, l);
      case ApiCancel(_) => ApiKeepsFresh(durable, s, l);
      case ApiApprove(_) => ApiKeepsFresh(durable, s, l);
      case _ =>
    }
  }

  lemma {:induction false} StaysFresh(durable: bool, s: System, labels: seq<Label>)
    requires Inv(s) && FreshRequests(s) && HonestRun(durable, s, labels)
    ensures FreshRequests(RunFrom(durable, s, labels))
  {
    if labels != [] {
      StaysFresh(durable, s, labels[..|labels| - 1]);
      StepKeepsFresh(durable, RunFrom(durable, s, labels[..|labels| - 1]), labels[|labels| - 1]);
    }
  }

  /**
    Approval makes progress: no fingerprint is ever requested twice, the approved list is duplicate
    free and as long as the number of approvals, and a run pauses at most once per risky fingerprint.
   */
  lemma ApprovalMakesProgress(durable: bool, labels: seq<Label>, id: RunId, risky: set<Fingerprint>)
    requires Inv(INITIAL) && HonestRun(durable, INITIAL, labels)
    requires id in Reached(durable, labels).db.rows && id in Reached(durable, labels).db.events
    requires forall f :: f in RequestedFingerprints(Reached(durable, labels).db.events[id]) ==> f in risky
    ensures var db := Reached(durable, labels).db;
            && NoDuplicates(RequestedFingerprints(db.events[id]))
            && NoDuplicates(db.rows[id].approved)
            && |db.rows[id].approved| == Approvals(db.events[id])
            && |RequestedFingerprints(db.events[id])| <= |risky|
  {
    StaysFresh(durable, INITIAL, labels);
    var db := Reached(durable, labels).db;
    var log := db.events[id];
    assert RunConsistent(db.rows[id], log);
    ApprovalsGrow(log);
    NoDuplicatesPrefix(db.rows[id].approved, RequestedFingerprints(log));
    NoDuplicatesFits(RequestedFingerprints(log), risky);
  }

  /* ---- The worker alone drains the queue ---- */

  predicate IsWorkerStep(l: Label) {
    l.Dequeue? || l.Claim? || l.WriteArtifact? || l.ExecutorReturns? || l.ReadCancelFlag? || l.CloseRun?
    || l.ListQueuedRuns? || l.NotifyNext? || l.FinishStart?
  }

  function PhaseWork(p: Phase, runs: nat): nat {
    match p
    case Down => 0
    case Recovered(ids) => 8 * (|ids| + runs) + 2
    case Notifying(pending) => 8 * |pending| + 1
    case Idle => 0
    case Holding(_) => 6
    case Claimed(_, _) => 4
    case Executing(_, _) => 3
    case Decided(_, _, _) => 2
    case Closing(_, _, _, _) => 1
  }

  /** An upper bound on the worker steps ahead. */
  function Work(s: System): nat {
    7 * |s.queue| + PhaseWork(s.phase, |s.db.order|)
  }

  lemma WithStatusFits(db: Db, ids: seq<RunId>, status: Status)
    requires forall id :: id in ids ==> id in db.rows
    ensures |WithStatus(db, ids, status)| <= |ids|
  {
  }

  lemma DequeueDrains(durable: bool, s: System, id: RunId)
    requires s.db.WellFormed() && Enabled(s, Dequeue(id))
    ensures Work(Step(durable, s, Dequeue(id))) < Work(s)
  {
    assert s.queue == (s.queue - multiset{id}) + multiset{id};
  }

  lemma ListingDrains(durable: bool, s: System)
    requires s.db.WellFormed() && Enabled(s, ListQueuedRuns)
    ensures Work(Step(durable, s, ListQueuedRuns)) < Work(s)
  {
    WithStatusFits(s.db, s.db.order, Queued);
  }

  lemma NotifyingDrains(durable: bool, s: System)
    requires s.db.WellFormed() && Enabled(s, NotifyNext)
    ensures Work(Step(durable, s, NotifyNext)) < Work(s)
  {
    var after := s.queue + multiset{s.phase.pending[0]};
    assert |after| == |s.queue| + 1;
  }

  /** Every worker step uses up work: without the API and without crashes the worker runs dry. */
  lemma WorkerDrains(durable: bool, s: System, l: Label)
    requires s.db.WellFormed() && IsWorkerStep(l) && Enabled(s, l)
    ensures Work(Step(durable, s, l)) < Work(s)
  {
    hide ClosingReply, ClaimRun, RecoverInterrupted, RequestCancel, Approve, CreateRun, ListQueued;
    match l
    case Dequeue(id) => DequeueDrains(durable, s, id);
    case ListQueuedRuns => ListingDrains(durable, s);
    case NotifyNext => NotifyingDrains(durable, s);
    case _ =>
  }

  /** The labels are steps of the worker, each enabled where it stands. */
  ghost predicate WorkerRun(durable: bool, s: System, labels: seq<Label>)
    requires Inv(s)
  {
    labels == [] ||
    (var front, l := labels[..|labels| - 1], labels[|labels| - 1];
     WorkerRun(durable, s, front) && IsWorkerStep(l) && Enabled(RunFrom(durable, s, front), l))
  }

  /** Alone, the worker takes at most Work(s) steps. */
  lemma {:induction false} WorkerRunIsBounded(durable: bool, s: System, labels: seq<Label>)
    requires Inv(s) && WorkerRun(durable, s, labels)
    ensures |labels| + Work(RunFrom(durable, s, labels)) <= Work(s)
  {
    hide Step, Work, Consistent, NoLostWakeup, StartsAccounted;
    if labels != [] {
      var front, l := labels[..|labels| - 1], labels[|labels| - 1];
      WorkerRunIsBounded(durable, s, front);
      WorkerDrains(durable, RunFrom(durable, s, front), l);
    }
  }

  ghost predicate WorkerStuck(s: System) {
    forall l :: IsWorkerStep(l) ==> !Enabled(s, l)
  }

  lemma StuckMeansIdle(s: System)
    requires WorkerStuck(s) && !s.phase.Down?
    ensures s.phase.Idle? && s.queue == multiset{}
  {
    assert !Enabled(s, Claim) && !Enabled(s, WriteArtifact(true)) && !Enabled(s, ReadCancelFlag)
        && !Enabled(s, CloseRun);
    assert !Enabled(s, ListQueuedRuns) && !Enabled(s, NotifyNext) && !Enabled(s, FinishStart);
    assert !Enabled(s, ExecutorReturns(ExecutorRaised("")));
    forall id ensures id !in s.queue {
      assert !Enabled(s, Dequeue(id));
    }
  }

  /** Where a started worker has run dry and no handler owes a notification, every queued run has been served. */
  lemma DrainedMeansServed(durable: bool, labels: seq<Label>)
    requires WorkerStuck(Reached(durable, labels))
    requires !Reached(durable, labels).phase.Down? && Reached(durable, labels).handlers == multiset{}
    ensures forall id :: !Reached(durable, labels).db.IsQueued(id)
  {
    StuckMeansIdle(Reached(durable, labels));
    NoRunIsForgotten(durable, labels);
  }
}
