/**
  The durable run protocol: API handlers, wake-up queue, one worker, crashes and restarts.

  A state holds the database, the notifications in the queue, the handlers that have committed but
  not yet notified, and the program point of the worker. Each label is one atomic step; a sequence
  of labels is an interleaving, and a label that is not enabled where it stands does nothing.
 */
module Protocol {
  import opened Common
  import opened Runs
  import opened RunStore
  import opened EventLog

  /** Program points of webpilot/service/worker.py: the first three belong to `start`. */
  datatype Phase =
    | Down
    | Recovered(ids: seq<RunId>)
    | Notifying(pending: seq<RunId>)
    | Idle
    | Holding(id: RunId)
    | Claimed(id: RunId, record: Row)
    | Executing(id: RunId, record: Row)
    | Decided(id: RunId, record: Row, outcome: Outcome)
    | Closing(id: RunId, record: Row, outcome: Outcome, cancelSeen: bool)
  {
    /** Between a successful claim and the closing transaction. */
    predicate Owns(r: RunId) {
      (Claimed? || Executing? || Decided? || Closing?) && id == r
    }
  }

  /** `calls` lists executor calls; `dropped` lists claims whose executor was never called. */
  datatype System = System(
    db: Db,
    queue: multiset<RunId>,
    handlers: multiset<RunId>,
    phase: Phase,
    calls: seq<RunId>,
    dropped: seq<RunId>)

  const INITIAL := System(EMPTY, multiset{}, multiset{}, Down, [], [])

  datatype Label =
    | ApiCreate(id: RunId)
    | ApiCancel(id: RunId)
    | ApiApprove(id: RunId)
    | ApiNotify(id: RunId)
    | StrayNotification(id: RunId)
    | Dequeue(id: RunId)
    | Claim
    | WriteArtifact(ok: bool)
    | ExecutorReturns(outcome: Outcome)
    | ReadCancelFlag
    | CloseRun
    | Crash(queue: multiset<RunId>, handlers: multiset<RunId>)
    | Recover
    | ListQueuedRuns
    | NotifyNext
    | FinishStart

  predicate Enabled(s: System, l: Label) {
    match l
    case ApiCreate(id) => id !in s.db.rows
    case ApiNotify(id) => id in s.handlers
    case Dequeue(id) => s.phase.Idle? && id in s.queue
    case Claim => s.phase.Holding?
    case WriteArtifact(_) => s.phase.Claimed?
    case ExecutorReturns(_) => s.phase.Executing?
    case ReadCancelFlag => s.phase.Decided?
    case CloseRun => s.phase.Closing?
    case Crash(queue, handlers) => queue <= s.queue && handlers <= s.handlers
    case Recover => s.phase.Down?
    case ListQueuedRuns => s.phase.Recovered?
    case NotifyNext => s.phase.Notifying? && s.phase.pending != []
    case FinishStart => s.phase.Notifying? && s.phase.pending == []
    case _ => true
  }

  const NO_APPROVAL_PAYLOAD := "Executor returned approval_required without approval payload."

  function OutcomeText(outcome: Outcome): string {
    match outcome
    case ExecutorRaised(error) => error
    case Outcome(_, result, _) => result
  }

  /** The closing transaction the worker chooses once the outcome and the cancel flag are known. */
  function ClosingReply(db: Db, id: RunId, outcome: Outcome, cancelSeen: bool): Reply<()>
    requires db.WellFormed()
  {
    match outcome
    case ExecutorRaised(error) => Finish(db, id, if cancelSeen then Cancelled else Failed, error)
    case Outcome(status, result, approval) =>
      if cancelSeen || status == Cancelled then Finish(db, id, Cancelled, result)
      else if status == ApprovalRequired then
        if approval.None? then Finish(db, id, Failed, NO_APPROVAL_PAYLOAD)
        else RequireApproval(db, id, approval.value, result)
      else if status == Completed then Finish(db, id, Completed, result)
      else Finish(db, id, Failed, result)
  }

  /** `durable` tells the PostgreSQL store, which recovers interrupted runs, from the SQLite store. */
  function Step(durable: bool, s: System, l: Label): System
    requires s.db.WellFormed()
  {
    if !Enabled(s, l) then s else
    match l
    case ApiCreate(id) => s.(db := CreateRun(s.db, id), handlers := s.handlers + multiset{id})
    case ApiCancel(id) => s.(db := RequestCancel(s.db, id).db)
    case ApiApprove(id) =>
      var r := Approve(s.db, id);
      if r.result.Success? then s.(db := r.db, handlers := s.handlers + multiset{id}) else s
    case ApiNotify(id) => s.(handlers := s.handlers - multiset{id}, queue := s.queue + multiset{id})
    case StrayNotification(id) => s.(queue := s.queue + multiset{id})
    case Dequeue(id) => s.(queue := s.queue - multiset{id}, phase := Holding(id))
    case Claim =>
      var r := ClaimRun(s.db, s.phase.id);
      s.(db := r.db,
         phase := if r.result.Success? && r.result.value.Some? && r.result.value.value.status == Running
                  then Claimed(s.phase.id, r.result.value.value) else Idle)
    case WriteArtifact(ok) =>
      if ok then s.(phase := Executing(s.phase.id, s.phase.record), calls := s.calls + [s.phase.id])
      else s.(phase := Idle, dropped := s.dropped + [s.phase.id])
    case ExecutorReturns(outcome) => s.(phase := Decided(s.phase.id, s.phase.record, outcome))
    case ReadCancelFlag =>
      s.(phase := Closing(s.phase.id, s.phase.record, s.phase.outcome, s.db.CancelFlag(s.phase.id)))
    case CloseRun => s.(db := ClosingReply(s.db, s.phase.id, s.phase.outcome, s.phase.cancelSeen).db, phase := Idle)
    case Crash(queue, handlers) =>
      s.(queue := queue, handlers := handlers, phase := Down,
         dropped := if s.phase.Claimed? then s.dropped + [s.phase.id] else s.dropped)
    case Recover =>
      if durable then
        var r := RecoverInterrupted(s.db);
        s.(db := r.db, phase := Recovered(r.result.value))
      else s.(phase := Recovered([]))
    case ListQueuedRuns => s.(phase := Notifying(s.phase.ids + ListQueued(s.db)))
    case NotifyNext =>
      s.(queue := s.queue + multiset{s.phase.pending[0]}, phase := Notifying(s.phase.pending[1..]))
    case FinishStart => s.(phase := Idle)
  }

  /* ---- The steps one by one ---- */

  lemma ApiSteps(durable: bool, s: System, id: RunId)
    requires s.db.WellFormed()
    ensures id !in s.db.rows ==>
              Step(durable, s, ApiCreate(id)) == s.(db := CreateRun(s.db, id), handlers := s.handlers + multiset{id})
    ensures Step(durable, s, ApiCancel(id)) == s.(db := RequestCancel(s.db, id).db)
    ensures var r := Approve(s.db, id);
            Step(durable, s, ApiApprove(id)) ==
            if r.result.Success? then s.(db := r.db, handlers := s.handlers + multiset{id}) else s
  {
    hide ClosingReply, ClaimRun, RecoverInterrupted, RequestCancel, Approve, CreateRun, ListQueued, NoDuplicates;
  }

  lemma QueueSteps(durable: bool, s: System, id: RunId)
    requires s.db.WellFormed()
    ensures id in s.handlers ==>
              Step(durable, s, ApiNotify(id)) ==
              s.(handlers := s.handlers - multiset{id}, queue := s.queue + multiset{id})
    ensures Step(durable, s, StrayNotification(id)) == s.(queue := s.queue + multiset{id})
    ensures s.phase.Idle? && id in s.queue ==>
              Step(durable, s, Dequeue(id)) == s.(queue := s.queue - multiset{id}, phase := Holding(id))
  {
    hide ClosingReply, ClaimRun, RecoverInterrupted, RequestCancel, Approve, CreateRun, ListQueued, NoDuplicates;
  }

  lemma StartSteps(durable: bool, s: System)
    requires s.db.WellFormed()
    ensures s.phase.Recovered? ==>
              Step(durable, s, ListQueuedRuns) == s.(phase := Notifying(s.phase.ids + ListQueued(s.db)))
    ensures s.phase.Notifying? && s.phase.pending != [] ==>
              Step(durable, s, NotifyNext) ==
              s.(queue := s.queue + multiset{s.phase.pending[0]}, phase := Notifying(s.phase.pending[1..]))
    ensures s.phase == Notifying([]) ==> Step(durable, s, FinishStart) == s.(phase := Idle)
  {
    hide ClosingReply, ClaimRun, RecoverInterrupted, RequestCancel, Approve, CreateRun, ListQueued, NoDuplicates;
  }

  lemma RecoverStep(durable: bool, s: System)
    requires s.db.WellFormed() && s.phase.Down?
    ensures Step(durable, s, Recover) ==
            if durable then
              var r := RecoverInterrupted(s.db); s.(db := r.db, phase := Recovered(r.result.value))
            else s.(phase := Recovered([]))
  {
    hide ClosingReply, ClaimRun, RequestCancel, Approve, CreateRun, ListQueued, NoDuplicates, RecoverRows, Interrupted;
  }

  lemma ClaimStep(durable: bool, s: System)
    requires s.db.WellFormed() && s.phase.Holding?
    ensures var r := ClaimRun(s.db, s.phase.id);
            Step(durable, s, Claim) ==
            s.(db := r.db,
               phase := if r.result.Success? && r.result.value.Some? && r.result.value.value.status == Running
                        then Claimed(s.phase.id, r.result.value.value) else Idle)
  {
    hide ClosingReply, ClaimRun, RecoverInterrupted, RequestCancel, Approve, CreateRun, ListQueued, NoDuplicates;
  }

  /** From the claim to the last read of the flag the worker leaves the database alone. */
  lemma ExecutionSteps(durable: bool, s: System, outcome: Outcome)
    requires s.db.WellFormed()
    ensures s.phase.Claimed? ==>
              && Step(durable, s, WriteArtifact(true)) ==
                 s.(phase := Executing(s.phase.id, s.phase.record), calls := s.calls + [s.phase.id])
              && Step(durable, s, WriteArtifact(false)) == s.(phase := Idle, dropped := s.dropped + [s.phase.id])
    ensures s.phase.Executing? ==>
              Step(durable, s, ExecutorReturns(outcome)) == s.(phase := Decided(s.phase.id, s.phase.record, outcome))
    ensures s.phase.Decided? ==>
              Step(durable, s, ReadCancelFlag) ==
              s.(phase := Closing(s.phase.id, s.phase.record, s.phase.outcome, s.db.CancelFlag(s.phase.id)))
  {
    hide ClosingReply, ClaimRun, RecoverInterrupted, RequestCancel, Approve, CreateRun, ListQueued, NoDuplicates;
  }

  lemma CloseStep(durable: bool, s: System)
    requires s.db.WellFormed() && s.phase.Closing?
    ensures Step(durable, s, CloseRun) ==
            s.(db := ClosingReply(s.db, s.phase.id, s.phase.outcome, s.phase.cancelSeen).db, phase := Idle)
  {
    hide ClosingReply, ClaimRun, RecoverInterrupted, RequestCancel, Approve, CreateRun, ListQueued, NoDuplicates;
  }

  lemma CrashStep(durable: bool, s: System, queue: multiset<RunId>, handlers: multiset<RunId>)
    requires s.db.WellFormed() && queue <= s.queue && handlers <= s.handlers
    ensures var t := Step(durable, s, Crash(queue, handlers));
            t.db == s.db && t.queue == queue && t.handlers == handlers && t.phase == Down
  {
    hide ClosingReply, ClaimRun, RecoverInterrupted, RequestCancel, Approve, CreateRun, ListQueued, NoDuplicates;
  }

  /* ---- The invariant ---- */

  /** Someone still knows that the run `id` waits to be picked up. */
  predicate WakeupPending(s: System, id: RunId) {
    || id in s.queue
    || id in s.handlers
    || s.phase == Holding(id)
    || s.phase.Down?
    || s.phase.Recovered?
    || (s.phase.Notifying? && id in s.phase.pending)
  }

  ghost predicate NoLostWakeup(s: System) {
    forall id :: s.db.IsQueued(id) ==> WakeupPending(s, id)
  }

  /** What the worker believes about the run it owns is so. */
  predicate OwnedRunIsRunning(s: System) {
    (s.phase.Claimed? || s.phase.Executing? || s.phase.Decided? || s.phase.Closing?) ==>
      && s.phase.id in s.db.rows
      && s.db.rows[s.phase.id].status == Running
      && s.db.rows[s.phase.id].approved == s.phase.record.approved
      && (s.phase.Closing? && s.phase.cancelSeen ==> s.db.rows[s.phase.id].cancelRequested)
  }

  function Count(ids: seq<RunId>, id: RunId): nat {
    multiset(ids)[id]
  }

  /** Whether the run `id` has been claimed and its executor not yet called. */
  function InHand(p: Phase, id: RunId): nat {
    if p.Claimed? && p.id == id then 1 else 0
  }

  /** Executor calls, dropped claims and the claim in hand. */
  function Accounted(s: System, id: RunId): nat {
    Count(s.calls, id) + Count(s.dropped, id) + InHand(s.phase, id)
  }

  /** Each of them is a `started` event and the other way round. */
  ghost predicate StartsAccounted(s: System)
    requires s.db.WellFormed()
  {
    && (forall id :: id in s.db.rows ==> Starts(s.db.events[id]) == Accounted(s, id))
    && (forall id :: id !in s.db.rows ==> Accounted(s, id) == 0)
  }

  /** The coordination between database, queue and worker. */
  ghost predicate Coordinated(s: System) {
    s.db.WellFormed() && NoLostWakeup(s) && OwnedRunIsRunning(s) && StartsAccounted(s)
  }

  ghost predicate Inv(s: System) {
    Consistent(s.db) && Coordinated(s)
  }

  /* ---- Coordination is kept by every step ---- */

  lemma StartsAppend(log: seq<Event>, e: Event)
    ensures Starts(log + [e]) == Starts(log) + if e.kind == StartedEvent then 1 else 0
  {
    assert Front(log + [e]) == log;
  }

  lemma StartsNext(log: seq<Event>, kind: EventKind, status: Status, payload: Payload)
    ensures Starts(log + [NextEvent(log, kind, status, payload)]) == Starts(log) + if kind == StartedEvent then 1 else 0
  {
    StartsAppend(log, NextEvent(log, kind, status, payload));
  }

  lemma WriteAccounted(s: System, s': System, id: RunId, kind: EventKind)
    requires s'.calls == s.calls && s'.dropped == s.dropped
    requires InHand(s'.phase, id) == InHand(s.phase, id) + if kind == StartedEvent then 1 else 0
    requires forall x :: x != id ==> InHand(s'.phase, x) == InHand(s.phase, x)
    ensures Accounted(s', id) == Accounted(s, id) + if kind == StartedEvent then 1 else 0
    ensures forall x :: x != id ==> Accounted(s', x) == Accounted(s, x)
  {
  }

  /** The part of the invariant that a single written event can disturb, checked on that event alone. */
  lemma WriteCoordinated(s: System, s': System, id: RunId, row: Row, kind: EventKind, payload: Payload)
    requires Coordinated(s) && id in s.db.rows
    requires s'.db == Write(s.db, id, row, kind, payload)
    requires row.status == Queued ==> WakeupPending(s', id)
    requires forall x :: x != id && WakeupPending(s, x) ==> WakeupPending(s', x)
    requires OwnedRunIsRunning(s')
    requires s'.calls == s.calls && s'.dropped == s.dropped
    requires InHand(s'.phase, id) == InHand(s.phase, id) + if kind == StartedEvent then 1 else 0
    requires forall x :: x != id ==> InHand(s'.phase, x) == InHand(s.phase, x)
    ensures Coordinated(s')
  {
    hide NextEvent, NoDuplicates, Starts, Accounted;
    StartsNext(s.db.events[id], kind, row.status, payload);
    WriteAccounted(s, s', id, kind);
    forall x | s'.db.IsQueued(x) ensures WakeupPending(s', x) {
      if x != id {
        assert s.db.IsQueued(x);
      }
    }
    assert s'.db.rows.Keys == s.db.rows.Keys && s'.db.order == s.db.order;
  }

  /** A step that leaves the database alone. */
  lemma MoveCoordinated(s: System, s': System)
    requires Coordinated(s) && s'.db == s.db
    requires forall x :: s.db.IsQueued(x) && WakeupPending(s, x) ==> WakeupPending(s', x)
    requires OwnedRunIsRunning(s')
    requires forall x :: Accounted(s', x) == Accounted(s, x)
    ensures Coordinated(s')
  {
    forall x | x !in s.db.rows ensures Count(s'.calls, x) == 0 && Count(s'.dropped, x) == 0 {
      assert Accounted(s, x) == 0;
      assert Accounted(s', x) == 0;
    }
  }

  lemma NothingStarted()
    ensures Starts([]) == 0
  {
  }

  lemma SamePhase(s: System, s': System)
    requires s'.phase == s.phase && s'.calls == s.calls && s'.dropped == s.dropped
    ensures forall x :: Accounted(s', x) == Accounted(s, x)
  {
  }

  lemma ApiCreateCoordinated(durable: bool, s: System, id: RunId)
    requires Coordinated(s) && id !in s.db.rows
    ensures Coordinated(Step(durable, s, ApiCreate(id)))
  {
    hide ClosingReply, ClaimRun, RecoverInterrupted, RequestCancel, Approve, CreateRun, ListQueued;
    hide NextEvent, NoDuplicates, Starts, Accounted;
    var s' := Step(durable, s, ApiCreate(id));
    CreateWellFormed(s.db, id);
    StartsNext([], QueuedEvent, Queued, NoPayload);
    NothingStarted();
    SamePhase(s, s');
    forall x | s'.db.IsQueued(x) ensures WakeupPending(s', x) {
      if x != id {
        assert s.db.IsQueued(x);
      }
    }
  }

  lemma ApiCancelCoordinated(durable: bool, s: System, id: RunId)
    requires Coordinated(s)
    ensures Coordinated(Step(durable, s, ApiCancel(id)))
  {
    CancelWrites(s.db, id);
    if id in s.db.rows && !IsTerminal(s.db.rows[id].status) {
      var kind := if s.db.rows[id].status == Running then CancelRequestedEvent else CancelledEvent;
      WriteCoordinated(s, Step(durable, s, ApiCancel(id)), id, CancelledRow(s.db.rows[id]), kind, NoPayload);
    }
  }

  lemma ApiApproveCoordinated(durable: bool, s: System, id: RunId)
    requires Coordinated(s)
    ensures Coordinated(Step(durable, s, ApiApprove(id)))
  {
    ApproveWrites(s.db, id);
    if id in s.db.rows && s.db.rows[id].status == ApprovalRequired && s.db.rows[id].approval.Some? {
      var request := s.db.rows[id].approval.value;
      WriteCoordinated(s, Step(durable, s, ApiApprove(id)), id, ApprovedRow(s.db.rows[id], request), ApprovedEvent,
                       RequestPayload(request.requestId));
    }
  }

  lemma WriteRows(db: Db, id: RunId, row: Row, kind: EventKind, payload: Payload)
    requires id in db.rows && id in db.events
    ensures Write(db, id, row, kind, payload).rows == db.rows[id := row]
  {
  }

  lemma ClaimCoordinated(durable: bool, s: System)
    requires Coordinated(s) && s.phase.Holding?
    ensures Coordinated(Step(durable, s, Claim))
  {
    hide Step, ClaimRun, StartsAccounted, NoLostWakeup, NoDuplicates, Starts, Write;
    var id := s.phase.id;
    ClaimStep(durable, s);
    ClaimWrites(s.db, id);
    if s.db.IsQueued(id) {
      WriteRows(s.db, id, ClaimedRow(s.db.rows[id]), ClaimKind(s.db.rows[id]), NoPayload);
      WriteCoordinated(s, Step(durable, s, Claim), id, ClaimedRow(s.db.rows[id]), ClaimKind(s.db.rows[id]), NoPayload);
    } else {
      MoveCoordinated(s, Step(durable, s, Claim));
    }
  }

  /** What the closing transaction writes. */
  datatype ClosingWrite = ClosingWrite(row: Row, kind: EventKind, payload: Payload)

  function ClosingWriteOf(row: Row, outcome: Outcome, cancelSeen: bool): ClosingWrite {
    match outcome
    case ExecutorRaised(error) =>
      if cancelSeen then ClosingWrite(row.(status := Cancelled, result := Some(error)), CancelledEvent, NoPayload)
      else ClosingWrite(row.(status := Failed, result := Some(error)), FailedEvent, NoPayload)
    case Outcome(status, result, approval) =>
      if cancelSeen || status == Cancelled then
        ClosingWrite(row.(status := Cancelled, result := Some(result)), CancelledEvent, NoPayload)
      else if status == ApprovalRequired && approval.Some? then
        ClosingWrite(row.(status := ApprovalRequired, approval := approval, result := Some(result)),
                     ApprovalRequiredEvent, ApprovalPayload(approval.value))
      else if status == ApprovalRequired then
        ClosingWrite(row.(status := Failed, result := Some(NO_APPROVAL_PAYLOAD)),
                     FailedEvent, NoPayload)
      else if status == Completed then
        ClosingWrite(row.(status := Completed, result := Some(result)), CompletedEvent, NoPayload)
      else ClosingWrite(row.(status := Failed, result := Some(result)), FailedEvent, NoPayload)
  }

  /** On a RUNNING row the closing transition is always accepted. */
  lemma ClosingWrites(db: Db, id: RunId, outcome: Outcome, cancelSeen: bool)
    requires db.WellFormed() && id in db.rows && db.rows[id].status == Running
    ensures var w := ClosingWriteOf(db.rows[id], outcome, cancelSeen);
            ClosingReply(db, id, outcome, cancelSeen) == Reply(Write(db, id, w.row, w.kind, w.payload), Success(()))
  {
    hide Finish, RequireApproval, Write;
    if outcome.Outcome? && outcome.approval.Some? {
      ParkWrites(db, id, outcome.approval.value, outcome.result);
    }
    FinishWrites(db, id, Cancelled, OutcomeText(outcome));
    FinishWrites(db, id, Completed, OutcomeText(outcome));
    FinishWrites(db, id, Failed, OutcomeText(outcome));
    FinishWrites(db, id, Failed, NO_APPROVAL_PAYLOAD);
  }

  lemma ClosingNeverQueues(row: Row, outcome: Outcome, cancelSeen: bool)
    ensures var w := ClosingWriteOf(row, outcome, cancelSeen); w.row.status != Queued && w.kind != StartedEvent
  {
  }

  /**
    How a claimed run ends, in words: CANCELLED when the flag was seen or the executor says so; FAILED
    when the executor raised, asks for an approval without naming it, or reports anything else; and
    otherwise as reported, with the approval asked for and the result kept.
   */
  lemma ClosingMeaning(durable: bool, s: System)
    requires s.db.WellFormed() && OwnedRunIsRunning(s) && s.phase.Closing?
    ensures var id, o, t := s.phase.id, s.phase.outcome, Step(durable, s, CloseRun);
            && id in t.db.rows && t.phase == Idle
            && var before, after := s.db.rows[id], t.db.rows[id];
               && after.cancelRequested == before.cancelRequested && after.approved == before.approved
               && (s.phase.cancelSeen ==> after.status == Cancelled)
               && (!s.phase.cancelSeen && o.ExecutorRaised? ==> after.status == Failed && after.result == Some(o.error))
               && (!s.phase.cancelSeen && o.Outcome? ==>
                     && (o.status == Cancelled ==> after.status == Cancelled && after.result == Some(o.result))
                     && (o.status == Completed ==> after.status == Completed && after.result == Some(o.result))
                     && (o.status == ApprovalRequired && o.approval.Some? ==>
                           after.status == ApprovalRequired && after.approval == o.approval
                           && after.result == Some(o.result))
                     && (o.status == ApprovalRequired && o.approval.None? ==> after.status == Failed)
                     && (o.status == Failed || o.status == Queued || o.status == Running ==>
                           after.status == Failed && after.result == Some(o.result)))
  {
    hide ClosingReply, Step, NextEvent, NoDuplicates;
    CloseStep(durable, s);
    ClosingWrites(s.db, s.phase.id, s.phase.outcome, s.phase.cancelSeen);
  }

  lemma CloseRunCoordinated(durable: bool, s: System)
    requires Coordinated(s) && s.phase.Closing?
    ensures Coordinated(Step(durable, s, CloseRun))
  {
    hide ClosingReply, ClaimRun, RecoverInterrupted, RequestCancel, Approve, CreateRun, ListQueued;
    hide ClosingWriteOf, StartsAccounted, NoLostWakeup, NoDuplicates, Starts, Write;
    var id := s.phase.id;
    ClosingWrites(s.db, id, s.phase.outcome, s.phase.cancelSeen);
    var w := ClosingWriteOf(s.db.rows[id], s.phase.outcome, s.phase.cancelSeen);
    ClosingNeverQueues(s.db.rows[id], s.phase.outcome, s.phase.cancelSeen);
    WriteCoordinated(s, Step(durable, s, CloseRun), id, w.row, w.kind, w.payload);
  }

  lemma RestartedStarts(db: Db, id: RunId)
    requires id in db.rows && id in db.events
    ensures Starts(RestartedLog(db, id)) == Starts(db.events[id])
  {
    if db.rows[id].status == Running {
      StartsAppend(db.events[id], Last(RestartedLog(db, id)));
    }
  }

  lemma RecoverCoordinated(durable: bool, s: System)
    requires Coordinated(s) && s.phase.Down?
    ensures Coordinated(Step(durable, s, Recover))
  {
    hide ClosingReply, ClaimRun, RecoverInterrupted, RequestCancel, Approve, CreateRun, ListQueued;
    hide NoDuplicates, Starts, RestartedLog, RestartedRow, Count;
    if durable {
      RestartWrites(s.db);
      forall x | x in s.db.rows ensures Starts(RestartedLog(s.db, x)) == Starts(s.db.events[x]) {
        RestartedStarts(s.db, x);
      }
    } else {
      MoveCoordinated(s, Step(durable, s, Recover));
    }
  }

  /** A notification reaches the queue. */
  lemma DeliveryCoordinated(durable: bool, s: System, l: Label)
    requires Coordinated(s) && Enabled(s, l) && (l.ApiNotify? || l.StrayNotification?)
    ensures Coordinated(Step(durable, s, l))
  {
    hide Step, StartsAccounted, NoLostWakeup, NoDuplicates, Starts, Count;
    QueueSteps(durable, s, l.id);
    MoveCoordinated(s, Step(durable, s, l));
  }

  lemma DequeueCoordinated(durable: bool, s: System, id: RunId)
    requires Coordinated(s) && Enabled(s, Dequeue(id))
    ensures Coordinated(Step(durable, s, Dequeue(id)))
  {
    hide Step, StartsAccounted, NoLostWakeup, NoDuplicates, Starts, Count;
    QueueSteps(durable, s, id);
    MoveCoordinated(s, Step(durable, s, Dequeue(id)));
  }

  lemma FinishStartCoordinated(durable: bool, s: System)
    requires Coordinated(s) && Enabled(s, FinishStart)
    ensures Coordinated(Step(durable, s, FinishStart))
  {
    hide Step, StartsAccounted, NoLostWakeup, NoDuplicates, Starts, Count;
    StartSteps(durable, s);
    MoveCoordinated(s, Step(durable, s, FinishStart));
  }

  /** The worker learns the outcome and the cancel flag. */
  lemma DecisionCoordinated(durable: bool, s: System, l: Label)
    requires Coordinated(s) && Enabled(s, l)
    requires l.ExecutorReturns? || l.ReadCancelFlag?
    ensures Coordinated(Step(durable, s, l))
  {
    hide Step, StartsAccounted, NoLostWakeup, NoDuplicates, Starts, Count;
    ExecutionSteps(durable, s, if l.ExecutorReturns? then l.outcome else ExecutorRaised(""));
    MoveCoordinated(s, Step(durable, s, l));
  }

  lemma CrashCoordinated(durable: bool, s: System, queue: multiset<RunId>, handlers: multiset<RunId>)
    requires Coordinated(s) && Enabled(s, Crash(queue, handlers))
    ensures Coordinated(Step(durable, s, Crash(queue, handlers)))
  {
    var s' := Step(durable, s, Crash(queue, handlers));
    forall x ensures Accounted(s', x) == Accounted(s, x) {
    }
    MoveCoordinated(s, s');
  }

  lemma ArtifactCoordinated(durable: bool, s: System, ok: bool)
    requires Coordinated(s) && s.phase.Claimed?
    ensures Coordinated(Step(durable, s, WriteArtifact(ok)))
  {
    hide Step, StartsAccounted, NoLostWakeup, NoDuplicates, Starts;
    ExecutionSteps(durable, s, ExecutorRaised(""));
    MoveCoordinated(s, Step(durable, s, WriteArtifact(ok)));
  }

  lemma ListingCoordinated(durable: bool, s: System)
    requires Coordinated(s) && s.phase.Recovered?
    ensures Coordinated(Step(durable, s, ListQueuedRuns))
  {
    hide Step, StartsAccounted, NoLostWakeup, NoDuplicates, Starts, WithStatus, Count;
    StartSteps(durable, s);
    WithStatusMembers(s.db, s.db.order, Queued);
    MoveCoordinated(s, Step(durable, s, ListQueuedRuns));
  }

  lemma NotifyCoordinated(durable: bool, s: System)
    requires Coordinated(s) && Enabled(s, NotifyNext)
    ensures Coordinated(Step(durable, s, NotifyNext))
  {
    hide Step, StartsAccounted, NoLostWakeup, NoDuplicates, Starts, Count;
    StartSteps(durable, s);
    assert s.phase.pending == [s.phase.pending[0]] + s.phase.pending[1..];
    MoveCoordinated(s, Step(durable, s, NotifyNext));
  }

  lemma StepCoordinated(durable: bool, s: System, l: Label)
    requires Coordinated(s) && Enabled(s, l)
    ensures Coordinated(Step(durable, s, l))
  {
    hide Step, Coordinated;
    match l
    case ApiCreate(id) => ApiCreateCoordinated(durable, s, id);
    case ApiCancel(id) => ApiCancelCoordinated(durable, s, id);
    case ApiApprove(id) => ApiApproveCoordinated(durable, s, id);
    case Claim => ClaimCoordinated(durable, s);
    case CloseRun => CloseRunCoordinated(durable, s);
    case Recover => RecoverCoordinated(durable, s);
    case Crash(queue, handlers) => CrashCoordinated(durable, s, queue, handlers);
    case WriteArtifact(ok) => ArtifactCoordinated(durable, s, ok);
    case ListQueuedRuns => ListingCoordinated(durable, s);
    case NotifyNext => NotifyCoordinated(durable, s);
    case FinishStart => FinishStartCoordinated(durable, s);
    case Dequeue(id) => DequeueCoordinated(durable, s, id);
    case ApiNotify(_) => DeliveryCoordinated(durable, s, l);
    case StrayNotification(_) => DeliveryCoordinated(durable, s, l);
    case ExecutorReturns(_) => DecisionCoordinated(durable, s, l);
    case ReadCancelFlag => DecisionCoordinated(durable, s, l);
  }

  lemma ClosingSuits(row: Row, outcome: Outcome, cancelSeen: bool)
    requires row.status == Running
    ensures var w := ClosingWriteOf(row, outcome, cancelSeen); Suits(row, w.row, w.kind, w.payload)
  {
  }

  lemma ClosingKeeps(db: Db, id: RunId, outcome: Outcome, cancelSeen: bool)
    requires Consistent(db) && id in db.rows && db.rows[id].status == Running
    ensures Keeps(db, ClosingReply(db, id, outcome, cancelSeen).db, id)
  {
    hide ClosingReply, ClosingWriteOf, Suits, Keeps, Write;
    ClosingWrites(db, id, outcome, cancelSeen);
    ClosingSuits(db.rows[id], outcome, cancelSeen);
    var w := ClosingWriteOf(db.rows[id], outcome, cancelSeen);
    WriteKeeps(db, id, w.row, w.kind, w.payload);
  }

  lemma KeepsBoth(db: Db, db': Db, id: RunId)
    requires Keeps(db, db', id)
    ensures Consistent(db') && db.WellFormed() && db'.WellFormed() && LogsGrow(db, db')
  {
  }

  lemma NothingGrows(db: Db)
    requires db.WellFormed()
    ensures LogsGrow(db, db)
  {
  }

  lemma StepConsistent(durable: bool, s: System, l: Label)
    requires Inv(s)
    ensures Consistent(Step(durable, s, l).db) && LogsGrow(s.db, Step(durable, s, l).db)
  {
    hide ClosingReply, ClaimRun, RecoverInterrupted, RequestCancel, Approve, CreateRun, ListQueued;
    hide Keeps, LogsGrow, Consistent, NoDuplicates, StartsAccounted, NoLostWakeup;
    NothingGrows(s.db);
    if Enabled(s, l) {
      match l
      case ApiCreate(id) => CreateKeeps(s.db, id); KeepsBoth(s.db, Step(durable, s, l).db, id);
      case ApiCancel(id) => CancelKeeps(s.db, id); KeepsBoth(s.db, Step(durable, s, l).db, id);
      case ApiApprove(id) => ApproveKeeps(s.db, id); KeepsBoth(s.db, Approve(s.db, id).db, id);
      case Claim => ClaimKeeps(s.db, s.phase.id); KeepsBoth(s.db, Step(durable, s, l).db, s.phase.id);
      case CloseRun =>
        ClosingKeeps(s.db, s.phase.id, s.phase.outcome, s.phase.cancelSeen);
        KeepsBoth(s.db, Step(durable, s, l).db, s.phase.id);
      case Recover => if durable { RestartKeeps(s.db); }
      case _ =>
    }
  }

  lemma StepKeepsInv(durable: bool, s: System, l: Label)
    requires Inv(s)
    ensures Inv(Step(durable, s, l)) && LogsGrow(s.db, Step(durable, s, l).db)
  {
    StepConsistent(durable, s, l);
    if Enabled(s, l) {
      StepCoordinated(durable, s, l);
    }
  }
}
