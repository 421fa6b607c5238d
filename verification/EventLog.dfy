/**
  What the event log of a run says about the run.

  `Replay` reads a log without ever looking at a row. `LegalLog` is the grammar of logs. The
  theorems say that the store keeps row and replayed log equal and every log legal, whatever
  operations are applied in whatever order; the rest of the module derives facts from legality.
 */
module EventLog {
  import opened Common
  import opened SafetyModels
  import opened Runs
  import opened RunStore

  /** Everything about a row that events record; the result document is not among it. */
  datatype View = View(
    status: Status, cancelRequested: bool, approval: Option<ApprovalRequest>, approved: seq<Fingerprint>)

  function ViewOf(row: Row): View {
    View(row.status, row.cancelRequested, row.approval, row.approved)
  }

  function ApplyEvent(v: View, e: Event): View {
    match e.kind
    case QueuedEvent => View(e.status, false, None, [])
    case CancelRequestedEvent => v.(status := e.status, cancelRequested := true)
    case ApprovalRequiredEvent =>
      v.(status := e.status, approval := if e.payload.ApprovalPayload? then Some(e.payload.approval) else None)
    case ApprovedEvent =>
      View(e.status, v.cancelRequested, None,
           if v.approval.Some? then WithFingerprint(v.approved, v.approval.value.fingerprint) else v.approved)
    case _ => v.(status := e.status)
  }

  function Front(log: seq<Event>): seq<Event>
    requires log != []
  {
    log[..|log| - 1]
  }

  function Last(log: seq<Event>): Event
    requires log != []
  {
    log[|log| - 1]
  }

  function Replay(log: seq<Event>): View {
    if log == [] then View(Queued, false, None, []) else ApplyEvent(Replay(Front(log)), Last(log))
  }

  /** Which event may follow a log that replays to `v`. */
  predicate LegalNext(first: bool, v: View, e: Event) {
    match e.kind
    case QueuedEvent => first && e.status == Queued
    case StartedEvent => !first && v.status == Queued && !v.cancelRequested && e.status == Running
    case CancelledBeforeStartEvent => !first && v.status == Queued && v.cancelRequested && e.status == Cancelled
    case CancelledEvent => !first && !IsTerminal(v.status) && e.status == Cancelled
    case CancelRequestedEvent => !first && v.status == Running && e.status == Running
    case ApprovalRequiredEvent =>
      !first && v.status == Running && e.status == ApprovalRequired && e.payload.ApprovalPayload?
    case ApprovedEvent =>
      !first && v.status == ApprovalRequired && v.approval.Some? && e.status == Queued
      && e.payload == RequestPayload(v.approval.value.requestId)
    case CompletedEvent => !first && v.status == Running && e.status == Completed
    case FailedEvent => !first && v.status == Running && e.status == Failed
    case CancelledAfterRestartEvent => !first && v.status == Running && v.cancelRequested && e.status == Cancelled
    case RequeuedAfterRestartEvent => !first && v.status == Running && !v.cancelRequested && e.status == Queued
  }

  predicate LegalLog(log: seq<Event>) {
    log == [] ||
    (LegalLog(Front(log)) && Last(log).sequence == |log| && LegalNext(|log| == 1, Replay(Front(log)), Last(log)))
  }

  /** A row and its log tell the same story. */
  ghost predicate RunConsistent(row: Row, log: seq<Event>) {
    log != [] && LegalLog(log) && ViewOf(row) == Replay(log)
  }

  ghost predicate Consistent(db: Db) {
    db.WellFormed() && forall id :: id in db.rows ==> RunConsistent(db.rows[id], db.events[id])
  }

  /* ---- Facts about legal logs ---- */

  /** A pending request exists while the run waits, and may survive in a run cancelled while waiting; nowhere else. */
  lemma {:induction false} PendingApproval(log: seq<Event>)
    requires log != [] && LegalLog(log)
    ensures Replay(log).status == Last(log).status
    ensures Replay(log).status == ApprovalRequired ==> Replay(log).approval.Some?
    ensures Replay(log).approval.Some? ==> Replay(log).status == ApprovalRequired || Replay(log).status == Cancelled
    ensures Replay(log).approval.Some? && Replay(log).status == Cancelled ==>
              && |log| > 1
              && Replay(Front(log)).status == ApprovalRequired && Replay(Front(log)).approval == Replay(log).approval
  {
    if |log| > 1 {
      PendingApproval(Front(log));
    }
  }

  lemma {:induction false} PrefixLegal(log: seq<Event>, n: nat)
    requires LegalLog(log) && n <= |log|
    ensures LegalLog(log[..n])
  {
    if n < |log| {
      PrefixLegal(Front(log), n);
      assert Front(log)[..n] == log[..n];
    } else {
      assert log[..n] == log;
    }
  }

  /** The event at position `n` was legal when it was written. */
  lemma LegalAt(log: seq<Event>, n: nat)
    requires LegalLog(log) && n < |log|
    ensures LegalLog(log[..n]) && log[n].sequence == n + 1
    ensures LegalNext(n == 0, Replay(log[..n]), log[n])
    ensures Replay(log[..n + 1]) == ApplyEvent(Replay(log[..n]), log[n])
  {
    PrefixLegal(log, n + 1);
    assert Front(log[..n + 1]) == log[..n] && Last(log[..n + 1]) == log[n];
  }

  lemma {:induction false} SequencesCount(log: seq<Event>)
    requires LegalLog(log)
    ensures forall k :: 0 <= k < |log| ==> log[k].sequence == k + 1
  {
    if log != [] {
      SequencesCount(Front(log));
      assert forall k :: 0 <= k < |log| - 1 ==> log[k] == Front(log)[k];
    }
  }

  lemma {:induction false} Selected(log: seq<Event>, after: nat)
    requires forall k :: 0 <= k < |log| ==> log[k].sequence == k + 1
    ensures EventsAfter(log, after) == if after <= |log| then log[after..] else []
  {
    if log != [] {
      Selected(log[..|log| - 1], after);
      if after < |log| {
        assert log[after..] == log[..|log| - 1][after..] + [log[|log| - 1]];
      }
    }
  }

  /** Sequence numbers are 1..n, so "after a" is exactly the suffix from a. */
  lemma {:induction false} EventsAfterIsSuffix(log: seq<Event>, after: nat)
    requires LegalLog(log)
    ensures forall k :: 0 <= k < |log| ==> log[k].sequence == k + 1
    ensures EventsAfter(log, after) == if after <= |log| then log[after..] else []
  {
    SequencesCount(log);
    Selected(log, after);
  }

  /** Max-plus-one numbering counts. */
  lemma {:induction false} MaxSequenceIsLength(log: seq<Event>)
    requires LegalLog(log)
    ensures MaxSequence(log) == |log|
  {
    if log != [] {
      MaxSequenceIsLength(Front(log));
    }
  }

  /** A terminal event is the last one, so there is at most one. */
  lemma TerminalIsLast(log: seq<Event>, n: nat)
    requires LegalLog(log) && n < |log| && IsTerminal(log[n].status)
    ensures n == |log| - 1
  {
    if n + 1 < |log| {
      LegalAt(log, n + 1);
      PendingApproval(log[..n + 1]);
    }
  }

  lemma {:induction false} FlagMeansRequested(log: seq<Event>)
    requires LegalLog(log)
    ensures Replay(log).cancelRequested <==> exists k :: 0 <= k < |log| && log[k].kind == CancelRequestedEvent
  {
    if log != [] {
      FlagMeansRequested(Front(log));
      assert forall k :: 0 <= k < |log| - 1 ==> Front(log)[k] == log[k];
      if Replay(log).cancelRequested {
        assert Last(log).kind != QueuedEvent;
      }
    }
  }

  /** Cancellation is sticky: nothing starts after it was requested, not even through approval, requeue or restart. */
  lemma NoStartAfterCancelRequest(log: seq<Event>, i: nat, j: nat)
    requires LegalLog(log) && i < j < |log|
    requires log[i].kind == CancelRequestedEvent
    ensures log[j].kind != StartedEvent
  {
    LegalAt(log, j);
    FlagMeansRequested(log[..j]);
    assert log[..j][i].kind == CancelRequestedEvent;
  }

  function Starts(log: seq<Event>): nat {
    if log == [] then 0 else Starts(Front(log)) + if Last(log).kind == StartedEvent then 1 else 0
  }

  /** The events that put a run (back) into the queue after its creation. */
  predicate IsRelease(e: Event) {
    e.kind == ApprovedEvent || e.kind == RequeuedAfterRestartEvent
  }

  function Releases(log: seq<Event>): nat {
    if log == [] then 0 else Releases(Front(log)) + if IsRelease(Last(log)) then 1 else 0
  }

  /** Creation and releases pay for starts: one credit is left exactly while the run is queued. */
  lemma {:induction false} StartCredit(log: seq<Event>)
    requires log != [] && LegalLog(log)
    ensures Replay(log).status == Queued ==> Starts(log) == Releases(log)
    ensures Replay(log).status in {Running, ApprovalRequired, Completed, Failed} ==> Starts(log) == Releases(log) + 1
    ensures Replay(log).status == Cancelled ==> Releases(log) <= Starts(log) <= Releases(log) + 1
  {
    if |log| > 1 {
      StartCredit(Front(log));
      PendingApproval(Front(log));
    } else {
      assert Front(log) == [];
    }
  }

  function CountIn(log: seq<Event>, i: nat, j: nat): (int, int)
    requires i <= j <= |log|
  {
    (Starts(log[..j]) - Starts(log[..i]), Releases(log[..j]) - Releases(log[..i]))
  }

  /** A start uses up the one credit there is. */
  lemma StartSpends(log: seq<Event>, i: nat)
    requires LegalLog(log) && i < |log| && log[i].kind == StartedEvent
    ensures Starts(log[..i]) == Releases(log[..i])
    ensures Starts(log[..i + 1]) == Starts(log[..i]) + 1 && Releases(log[..i + 1]) == Releases(log[..i])
  {
    hide Replay, ApplyEvent;
    LegalAt(log, i);
    StartCredit(log[..i]);
    assert Front(log[..i + 1]) == log[..i] && Last(log[..i + 1]) == log[i];
  }

  /** Two consecutive starts have exactly one release between them: no run is executed twice for one admission. */
  lemma OneReleaseBetweenStarts(log: seq<Event>, i: nat, j: nat)
    requires LegalLog(log) && i < j < |log|
    requires log[i].kind == StartedEvent && log[j].kind == StartedEvent
    ensures var (starts, releases) := CountIn(log, i + 1, j); releases == starts + 1
  {
    hide Starts, Releases, LegalLog;
    StartSpends(log, i);
    StartSpends(log, j);
  }

  /** The fingerprints of the approval requests in a log, in order. */
  function RequestedFingerprints(log: seq<Event>): seq<Fingerprint> {
    if log == [] then []
    else
      RequestedFingerprints(Front(log)) +
      if Last(log).kind == ApprovalRequiredEvent && Last(log).payload.ApprovalPayload?
      then [Last(log).payload.approval.fingerprint] else []
  }

  function Approvals(log: seq<Event>): nat {
    if log == [] then 0 else Approvals(Front(log)) + if Last(log).kind == ApprovedEvent then 1 else 0
  }

  function PendingFingerprint(v: View): seq<Fingerprint> {
    if v.approval.Some? then [v.approval.value.fingerprint] else []
  }

  lemma ApprovalStep(v: View, e: Event, fs: seq<Fingerprint>)
    requires fs == v.approved + PendingFingerprint(v) && NoDuplicates(fs)
    requires LegalNext(false, v, e)
    requires v.approval.Some? ==> v.status in {ApprovalRequired, Cancelled}
    ensures var v' := ApplyEvent(v, e);
            && v'.approved + PendingFingerprint(v') ==
               fs + (if e.kind == ApprovalRequiredEvent then [e.payload.approval.fingerprint] else [])
            && |v'.approved| == |v.approved| + if e.kind == ApprovedEvent then 1 else 0
  {
    if e.kind == ApprovedEvent {
      var f := v.approval.value.fingerprint;
      assert fs[|fs| - 1] == f;
      assert forall k :: 0 <= k < |fs| - 1 ==> v.approved[k] == fs[k];
      assert f !in v.approved;
    }
  }

  lemma NoDuplicatesPrefix(s: seq<Fingerprint>, t: seq<Fingerprint>)
    requires s <= t && NoDuplicates(t)
    ensures NoDuplicates(s)
  {
    assert forall k :: 0 <= k < |s| ==> s[k] == t[k];
  }

  /**
    If no request repeats an earlier fingerprint, the approved list is duplicate free, grows by one
    with every approval, and only the pending request is not in it.
   */
  lemma {:induction false} ApprovalsGrow(log: seq<Event>)
    requires LegalLog(log)
    requires NoDuplicates(RequestedFingerprints(log))
    ensures RequestedFingerprints(log) == Replay(log).approved + PendingFingerprint(Replay(log))
    ensures |Replay(log).approved| == Approvals(log)
  {
    if log != [] {
      var before := Front(log);
      NoDuplicatesPrefix(RequestedFingerprints(before), RequestedFingerprints(log));
      ApprovalsGrow(before);
      if before != [] {
        PendingApproval(before);
        ApprovalStep(Replay(before), Last(log), RequestedFingerprints(before));
      }
    }
  }

  /** A duplicate-free list drawn from a set is no longer than the set is large. */
  lemma {:induction false} NoDuplicatesFits(s: seq<Fingerprint>, among: set<Fingerprint>)
    requires NoDuplicates(s)
    requires forall f :: f in s ==> f in among
    ensures |s| <= |among|
  {
    if s != [] {
      var rest, f := s[..|s| - 1], s[|s| - 1];
      assert forall k :: 0 <= k < |rest| ==> rest[k] == s[k];
      assert f in s && f !in rest;
      forall g | g in rest ensures g in among - {f} {
        assert g in s;
      }
      NoDuplicatesFits(rest, among - {f});
    }
  }

  /* ---- The store keeps rows and logs together ---- */

  datatype StoreOp =
    | CreateOp(id: RunId)
    | ClaimOp(id: RunId)
    | CancelOp(id: RunId)
    | ParkOp(id: RunId, approval: ApprovalRequest, result: string)
    | ApproveRunOp(id: RunId)
    | CloseOp(id: RunId, status: Status, result: string)
    | RestartOp

  function Apply(db: Db, op: StoreOp): Db
    requires db.WellFormed()
  {
    match op
    case CreateOp(id) => CreateRun(db, id)
    case ClaimOp(id) => ClaimRun(db, id).db
    case CancelOp(id) => RequestCancel(db, id).db
    case ParkOp(id, approval, result) => RequireApproval(db, id, approval, result).db
    case ApproveRunOp(id) => Approve(db, id).db
    case CloseOp(id, status, result) => Finish(db, id, status, result).db
    case RestartOp => RecoverInterrupted(db).db
  }

  /** Any event that is legal next keeps the run consistent when the row is changed to match. */
  lemma AppendKeepsRun(v: View, log: seq<Event>, e: Event, row: Row)
    requires LegalLog(log) && v == Replay(log)
    requires e.sequence == MaxSequence(log) + 1
    requires LegalNext(log == [], v, e)
    requires ViewOf(row) == ApplyEvent(v, e)
    ensures RunConsistent(row, log + [e])
  {
    MaxSequenceIsLength(log);
    assert Front(log + [e]) == log && Last(log + [e]) == e;
  }

  /** An operation on one run leaves every other run alone. */
  ghost predicate TouchesOnly(db: Db, db': Db, id: RunId)
    requires db.WellFormed() && db'.WellFormed()
  {
    && db'.rows.Keys <= db.rows.Keys + {id}
    && forall x :: x in db.rows && x != id ==>
        x in db'.rows && db'.rows[x] == db.rows[x] && db'.events[x] == db.events[x]
  }

  /** Every log is only ever extended. */
  ghost predicate LogsGrow(db: Db, db': Db)
    requires db.WellFormed() && db'.WellFormed()
  {
    forall id :: id in db.rows ==> id in db'.rows && db.events[id] <= db'.events[id]
  }

  /** What every operation on the one run `id` keeps. */
  ghost predicate Keeps(db: Db, db': Db, id: RunId) {
    Consistent(db) && Consistent(db') && LogsGrow(db, db') && TouchesOnly(db, db', id)
  }

  /** Row and event are written together. */
  function Write(db: Db, id: RunId, row: Row, kind: EventKind, payload: Payload): Db
    requires id in db.rows && id in db.events
  {
    AppendEvent(db.(rows := db.rows[id := row]), id, kind, row.status, payload)
  }

  /** The event is legal on the row as it was, and turns it into the row as it becomes. */
  predicate Suits(before: Row, after: Row, kind: EventKind, payload: Payload) {
    var e := Event(1, kind, after.status, payload);
    LegalNext(false, ViewOf(before), e) && ViewOf(after) == ApplyEvent(ViewOf(before), e)
  }

  lemma SuitableRun(before: Row, log: seq<Event>, after: Row, kind: EventKind, payload: Payload)
    requires RunConsistent(before, log) && Suits(before, after, kind, payload)
    ensures RunConsistent(after, log + [NextEvent(log, kind, after.status, payload)])
  {
    AppendKeepsRun(ViewOf(before), log, NextEvent(log, kind, after.status, payload), after);
  }

  lemma WriteKeeps(db: Db, id: RunId, row: Row, kind: EventKind, payload: Payload)
    requires Consistent(db) && id in db.rows && Suits(db.rows[id], row, kind, payload)
    ensures Keeps(db, Write(db, id, row, kind, payload), id)
  {
    hide RunConsistent, Suits, NextEvent, NoDuplicates;
    SuitableRun(db.rows[id], db.events[id], row, kind, payload);
    assert Write(db, id, row, kind, payload).order == db.order;
  }

  lemma NothingKeeps(db: Db, id: RunId)
    requires Consistent(db)
    ensures Keeps(db, db, id)
  {
  }

  lemma CreatedRun()
    ensures RunConsistent(Row(Queued, false, None, [], None), [] + [NextEvent([], QueuedEvent, Queued, NoPayload)])
  {
    var row := Row(Queued, false, None, [], None);
    AppendKeepsRun(Replay([]), [], NextEvent([], QueuedEvent, Queued, NoPayload), row);
  }

  lemma CreateWellFormed(db: Db, id: RunId)
    requires db.WellFormed() && id !in db.rows
    ensures CreateRun(db, id).WellFormed()
    ensures CreateRun(db, id).rows == db.rows[id := Row(Queued, false, None, [], None)]
    ensures CreateRun(db, id).events == db.events[id := [] + [NextEvent([], QueuedEvent, Queued, NoPayload)]]
  {
    hide NextEvent;
    var db' := CreateRun(db, id);
    assert forall x :: x in db'.order <==> x in db.order || x == id;
  }

  lemma TakenId(db: Db, id: RunId)
    requires id in db.rows
    ensures CreateRun(db, id) == db
  {
  }

  lemma CreateKeeps(db: Db, id: RunId)
    requires Consistent(db)
    ensures Keeps(db, CreateRun(db, id), id)
  {
    hide RunConsistent, NextEvent, CreateRun, NoDuplicates;
    if id in db.rows {
      NothingKeeps(db, id);
      assert CreateRun(db, id) == db by { TakenId(db, id); }
    } else {
      CreatedRun();
      CreateWellFormed(db, id);
    }
  }

  /** What a claim makes of a queued row. */
  function ClaimedRow(row: Row): Row {
    row.(status := if row.cancelRequested then Cancelled else Running)
  }

  function ClaimKind(row: Row): EventKind {
    if row.cancelRequested then CancelledBeforeStartEvent else StartedEvent
  }

  lemma ClaimWrites(db: Db, id: RunId)
    requires db.WellFormed()
    ensures ClaimRun(db, id) ==
            if id !in db.rows then Reply(db, Failure(RunNotFound))
            else if db.rows[id].status != Queued then Reply(db, Success(None))
            else Reply(Write(db, id, ClaimedRow(db.rows[id]), ClaimKind(db.rows[id]), NoPayload),
                       Success(Some(ClaimedRow(db.rows[id]))))
  {
  }

  lemma ClaimKeeps(db: Db, id: RunId)
    requires Consistent(db)
    ensures Keeps(db, ClaimRun(db, id).db, id)
  {
    hide ClaimRun, Write, Keeps;
    ClaimWrites(db, id);
    NothingKeeps(db, id);
    if id in db.rows && db.rows[id].status == Queued {
      WriteKeeps(db, id, ClaimedRow(db.rows[id]), ClaimKind(db.rows[id]), NoPayload);
    }
  }

  /** What a cancel request makes of a row that has not finished. */
  function CancelledRow(row: Row): Row {
    if row.status == Running then row.(cancelRequested := true) else row.(status := Cancelled)
  }

  function CancelKind(row: Row): EventKind {
    if row.status == Running then CancelRequestedEvent else CancelledEvent
  }

  lemma CancelWrites(db: Db, id: RunId)
    requires db.WellFormed()
    ensures RequestCancel(db, id).db ==
            if id !in db.rows || IsTerminal(db.rows[id].status) then db
            else Write(db, id, CancelledRow(db.rows[id]), CancelKind(db.rows[id]), NoPayload)
  {
  }

  lemma CancelKeeps(db: Db, id: RunId)
    requires Consistent(db)
    ensures Keeps(db, RequestCancel(db, id).db, id)
  {
    hide RequestCancel, Write, Keeps;
    CancelWrites(db, id);
    NothingKeeps(db, id);
    if id in db.rows && !IsTerminal(db.rows[id].status) {
      WriteKeeps(db, id, CancelledRow(db.rows[id]), CancelKind(db.rows[id]), NoPayload);
    }
  }

  /** What a request for approval makes of a row. */
  function ParkedRow(row: Row, approval: ApprovalRequest, result: string): Row {
    row.(status := ApprovalRequired, approval := Some(approval), result := Some(result))
  }

  lemma ParkWrites(db: Db, id: RunId, approval: ApprovalRequest, result: string)
    requires db.WellFormed()
    ensures RequireApproval(db, id, approval, result) ==
            if id !in db.rows then Reply(db, Failure(RunNotFound))
            else if db.rows[id].status != Running then Reply(db, Failure(InvalidTransition))
            else Reply(Write(db, id, ParkedRow(db.rows[id], approval, result), ApprovalRequiredEvent,
                             ApprovalPayload(approval)),
                       Success(()))
  {
  }

  lemma ParkKeeps(db: Db, id: RunId, approval: ApprovalRequest, result: string)
    requires Consistent(db)
    ensures Keeps(db, RequireApproval(db, id, approval, result).db, id)
  {
    hide RequireApproval, Write, Keeps, WithFingerprint;
    ParkWrites(db, id, approval, result);
    NothingKeeps(db, id);
    if id in db.rows && db.rows[id].status == Running {
      WriteKeeps(db, id, ParkedRow(db.rows[id], approval, result), ApprovalRequiredEvent, ApprovalPayload(approval));
    }
  }

  /** What an approval makes of a row whose request is `request`. */
  function ApprovedRow(row: Row, request: ApprovalRequest): Row {
    Row(Queued, row.cancelRequested, None, WithFingerprint(row.approved, request.fingerprint), row.result)
  }

  lemma ApproveWrites(db: Db, id: RunId)
    requires db.WellFormed()
    ensures Approve(db, id) ==
            if id !in db.rows then Reply(db, Failure(RunNotFound))
            else if db.rows[id].status != ApprovalRequired then Reply(db, Failure(NotAwaitingApproval))
            else if db.rows[id].approval.None? then Reply(db, Failure(NoApprovalRequest))
            else
              var request := db.rows[id].approval.value;
              var row := ApprovedRow(db.rows[id], request);
              Reply(Write(db, id, row, ApprovedEvent, RequestPayload(request.requestId)), Success(()))
  {
  }

  /** A waiting run has a request, and approving it suits its log. */
  lemma ApprovalSuits(row: Row, log: seq<Event>)
    requires RunConsistent(row, log) && row.status == ApprovalRequired
    ensures row.approval.Some?
    ensures Suits(row, ApprovedRow(row, row.approval.value), ApprovedEvent,
                  RequestPayload(row.approval.value.requestId))
  {
    PendingApproval(log);
  }

  /** Approving a waiting run always finds its request: the "no approval request" answer is unreachable. */
  lemma ApproveKeeps(db: Db, id: RunId)
    requires Consistent(db)
    ensures Keeps(db, Approve(db, id).db, id)
    ensures Approve(db, id).result != Failure(NoApprovalRequest)
  {
    hide Approve, Write, Keeps, Suits, RunConsistent, ApprovedRow;
    ApproveWrites(db, id);
    NothingKeeps(db, id);
    if id in db.rows && db.rows[id].status == ApprovalRequired {
      ApprovalSuits(db.rows[id], db.events[id]);
      var request := db.rows[id].approval.value;
      WriteKeeps(db, id, ApprovedRow(db.rows[id], request), ApprovedEvent, RequestPayload(request.requestId));
    }
  }

  /** What finishing makes of a row. */
  function FinishedRow(row: Row, status: Status, result: string): Row {
    row.(status := status, result := Some(result))
  }

  lemma FinishWrites(db: Db, id: RunId, status: Status, result: string)
    requires db.WellFormed()
    ensures Finish(db, id, status, result) ==
            if !IsTerminal(status) then Reply(db, Failure(NotATerminalStatus))
            else if id !in db.rows then Reply(db, Failure(RunNotFound))
            else if !CanTransition(db.rows[id].status, status) then Reply(db, Failure(InvalidTransition))
            else Reply(Write(db, id, FinishedRow(db.rows[id], status, result), FinishKind(status), NoPayload),
                       Success(()))
  {
  }

  lemma FinishSuits(row: Row, status: Status, result: string)
    requires IsTerminal(status) && CanTransition(row.status, status)
    ensures Suits(row, FinishedRow(row, status, result), FinishKind(status), NoPayload)
  {
  }

  lemma FinishKeeps(db: Db, id: RunId, status: Status, result: string)
    requires Consistent(db)
    ensures Keeps(db, Finish(db, id, status, result).db, id)
  {
    hide Finish, Write, Keeps, Suits, FinishedRow, CanTransition;
    FinishWrites(db, id, status, result);
    NothingKeeps(db, id);
    if id in db.rows && IsTerminal(status) && CanTransition(db.rows[id].status, status) {
      FinishSuits(db.rows[id], status, result);
      WriteKeeps(db, id, FinishedRow(db.rows[id], status, result), FinishKind(status), NoPayload);
    }
  }

  /** What a restart makes of a row. */
  function RestartedRow(row: Row): Row {
    if row.status != Running then row
    else row.(status := if row.cancelRequested then Cancelled else Queued)
  }

  function RestartKind(row: Row): EventKind {
    if row.cancelRequested then CancelledAfterRestartEvent else RequeuedAfterRestartEvent
  }

  lemma RecoverRowWrites(db: Db, id: RunId)
    requires id in db.rows && id in db.events && db.rows[id].status == Running
    ensures RecoverRow(db, id) == Write(db, id, RestartedRow(db.rows[id]), RestartKind(db.rows[id]), NoPayload)
  {
  }

  lemma RestartSuits(row: Row)
    requires row.status == Running
    ensures Suits(row, RestartedRow(row), RestartKind(row), NoPayload)
  {
  }

  /** The restart's direct write to QUEUED bypasses the transition table, yet keeps a run consistent. */
  lemma RecoverRowKeeps(db: Db, id: RunId)
    requires Consistent(db) && id in db.rows && db.rows[id].status == Running
    ensures Keeps(db, RecoverRow(db, id), id)
    ensures RecoverRow(db, id).rows[id] == RestartedRow(db.rows[id])
  {
    hide RecoverRow, Keeps, Suits, RestartedRow, RestartKind, NextEvent;
    RecoverRowWrites(db, id);
    RestartSuits(db.rows[id]);
    WriteKeeps(db, id, RestartedRow(db.rows[id]), RestartKind(db.rows[id]), NoPayload);
  }

  /** The log of a run after a restart. */
  function RestartedLog(db: Db, id: RunId): seq<Event>
    requires id in db.rows && id in db.events
  {
    if db.rows[id].status == Running then RecoverRow(db, id).events[id] else db.events[id]
  }

  /** What one row and its log look like once all RUNNING rows have been dealt with. */
  lemma RestartRow(db: Db, id: RunId)
    requires db.WellFormed() && id in db.rows
    ensures RecoverRows(db, Interrupted(db)).rows[id] == RestartedRow(db.rows[id])
    ensures RecoverRows(db, Interrupted(db)).events[id] == RestartedLog(db, id)
  {
    hide RecoverRow, RecoverRows;
    RecoverEffect(db, Interrupted(db), id);
    if db.rows[id].status == Running {
      RecoverRowWrites(db, id);
    }
  }

  lemma RestartWrites(db: Db)
    requires db.WellFormed()
    ensures var db' := RecoverInterrupted(db).db;
            && db'.order == db.order && db'.rows.Keys == db.rows.Keys && db'.WellFormed()
            && forall id :: id in db.rows ==>
                db'.rows[id] == RestartedRow(db.rows[id]) && db'.events[id] == RestartedLog(db, id)
  {
    hide RecoverRows, RestartedRow, RestartedLog, Interrupted, Uncancelled;
    forall id | id in db.rows
      ensures var db' := RecoverInterrupted(db).db;
              && id in db'.rows && id in db'.events
              && db'.rows[id] == RestartedRow(db.rows[id]) && db'.events[id] == RestartedLog(db, id)
    {
      RestartRow(db, id);
    }
  }

  lemma RestartKeeps(db: Db)
    requires Consistent(db)
    ensures Consistent(RecoverInterrupted(db).db) && LogsGrow(db, RecoverInterrupted(db).db)
  {
    RestartWrites(db);
    var db' := RecoverInterrupted(db).db;
    forall id | id in db.rows
      ensures RunConsistent(db'.rows[id], db'.events[id]) && db.events[id] <= db'.events[id]
    {
      if db.rows[id].status == Running {
        RecoverRowKeeps(db, id);
      }
    }
  }

  lemma ApplyKeeps(db: Db, op: StoreOp)
    requires Consistent(db)
    ensures Consistent(Apply(db, op)) && LogsGrow(db, Apply(db, op))
  {
    match op
    case CreateOp(id) => CreateKeeps(db, id);
    case ClaimOp(id) => ClaimKeeps(db, id);
    case CancelOp(id) => CancelKeeps(db, id);
    case ParkOp(id, approval, result) => ParkKeeps(db, id, approval, result);
    case ApproveRunOp(id) => ApproveKeeps(db, id);
    case CloseOp(id, status, result) => FinishKeeps(db, id, status, result);
    case RestartOp => RestartKeeps(db);
  }

  /** `db` results from applying `ops` to a new database. */
  ghost predicate Reaches(ops: seq<StoreOp>, db: Db) {
    if ops == [] then db == EMPTY
    else exists before: Db ::
      Reaches(ops[..|ops| - 1], before) && before.WellFormed() && db == Apply(before, ops[|ops| - 1])
  }

  /** Event sourcing: after any sequence of operations, replaying a run's log gives its row. */
  lemma {:induction false} EventSourcing(ops: seq<StoreOp>, db: Db)
    requires Reaches(ops, db)
    ensures Consistent(db)
    ensures forall id :: id in db.rows ==> Replay(db.events[id]) == ViewOf(db.rows[id])
  {
    if ops != [] {
      var before: Db :| Reaches(ops[..|ops| - 1], before) && before.WellFormed() && db == Apply(before, ops[|ops| - 1]);
      EventSourcing(ops[..|ops| - 1], before);
      ApplyKeeps(before, ops[|ops| - 1]);
    }
  }
}
