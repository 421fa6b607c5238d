/**
  The run store (webpilot/service/store.py and postgres_store.py).

  Every operation is one transaction, so it is specified as a function from a database to a
  database and a reply. A failing transaction is rolled back: its reply carries the old database.
  The class at the end performs the operations step by step on its fields.
 */
module RunStore {
  import opened Common
  import opened SafetyModels
  import opened Runs

  datatype StoreError = RunNotFound | InvalidTransition | NotAwaitingApproval | NoApprovalRequest | NotATerminalStatus

  /** `order` is the order of row creation, which the queries sort by. */
  datatype Db = Db(order: seq<RunId>, rows: map<RunId, Row>, events: map<RunId, seq<Event>>) {
    /** Every row has a log, and every row was created once. */
    ghost predicate WellFormed() {
      && rows.Keys == events.Keys
      && NoDuplicates(order)
      && (forall id :: id in order <==> id in rows)
    }

    predicate IsQueued(id: RunId) {
      id in rows && rows[id].status == Queued
    }

    predicate CancelFlag(id: RunId) {
      id in rows && rows[id].cancelRequested
    }
  }

  const EMPTY := Db([], map[], map[])

  datatype Reply<+T> = Reply(db: Db, result: Result<T, StoreError>)

  /* ---- Events ---- */

  /** SQL's `COALESCE(MAX(sequence), 0)`. */
  function MaxSequence(log: seq<Event>): nat {
    if log == [] then 0
    else
      var m := MaxSequence(log[..|log| - 1]);
      var last := log[|log| - 1].sequence;
      if last > m then last else m
  }

  function NextEvent(log: seq<Event>, kind: EventKind, status: Status, payload: Payload): Event {
    Event(MaxSequence(log) + 1, kind, status, payload)
  }

  function AppendEvent(db: Db, id: RunId, kind: EventKind, status: Status, payload: Payload): Db
    requires id in db.events
  {
    db.(events := db.events[id := db.events[id] + [NextEvent(db.events[id], kind, status, payload)]])
  }

  /** `WHERE sequence > after ORDER BY sequence`, on a log that is stored in order. */
  function EventsAfter(log: seq<Event>, after: nat): seq<Event> {
    if log == [] then []
    else
      var front := EventsAfter(log[..|log| - 1], after);
      if log[|log| - 1].sequence > after then front + [log[|log| - 1]] else front
  }

  /* ---- Transitions ---- */

  /** The keyword arguments of `_transition`; a column whose update is `Keep` is written back as read. */
  datatype Update<T> = Keep | Put(value: T)

  datatype Change = Change(
    target: Status,
    kind: EventKind,
    payload: Payload,
    approval: Update<Option<ApprovalRequest>>,
    approved: Update<seq<Fingerprint>>,
    result: Update<Option<string>>)

  function Plain(target: Status, kind: EventKind): Change {
    Change(target, kind, NoPayload, Keep, Keep, Keep)
  }

  function Updated(row: Row, c: Change): Row {
    Row(c.target,
        row.cancelRequested,
        if c.approval.Put? then c.approval.value else row.approval,
        if c.approved.Put? then c.approved.value else row.approved,
        if c.result.Put? then c.result.value else row.result)
  }

  function Transition(db: Db, id: RunId, c: Change): Reply<()>
    requires id in db.rows && id in db.events
  {
    if CanTransition(db.rows[id].status, c.target) then
      Reply(AppendEvent(db.(rows := db.rows[id := Updated(db.rows[id], c)]), id, c.kind, c.target, c.payload),
            Success(()))
    else Reply(db, Failure(InvalidTransition))
  }

  /* ---- Operations ---- */

  /** `CREATE` with an id that is already taken violates the primary key and is rolled back. */
  function CreateRun(db: Db, id: RunId): Db {
    if id in db.rows then db
    else
      var row := Row(Queued, false, None, [], None);
      AppendEvent(Db(db.order + [id], db.rows[id := row], db.events[id := []]), id, QueuedEvent, Queued, NoPayload)
  }

  /** Success(None) is the "nothing to claim" answer. */
  function ClaimRun(db: Db, id: RunId): Reply<Option<Row>>
    requires db.WellFormed()
  {
    if id !in db.rows then Reply(db, Failure(RunNotFound))
    else if db.rows[id].status != Queued then Reply(db, Success(None))
    else
      var c := if db.rows[id].cancelRequested then Plain(Cancelled, CancelledBeforeStartEvent)
               else Plain(Running, StartedEvent);
      var t := Transition(db, id, c);
      Reply(t.db, Success(Some(t.db.rows[id])))
  }

  function RequestCancel(db: Db, id: RunId): Reply<()>
    requires db.WellFormed()
  {
    if id !in db.rows then Reply(db, Failure(RunNotFound))
    else
      var row := db.rows[id];
      if row.status == Queued || row.status == ApprovalRequired then
        Transition(db, id, Plain(Cancelled, CancelledEvent))
      else if row.status == Running then
        Reply(AppendEvent(db.(rows := db.rows[id := row.(cancelRequested := true)]), id,
                          CancelRequestedEvent, Running, NoPayload),
              Success(()))
      else Reply(db, Success(()))
  }

  function RequireApproval(db: Db, id: RunId, approval: ApprovalRequest, result: string): Reply<()>
    requires db.WellFormed()
  {
    if id !in db.rows then Reply(db, Failure(RunNotFound))
    else Transition(db, id, Change(ApprovalRequired, ApprovalRequiredEvent, ApprovalPayload(approval),
                                   Put(Some(approval)), Keep, Put(Some(result))))
  }

  function WithFingerprint(approved: seq<Fingerprint>, f: Fingerprint): seq<Fingerprint> {
    if f in approved then approved else approved + [f]
  }

  function Approve(db: Db, id: RunId): Reply<()>
    requires db.WellFormed()
  {
    if id !in db.rows then Reply(db, Failure(RunNotFound))
    else
      var row := db.rows[id];
      if row.status != ApprovalRequired then Reply(db, Failure(NotAwaitingApproval))
      else if row.approval.None? then Reply(db, Failure(NoApprovalRequest))
      else Transition(db, id, Change(Queued, ApprovedEvent, RequestPayload(row.approval.value.requestId), Put(None),
                                     Put(WithFingerprint(row.approved, row.approval.value.fingerprint)), Keep))
  }

  /** A finishing event is named after the status it reaches. */
  function FinishKind(status: Status): EventKind
    requires IsTerminal(status)
  {
    match status
    case Completed => CompletedEvent
    case Failed => FailedEvent
    case Cancelled => CancelledEvent
  }

  function Finish(db: Db, id: RunId, status: Status, result: string): Reply<()>
    requires db.WellFormed()
  {
    if !IsTerminal(status) then Reply(db, Failure(NotATerminalStatus))
    else if id !in db.rows then Reply(db, Failure(RunNotFound))
    else Transition(db, id, Change(status, FinishKind(status), NoPayload, Keep, Keep, Put(Some(result))))
  }

  function WithStatus(db: Db, ids: seq<RunId>, status: Status): seq<RunId>
    requires forall id :: id in ids ==> id in db.rows
  {
    if ids == [] then []
    else
      var front := WithStatus(db, ids[..|ids| - 1], status);
      var last := ids[|ids| - 1];
      if db.rows[last].status == status then front + [last] else front
  }

  function ListQueued(db: Db): seq<RunId>
    requires db.WellFormed()
  {
    WithStatus(db, db.order, Queued)
  }

  /** One interrupted row: cancelled when a cancel was pending, otherwise written back to QUEUED. */
  function RecoverRow(db: Db, id: RunId): Db
    requires id in db.rows && id in db.events
  {
    if db.rows[id].cancelRequested then Transition(db, id, Plain(Cancelled, CancelledAfterRestartEvent)).db
    else AppendEvent(db.(rows := db.rows[id := db.rows[id].(status := Queued)]), id,
                     RequeuedAfterRestartEvent, Queued, NoPayload)
  }

  function RecoverRows(db: Db, ids: seq<RunId>): (r: Db)
    requires db.rows.Keys == db.events.Keys
    requires forall id :: id in ids ==> id in db.rows
    ensures r.rows.Keys == db.rows.Keys && r.events.Keys == db.events.Keys && r.order == db.order
  {
    if ids == [] then db
    else RecoverRow(RecoverRows(db, ids[..|ids| - 1]), ids[|ids| - 1])
  }

  /** The requeued ids, in creation order. */
  function Uncancelled(db: Db, ids: seq<RunId>): seq<RunId>
    requires forall id :: id in ids ==> id in db.rows
  {
    if ids == [] then []
    else
      var front := Uncancelled(db, ids[..|ids| - 1]);
      var last := ids[|ids| - 1];
      if db.rows[last].cancelRequested then front else front + [last]
  }

  lemma WithStatusMembers(db: Db, ids: seq<RunId>, status: Status)
    requires forall id :: id in ids ==> id in db.rows
    ensures forall id :: id in WithStatus(db, ids, status) <==> id in ids && db.rows[id].status == status
    ensures NoDuplicates(ids) ==> NoDuplicates(WithStatus(db, ids, status))
  {
    if ids != [] {
      assert ids == ids[..|ids| - 1] + [ids[|ids| - 1]];
      WithStatusMembers(db, ids[..|ids| - 1], status);
    }
  }

  /** A run earlier in the selection is earlier in the list. */
  lemma {:induction false} WithStatusOrder(db: Db, ids: seq<RunId>, status: Status, i: nat, j: nat)
    returns (p: nat, q: nat)
    requires forall id :: id in ids ==> id in db.rows
    requires i < j < |WithStatus(db, ids, status)|
    ensures p < q < |ids| && ids[p] == WithStatus(db, ids, status)[i] && ids[q] == WithStatus(db, ids, status)[j]
  {
    var n := |ids| - 1;
    var front := WithStatus(db, ids[..n], status);
    if j < |front| {
      p, q := WithStatusOrder(db, ids[..n], status, i, j);
    } else {
      q := n;
      WithStatusMembers(db, ids[..n], status);
      assert front[i] in front;
      p :| 0 <= p < n && ids[..n][p] == front[i];
    }
  }

  /** Queued runs are listed in the order in which they were created. */
  lemma QueuedInOrder(db: Db, i: nat, j: nat) returns (p: nat, q: nat)
    requires db.WellFormed() && i < j < |ListQueued(db)|
    ensures p < q < |db.order| && db.order[p] == ListQueued(db)[i] && db.order[q] == ListQueued(db)[j]
    ensures forall id :: id in ListQueued(db) <==> id in db.rows && db.rows[id].status == Queued
  {
    WithStatusMembers(db, db.order, Queued);
    p, q := WithStatusOrder(db, db.order, Queued, i, j);
  }

  function Interrupted(db: Db): (ids: seq<RunId>)
    requires db.WellFormed()
    ensures forall id :: id in ids <==> id in db.rows && db.rows[id].status == Running
    ensures NoDuplicates(ids)
  {
    WithStatusMembers(db, db.order, Running);
    WithStatus(db, db.order, Running)
  }

  /** Only the PostgreSQL store has this operation. */
  function RecoverInterrupted(db: Db): Reply<seq<RunId>>
    requires db.WellFormed()
  {
    Reply(RecoverRows(db, Interrupted(db)), Success(Uncancelled(db, Interrupted(db))))
  }

  /** Recovering one row looks at nothing but this row and its log, and changes nothing else. */
  lemma RecoverRowIsLocal(db: Db, mid: Db, id: RunId)
    requires id in db.rows && id in db.events && id in mid.rows && id in mid.events
    requires mid.rows[id] == db.rows[id] && mid.events[id] == db.events[id]
    ensures var recovered, expected := RecoverRow(mid, id), RecoverRow(db, id);
            && recovered.rows == mid.rows[id := expected.rows[id]]
            && recovered.events == mid.events[id := expected.events[id]]
  {
  }

  /** What the restart does to each row: only RUNNING rows move, each by exactly one event. */
  lemma {:induction false} RecoverEffect(db: Db, ids: seq<RunId>, id: RunId)
    requires db.rows.Keys == db.events.Keys
    requires forall x :: x in ids ==> x in db.rows && db.rows[x].status == Running
    requires NoDuplicates(ids)
    requires id in db.rows
    ensures id !in ids ==>
              && RecoverRows(db, ids).rows[id] == db.rows[id]
              && RecoverRows(db, ids).events[id] == db.events[id]
    ensures id in ids ==>
              && RecoverRows(db, ids).rows[id] == RecoverRow(db, id).rows[id]
              && RecoverRows(db, ids).events[id] == RecoverRow(db, id).events[id]
  {
    hide RecoverRow;
    if ids != [] {
      var front, last := ids[..|ids| - 1], ids[|ids| - 1];
      assert ids == front + [last];
      assert last !in front;
      RecoverEffect(db, front, id);
      RecoverEffect(db, front, last);
      RecoverRowIsLocal(db, RecoverRows(db, front), last);
    }
  }

  lemma NothingRecovered(db: Db)
    requires db.rows.Keys == db.events.Keys
    ensures RecoverRows(db, []) == db && Uncancelled(db, []) == []
  {
  }

  /** Recovery proceeds row by row. */
  lemma RecoverNext(db: Db, ids: seq<RunId>, k: nat)
    requires db.rows.Keys == db.events.Keys && k < |ids|
    requires forall id :: id in ids ==> id in db.rows
    ensures RecoverRows(db, ids[..k + 1]) == RecoverRow(RecoverRows(db, ids[..k]), ids[k])
    ensures Uncancelled(db, ids[..k + 1]) ==
            if db.rows[ids[k]].cancelRequested then Uncancelled(db, ids[..k]) else Uncancelled(db, ids[..k]) + [ids[k]]
  {
    hide RecoverRow;
    assert ids[..k + 1][..k] == ids[..k];
  }

  /** The same operations, carried out on fields one statement at a time. */
  class RunStore {
    var order: seq<RunId>
    var rows: map<RunId, Row>
    var events: map<RunId, seq<Event>>

    ghost function Contents(): Db
      reads this
    {
      Db(order, rows, events)
    }

    constructor ()
      ensures Contents() == EMPTY
    {
      order, rows, events := [], map[], map[];
    }

    method AddEvent(id: RunId, kind: EventKind, status: Status, payload: Payload)
      requires id in events
      modifies this`events
      ensures Contents() == AppendEvent(old(Contents()), id, kind, status, payload)
    {
      var log := events[id];
      var top := 0;
      for k := 0 to |log|
        invariant top == MaxSequence(log[..k])
      {
        assert log[..k + 1][..k] == log[..k];
        if log[k].sequence > top {
          top := log[k].sequence;
        }
      }
      assert log[..|log|] == log;
      events := events[id := log + [Event(top + 1, kind, status, payload)]];
    }

    method ChangeStatus(id: RunId, c: Change) returns (r: Result<(), StoreError>)
      requires id in rows && id in events
      modifies this`rows, this`events
      ensures Reply(Contents(), r) == Transition(old(Contents()), id, c)
    {
      var row := rows[id];
      if !CanTransition(row.status, c.target) {
        return Failure(InvalidTransition);
      }
      var approval := if c.approval.Put? then c.approval.value else row.approval;
      var approved := if c.approved.Put? then c.approved.value else row.approved;
      var result := if c.result.Put? then c.result.value else row.result;
      rows := rows[id := Row(c.target, row.cancelRequested, approval, approved, result)];
      AddEvent(id, c.kind, c.target, c.payload);
      r := Success(());
    }

    method Create(id: RunId)
      modifies this
      ensures Contents() == CreateRun(old(Contents()), id)
    {
      if id in rows {
        return;
      }
      order := order + [id];
      rows := rows[id := Row(Queued, false, None, [], None)];
      events := events[id := []];
      AddEvent(id, QueuedEvent, Queued, NoPayload);
    }

    method Claim(id: RunId) returns (r: Result<Option<Row>, StoreError>)
      requires Contents().WellFormed()
      modifies this`rows, this`events
      ensures Reply(Contents(), r) == ClaimRun(old(Contents()), id)
    {
      if id !in rows {
        return Failure(RunNotFound);
      }
      if rows[id].status != Queued {
        return Success(None);
      }
      if rows[id].cancelRequested {
        var _ := ChangeStatus(id, Plain(Cancelled, CancelledBeforeStartEvent));
      } else {
        var _ := ChangeStatus(id, Plain(Running, StartedEvent));
      }
      r := Success(Some(rows[id]));
    }

    method Cancel(id: RunId) returns (r: Result<(), StoreError>)
      requires Contents().WellFormed()
      modifies this`rows, this`events
      ensures Reply(Contents(), r) == RequestCancel(old(Contents()), id)
    {
      if id !in rows {
        return Failure(RunNotFound);
      }
      var status := rows[id].status;
      r := Success(());
      if status == Queued || status == ApprovalRequired {
        r := ChangeStatus(id, Plain(Cancelled, CancelledEvent));
      } else if status == Running {
        rows := rows[id := rows[id].(cancelRequested := true)];
        AddEvent(id, CancelRequestedEvent, Running, NoPayload);
      }
    }

    method Park(id: RunId, approval: ApprovalRequest, result: string) returns (r: Result<(), StoreError>)
      requires Contents().WellFormed()
      modifies this`rows, this`events
      ensures Reply(Contents(), r) == RequireApproval(old(Contents()), id, approval, result)
    {
      if id !in rows {
        return Failure(RunNotFound);
      }
      r := ChangeStatus(id, Change(ApprovalRequired, ApprovalRequiredEvent, ApprovalPayload(approval),
                                   Put(Some(approval)), Keep, Put(Some(result))));
    }

    method ApproveRun(id: RunId) returns (r: Result<(), StoreError>)
      requires Contents().WellFormed()
      modifies this`rows, this`events
      ensures Reply(Contents(), r) == Approve(old(Contents()), id)
    {
      if id !in rows {
        return Failure(RunNotFound);
      }
      var row := rows[id];
      if row.status != ApprovalRequired {
        return Failure(NotAwaitingApproval);
      }
      if row.approval.None? {
        return Failure(NoApprovalRequest);
      }
      var fingerprints := row.approved;
      if row.approval.value.fingerprint !in fingerprints {
        fingerprints := fingerprints + [row.approval.value.fingerprint];
      }
      r := ChangeStatus(id, Change(Queued, ApprovedEvent, RequestPayload(row.approval.value.requestId),
                                   Put(None), Put(fingerprints), Keep));
    }

    method Close(id: RunId, status: Status, result: string) returns (r: Result<(), StoreError>)
      requires Contents().WellFormed()
      modifies this`rows, this`events
      ensures Reply(Contents(), r) == Finish(old(Contents()), id, status, result)
    {
      if !IsTerminal(status) {
        return Failure(NotATerminalStatus);
      }
      if id !in rows {
        return Failure(RunNotFound);
      }
      r := ChangeStatus(id, Change(status, FinishKind(status), NoPayload, Keep, Keep, Put(Some(result))));
    }

    /** One iteration of the recovery loop. */
    method RecoverOne(id: RunId)
      requires id in rows && id in events && rows[id].status == Running
      modifies this`rows, this`events
      ensures Contents() == RecoverRow(old(Contents()), id)
    {
      if rows[id].cancelRequested {
        var _ := ChangeStatus(id, Plain(Cancelled, CancelledAfterRestartEvent));
      } else {
        rows := rows[id := rows[id].(status := Queued)];
        AddEvent(id, RequeuedAfterRestartEvent, Queued, NoPayload);
      }
    }

    /** Rows are read before the loop; each iteration writes one of them. */
    method Recover() returns (recovered: seq<RunId>)
      requires Contents().WellFormed()
      modifies this`rows, this`events
      ensures Reply(Contents(), Success(recovered)) == RecoverInterrupted(old(Contents()))
    {
      hide RecoverRow, RecoverRows, Uncancelled, NoDuplicates;
      ghost var start := Contents();
      var ids := Interrupted(Db(order, rows, events));
      recovered := [];
      assert RecoverRows(start, ids[..0]) == start && Uncancelled(start, ids[..0]) == [] by { NothingRecovered(start); }
      for k := 0 to |ids|
        invariant Contents() == RecoverRows(start, ids[..k])
        invariant recovered == Uncancelled(start, ids[..k])
      {
        var id := ids[k];
        PrefixHasNoDuplicates(ids, k);
        RecoverEffect(start, ids[..k], id);
        RecoverNext(start, ids, k);
        if !rows[id].cancelRequested {
          recovered := recovered + [id];
        }
        RecoverOne(id);
      }
      assert ids[..|ids|] == ids;
    }
  }
}
