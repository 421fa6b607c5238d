/**
  The worker and the API handlers (webpilot/service/worker.py, api.py, queue.py) as programs over
  the store. A ghost history records which protocol label each statement performs; `Valid` says that
  the program state is the protocol state after that history, so what ProtocolTheorems proves of
  every interleaving holds of these programs.
 */
module Worker {
  import opened Common
  import opened SafetyModels
  import opened Runs
  import opened RunStore
  import opened EventLog
  import opened Protocol
  import opened ProtocolTheorems
  import opened Executor
  import Tools

  /** An executor's answer respects the record it was given. */
  predicate HonestAnswer(s: System, l: Label) {
    l.ExecutorReturns? && s.phase.Executing? ==> RespectsRecord(s.phase.record, l.outcome)
  }

  /** `s` is the protocol state after the interleaving `labels`, whose executor answers are all honest. */
  ghost predicate Explains(durable: bool, labels: seq<Label>, s: System) {
    if labels == [] then s == INITIAL
    else exists before: System ::
      && Explains(durable, labels[..|labels| - 1], before)
      && before.db.WellFormed()
      && HonestAnswer(before, labels[|labels| - 1])
      && s == Step(durable, before, labels[|labels| - 1])
  }

  lemma {:induction false} ExplainedIsReached(durable: bool, labels: seq<Label>, s: System)
    requires Explains(durable, labels, s)
    ensures s == Reached(durable, labels) && Inv(INITIAL) && HonestRun(durable, INITIAL, labels)
  {
    InitialInv();
    if labels != [] {
      var front := labels[..|labels| - 1];
      var before: System :| Explains(durable, front, before) && before.db.WellFormed()
                            && HonestAnswer(before, labels[|labels| - 1])
                            && s == Step(durable, before, labels[|labels| - 1]);
      ExplainedIsReached(durable, front, before);
    }
  }

  /** What the programs below rely on between two statements. */
  lemma ExplainedFacts(durable: bool, labels: seq<Label>, s: System)
    requires Explains(durable, labels, s)
    ensures s.db.WellFormed() && OwnedRunIsRunning(s) && NoLostWakeup(s)
  {
    ExplainedIsReached(durable, labels, s);
  }

  /** What can leave the handling of one message; the consume loop survives each of them. */
  datatype WorkerError = UnknownRun | RequestArtifactFailed | ResultArtifactFailed

  lemma IdleWakeups(s: System)
    requires NoLostWakeup(s) && s.phase.Idle?
    ensures forall id :: s.db.IsQueued(id) ==> id in s.queue || id in s.handlers
  {
    forall id | s.db.IsQueued(id) ensures id in s.queue || id in s.handlers {
      assert WakeupPending(s, id);
    }
  }

  lemma ClaimedRows(db: Db, id: RunId)
    requires db.WellFormed()
    ensures var c := ClaimRun(db, id);
            && (c.result.Failure? <==> id !in db.rows) && (c.result.Failure? ==> c.db == db)
            && (c.result.Success? && c.result.value.Some? ==> id in c.db.rows && c.db.rows[id] == c.result.value.value)
  {
    hide ClaimRun, ClaimedRow, NextEvent, NoDuplicates;
    ClaimWrites(db, id);
  }

  lemma ClosedRows(db: Db, id: RunId, outcome: Outcome, cancelSeen: bool)
    requires db.WellFormed() && id in db.rows && db.rows[id].status == Running
    ensures var c := ClosingReply(db, id, outcome, cancelSeen);
            c.result == Success(()) && id in c.db.rows && c.db.rows[id].status != Running
  {
    hide ClosingReply, NextEvent, NoDuplicates, ClosingWriteOf;
    ClosingWrites(db, id, outcome, cancelSeen);
    ClosingStatus(db.rows[id], outcome, cancelSeen);
    NeverClosesRunning(outcome, cancelSeen);
  }

  class RunService {
    const durable: bool
    const store: RunStore
    const executor: WebPilotRunExecutor
    const requests: RunId -> Request
    var queue: seq<RunId>
    var active: nat
    var handlers: multiset<RunId>
    ghost var history: seq<Label>
    ghost var system: System

    ghost predicate Valid()
      reads this, store
    {
      && Explains(durable, history, system)
      && executor.Valid() && (forall id :: requests(id).maxSteps > 0)
      && system.db == store.Contents()
      && system.db.WellFormed()
      && OwnedRunIsRunning(system)
      && system.queue == multiset(queue)
      && system.handlers == handlers
    }

    constructor (durable: bool, executor: WebPilotRunExecutor, requests: RunId -> Request)
      requires executor.Valid() && forall id :: requests(id).maxSteps > 0
      ensures Valid() && fresh(store)
      ensures system == INITIAL && active == 0 && this.durable == durable
    {
      this.durable, this.executor, this.requests := durable, executor, requests;
      store := new RunStore();
      queue, active, handlers, history, system := [], 0, multiset{}, [], INITIAL;
    }

    ghost method Advance(l: Label)
      requires Explains(durable, history, system) && system.db.WellFormed() && HonestAnswer(system, l)
      modifies this`history, this`system
      ensures history == old(history) + [l]
      ensures system == Step(durable, old(system), l)
      ensures Explains(durable, history, system) && system.db.WellFormed() && OwnedRunIsRunning(system)
    {
      system := Step(durable, system, l);
      history := history + [l];
      assert history[..|history| - 1] == old(history);
      ExplainedFacts(durable, history, system);
    }

    /* ---- API handlers: commit first, notify afterwards ---- */

    method CommitCreate(id: RunId)
      requires Valid() && id !in system.db.rows
      modifies this`history, this`system, this`handlers, store
      ensures Valid() && history == old(history) + [ApiCreate(id)]
      ensures system.phase == old(system).phase
    {
      hide Explains, Step, OwnedRunIsRunning, NoDuplicates, CreateRun;
      ApiSteps(durable, system, id);
      store.Create(id);
      handlers := handlers + multiset{id};
      Advance(ApiCreate(id));
    }

    method CommitCancel(id: RunId)
      requires Valid()
      modifies this`history, this`system, store
      ensures Valid() && history == old(history) + [ApiCancel(id)]
      ensures system.phase == old(system).phase
    {
      hide WebPilotRunExecutor.Valid;
      hide Explains, Step, OwnedRunIsRunning, NoDuplicates, RequestCancel;
      ApiSteps(durable, system, id);
      var _ := store.Cancel(id);
      Advance(ApiCancel(id));
    }

    method CommitApprove(id: RunId)
      requires Valid()
      modifies this`history, this`system, this`handlers, store
      ensures Valid() && history == old(history) + [ApiApprove(id)]
      ensures system.phase == old(system).phase
    {
      hide WebPilotRunExecutor.Valid;
      hide Explains, Step, OwnedRunIsRunning, NoDuplicates, Approve, Write;
      ApiSteps(durable, system, id);
      ApproveWrites(system.db, id);
      var r := store.ApproveRun(id);
      if r.Success? {
        handlers := handlers + multiset{id};
      }
      Advance(ApiApprove(id));
    }

    method Notify(id: RunId)
      requires Valid() && id in system.handlers
      modifies this`history, this`system, this`queue, this`handlers
      ensures Valid() && history == old(history) + [ApiNotify(id)]
      ensures system.phase == old(system).phase
    {
      hide Explains, Step, OwnedRunIsRunning, NoDuplicates;
      QueueSteps(durable, system, id);
      handlers := handlers - multiset{id};
      queue := queue + [id];
      Advance(ApiNotify(id));
    }

    method Stray(id: RunId)
      requires Valid()
      modifies this`history, this`system, this`queue
      ensures Valid() && history == old(history) + [StrayNotification(id)]
      ensures system.phase == old(system).phase
    {
      hide Explains, Step, OwnedRunIsRunning, NoDuplicates;
      QueueSteps(durable, system, id);
      queue := queue + [id];
      Advance(StrayNotification(id));
    }

    /** Any number of API activities, while the worker waits. */
    method Interfere()
      requires Valid()
      modifies this`history, this`system, this`queue, this`handlers, store
      ensures Valid() && old(history) <= history
      ensures system.phase == old(system).phase
    {
      hide Explains;
      var steps: int := *;
      for k := 0 to if steps > 0 then steps else 0
        invariant Valid() && old(history) <= history
        invariant system.phase == old(system).phase
      {
        var choice: int := *;
        var id: nat := *;
        if choice == 0 {
          if id !in store.rows {
            CommitCreate(id);
          }
        } else if choice == 1 {
          CommitCancel(id);
        } else if choice == 2 {
          CommitApprove(id);
        } else if choice == 3 {
          Stray(id);
        } else {
          if id in handlers {
            Notify(id);
          }
        }
      }
    }

    /* ---- The worker ---- */

    /** The transaction that claims; a record means that the run is now RUNNING. */
    method ClaimInStore(id: RunId) returns (record: Option<Row>, r: Result<(), WorkerError>)
      requires Valid() && system.phase == Holding(id)
      modifies this`history, this`system, store
      ensures Valid() && history == old(history) + [Label.Claim]
      ensures record.Some? ==>
                && system.phase == Claimed(id, record.value) && r == Success(())
                && id in system.db.rows && system.db.rows[id] == record.value && record.value.status == Running
      ensures record.None? ==> system.phase == Idle
      ensures r.Failure? ==> r.error == UnknownRun
      ensures r.Failure? <==> id !in old(system.db.rows)
      ensures r.Failure? ==> system.db == old(system.db)
    {
      hide Explains, Step, OwnedRunIsRunning, NoDuplicates, ClaimRun, Write;
      Protocol.ClaimStep(durable, system);
      ClaimedRows(system.db, id);
      var claim := store.Claim(id);
      Advance(Label.Claim);
      record := None;
      if claim.Success? && claim.value.Some? && claim.value.value.status == Running {
        record := claim.value;
      }
      r := if claim.Success? then Success(()) else Failure(UnknownRun);
    }

    /**
      Claims the run and writes its request artifact; a record means that the executor is to be called
      with it. When the artifact cannot be written the run is left RUNNING and the error goes up.
     */
    method TryClaim(id: RunId) returns (record: Option<Row>, r: Result<(), WorkerError>)
      requires Valid() && system.phase == Holding(id)
      modifies this`history, this`system, store
      ensures Valid() && old(history) + [Label.Claim] <= history
      ensures record.Some? ==> system.phase == Executing(id, record.value) && r == Success(())
      ensures record.None? ==> system.phase == Idle
      ensures r == Failure(UnknownRun) <==> id !in old(system.db.rows)
      ensures r == Failure(UnknownRun) ==> history == old(history) + [Label.Claim] && system.db == old(system.db)
      ensures r == Failure(RequestArtifactFailed) ==>
                && history == old(history) + [Label.Claim, WriteArtifact(false)]
                && id in system.db.rows && system.db.rows[id].status == Running
      ensures r != Failure(ResultArtifactFailed)
      ensures record.None? && r.Success? ==> history == old(history) + [Label.Claim]
    {
      hide WebPilotRunExecutor.Valid;
      hide Explains, Step, OwnedRunIsRunning, NoDuplicates;
      record, r := ClaimInStore(id);
      if record.Some? {
        ExecutionSteps(durable, system, ExecutorRaised(""));
        var written: bool := *;
        Advance(WriteArtifact(written));
        if !written {
          record, r := None, Failure(RequestArtifactFailed);
        }
      }
    }

    /** One execution in a world of its own; a cancel request already recorded is seen before anything starts. */
    method Answer(record: Row, request: Request, cancelRequested: bool) returns (outcome: Outcome)
      requires executor.Valid() && request.maxSteps > 0
      ensures RespectsRecord(record, outcome)
      ensures cancelRequested ==> outcome.Outcome? && outcome.status == Cancelled
    {
      var world := new Tools.World();
      if cancelRequested {
        world.RequestCancel(ApprovedOf(record));
      }
      var answer, _ := executor.Execute(record, request, world);
      outcome := answer;
    }

    /** The executor works on the claimed record while the API stays active. */
    method CallExecutor(id: RunId, record: Row) returns (outcome: Outcome)
      requires Valid() && system.phase == Executing(id, record)
      modifies this`history, this`system, this`queue, this`handlers, store
      ensures Valid() && old(history) <= history
      ensures system.phase == Decided(id, record, outcome)
    {
      hide Explains, Step, NoDuplicates;
      Interfere();
      outcome := Answer(record, requests(id), store.rows[id].cancelRequested);
      ExecutionSteps(durable, system, outcome);
      Advance(ExecutorReturns(outcome));
    }

    /** After the executor's answer the worker takes its last look at the cancel flag. */
    method AwaitOutcome(id: RunId, record: Row) returns (outcome: Outcome, cancelSeen: bool)
      requires Valid() && system.phase == Executing(id, record)
      modifies this`history, this`system, this`queue, this`handlers, store
      ensures Valid() && old(history) <= history
      ensures system.phase == Closing(id, record, outcome, cancelSeen)
    {
      hide WebPilotRunExecutor.Valid;
      hide Explains, Step, NoDuplicates;
      outcome := CallExecutor(id, record);
      Interfere();
      cancelSeen := store.rows[id].cancelRequested;
      ExecutionSteps(durable, system, outcome);
      Advance(ReadCancelFlag);
    }

    /** The closing branch chain, transaction by transaction. */
    method CloseInStore(id: RunId, outcome: Outcome, cancelSeen: bool) returns (r: Result<(), StoreError>)
      requires store.Contents().WellFormed()
      modifies store
      ensures Reply(store.Contents(), r) == ClosingReply(old(store.Contents()), id, outcome, cancelSeen)
    {
      hide Finish, RequireApproval, NoDuplicates;
      var status := if outcome.Outcome? then outcome.status else Failed;
      var payload := if outcome.Outcome? then outcome.result else outcome.error;
      var approval := if outcome.Outcome? then outcome.approval else None;
      if cancelSeen || status == Cancelled {
        r := store.Close(id, Cancelled, payload);
      } else if status == ApprovalRequired {
        if approval.None? {
          r := store.Close(id, Failed, NO_APPROVAL_PAYLOAD);
        } else {
          r := store.Park(id, approval.value, payload);
        }
      } else if status == Completed {
        r := store.Close(id, Completed, payload);
      } else {
        r := store.Close(id, Failed, payload);
      }
    }

    /** The store accepts whichever closing transition the worker chooses. */
    method Conclude(id: RunId, outcome: Outcome, cancelSeen: bool) returns (r: Result<(), StoreError>)
      requires Valid()
      requires system.phase.Closing? && system.phase.id == id
      requires system.phase.outcome == outcome && system.phase.cancelSeen == cancelSeen
      modifies this`history, this`system, store
      ensures Valid() && history == old(history) + [CloseRun]
      ensures system.phase == Idle && r == Success(())
      ensures id in system.db.rows && system.db.rows[id].status != Running
    {
      hide Explains, Step, NoDuplicates, ClosingReply, ClosingWriteOf, Write;
      ClosedRows(system.db, id, outcome, cancelSeen);
      CloseStep(durable, system);
      r := CloseInStore(id, outcome, cancelSeen);
      Advance(CloseRun);
    }

    /**
      A message ends handled or in an error: an unknown run; a request artifact that was not written,
      which leaves the claimed run RUNNING and its executor uncalled; or a result artifact that was not
      written, which comes after the run has been closed.
     */
    method ExecuteOne(id: RunId) returns (r: Result<(), WorkerError>)
      requires Valid() && system.phase == Holding(id)
      modifies this`history, this`system, this`queue, this`handlers, store
      ensures Valid() && old(history) + [Label.Claim] <= history
      ensures system.phase == Idle
      ensures r == Failure(UnknownRun) <==> id !in old(system.db.rows)
      ensures r == Failure(UnknownRun) ==> history == old(history) + [Label.Claim] && system.db == old(system.db)
      ensures r == Failure(RequestArtifactFailed) ==>
                && history == old(history) + [Label.Claim, WriteArtifact(false)]
                && id in system.db.rows && system.db.rows[id].status == Running
      ensures r.Success? ==> history == old(history) + [Label.Claim] || history[|history| - 1] == CloseRun
      ensures r == Failure(ResultArtifactFailed) ==>
                && history[|history| - 1] == CloseRun
                && id in system.db.rows && system.db.rows[id].status != Running
    {
      hide Explains, Step, OwnedRunIsRunning, NoDuplicates;
      var record;
      record, r := TryClaim(id);
      if record.Some? {
        var outcome, cancelSeen := AwaitOutcome(id, record.value);
        Interfere();
        var _ := Conclude(id, outcome, cancelSeen);
        var written: bool := *;
        r := if written then Success(()) else Failure(ResultArtifactFailed);
      }
    }

    /** Takes the first notification off the queue. */
    method TakeFirst() returns (id: RunId)
      requires Valid() && system.phase == Idle && queue != []
      modifies this`history, this`system, this`queue
      ensures Valid() && id == old(queue)[0] && history == old(history) + [Dequeue(id)]
      ensures system.phase == Holding(id)
    {
      hide WebPilotRunExecutor.Valid;
      hide Explains, Step, OwnedRunIsRunning, NoDuplicates;
      id := queue[0];
      QueueSteps(durable, system, id);
      HeadMultiset(queue);
      queue := queue[1..];
      Advance(Dequeue(id));
    }

    /** One turn of the consume loop: a raised error is confined to the message it belongs to. */
    method ConsumeOne()
      requires Valid() && system.phase == Idle && queue != []
      modifies this, store
      ensures Valid() && old(history) + [Dequeue(old(queue)[0])] <= history
      ensures system.phase == Idle && active == old(active)
    {
      hide Explains, Step, OwnedRunIsRunning, NoDuplicates;
      var id := TakeFirst();
      active := active + 1;
      var _ := ExecuteOne(id);
      active := active - 1;
    }

    method RecoverRuns() returns (recovered: seq<RunId>)
      requires Valid() && system.phase == Down
      modifies this`history, this`system, store
      ensures Valid() && history == old(history) + [Recover]
      ensures system.phase == Recovered(recovered)
    {
      hide Explains, Step, OwnedRunIsRunning, NoDuplicates, RecoverInterrupted;
      RecoverStep(durable, system);
      recovered := [];
      if durable {
        recovered := store.Recover();
      }
      Advance(Recover);
    }

    method ListRuns(recovered: seq<RunId>) returns (pending: seq<RunId>)
      requires Valid() && system.phase == Recovered(recovered)
      modifies this`history, this`system
      ensures Valid() && history == old(history) + [ListQueuedRuns]
      ensures system.phase == Notifying(pending)
    {
      hide Explains, Step, OwnedRunIsRunning, NoDuplicates, ListQueued;
      StartSteps(durable, system);
      pending := recovered + ListQueued(Db(store.order, store.rows, store.events));
      Advance(ListQueuedRuns);
    }

    method NotifyOne(id: RunId, ghost rest: seq<RunId>)
      requires Valid() && system.phase == Notifying([id] + rest)
      modifies this`history, this`system, this`queue
      ensures Valid() && history == old(history) + [NotifyNext]
      ensures system.phase == Notifying(rest)
    {
      hide Explains, Step, OwnedRunIsRunning, NoDuplicates;
      StartSteps(durable, system);
      assert ([id] + rest)[1..] == rest;
      queue := queue + [id];
      Advance(NotifyNext);
    }

    /** One notification per run, with API activity in between. */
    method NotifyAll(pending: seq<RunId>)
      requires Valid() && system.phase == Notifying(pending)
      modifies this`history, this`system, this`queue, this`handlers, store
      ensures Valid() && old(history) <= history
      ensures system.phase == Notifying([])
    {
      hide WebPilotRunExecutor.Valid;
      hide Explains, Step, OwnedRunIsRunning, NoDuplicates;
      for k := 0 to |pending|
        invariant Valid() && old(history) <= history
        invariant system.phase == Notifying(pending[k..])
      {
        Interfere();
        assert pending[k..] == [pending[k]] + pending[k + 1..];
        NotifyOne(pending[k], pending[k + 1..]);
      }
    }

    /** The consume loop takes over; every queued run has its wake-up. */
    method FinishStarting()
      requires Valid() && system.phase == Notifying([])
      modifies this`history, this`system
      ensures Valid() && history == old(history) + [FinishStart] && system.phase == Idle
      ensures forall id :: system.db.IsQueued(id) ==> id in queue || id in handlers
    {
      hide Explains, Step, OwnedRunIsRunning, NoDuplicates, NoLostWakeup;
      StartSteps(durable, system);
      Advance(FinishStart);
      ExplainedFacts(durable, history, system);
      IdleWakeups(system);
    }

    /** Recovery, listing and one notification per run; API activity may fall in between. */
    method Start()
      requires Valid() && system.phase == Down
      modifies this`history, this`system, this`queue, this`handlers, store
      ensures Valid() && old(history) + [Recover] <= history
      ensures system.phase == Idle
      ensures forall id :: system.db.IsQueued(id) ==> id in queue || id in handlers
    {
      hide WebPilotRunExecutor.Valid;
      hide Explains, Step, OwnedRunIsRunning, NoDuplicates;
      var recovered := RecoverRuns();
      Interfere();
      var pending := ListRuns(recovered);
      NotifyAll(pending);
      FinishStarting();
    }

    /**
      Approval makes progress, end to end: with the real executor behind the worker, a run's approved
      list is duplicate free, grows by one with every approval, and a run pauses at most once for
      each risky fingerprint.
     */
    lemma ApprovalsMakeProgress(id: RunId, risky: set<Fingerprint>)
      requires Valid() && id in store.rows && id in store.events
      requires forall f :: f in RequestedFingerprints(store.events[id]) ==> f in risky
      ensures NoDuplicates(RequestedFingerprints(store.events[id]))
                && |RequestedFingerprints(store.events[id])| <= |risky|
      ensures NoDuplicates(store.rows[id].approved) && |store.rows[id].approved| == Approvals(store.events[id])
    {
      hide Explains;
      ExplainedIsReached(durable, history, system);
      ApprovalMakesProgress(durable, history, id, risky);
    }

    /** The process dies: queued notifications and pending handlers may be lost, the store survives. */
    method Crash(keptQueue: seq<RunId>, keptHandlers: multiset<RunId>)
      requires Valid() && multiset(keptQueue) <= multiset(queue) && keptHandlers <= handlers
      modifies this
      ensures Valid() && old(history) <= history
      ensures system.phase == Down
    {
      hide Explains, Step, OwnedRunIsRunning, NoDuplicates;
      CrashStep(durable, system, multiset(keptQueue), keptHandlers);
      Advance(Label.Crash(multiset(keptQueue), keptHandlers));
      queue, handlers, active := keptQueue, keptHandlers, 0;
    }
  }
}
