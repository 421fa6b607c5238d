/** Run statuses and their transition table (webpilot/runs). */
module Runs {
  import opened Common
  import opened SafetyModels

  type RunId = nat

  datatype Status = Queued | Running | ApprovalRequired | Completed | Failed | Cancelled

  predicate IsTerminal(status: Status) {
    status == Completed || status == Failed || status == Cancelled
  }

  /** The transition table. */
  predicate CanTransition(current: Status, target: Status) {
    match current
    case Queued => target == Running || target == Cancelled
    case Running => target == ApprovalRequired || IsTerminal(target)
    case ApprovalRequired => target == Queued || target == Cancelled
    case _ => false
  }

  /**
    The table read backwards: how each status is entered. Only waiting runs are queued again, only queued
    ones start, only running ones ask, complete or fail, and whatever has not ended can be cancelled.
   */
  lemma EnteredFrom(current: Status, target: Status)
    ensures CanTransition(current, target) <==>
            || (target == Queued && current == ApprovalRequired)
            || (target == Running && current == Queued)
            || (target in {ApprovalRequired, Completed, Failed} && current == Running)
            || (target == Cancelled && current !in {Completed, Failed, Cancelled})
  {
  }

  /** One constructor per `kind` string the stores write. */
  datatype EventKind =
    | QueuedEvent
    | StartedEvent
    | CancelledBeforeStartEvent
    | CancelledEvent
    | CancelRequestedEvent
    | ApprovalRequiredEvent
    | ApprovedEvent
    | CompletedEvent
    | FailedEvent
    | CancelledAfterRestartEvent
    | RequeuedAfterRestartEvent

  datatype Payload = NoPayload | ApprovalPayload(approval: ApprovalRequest) | RequestPayload(requestId: nat)

  datatype Event = Event(sequence: nat, kind: EventKind, status: Status, payload: Payload)

  /** A row of the `runs` table, without the timestamps and the immutable request. */
  datatype Row = Row(
    status: Status,
    cancelRequested: bool,
    approval: Option<ApprovalRequest>,
    approved: seq<Fingerprint>,
    result: Option<string>)

  /** What an executor reports for a claimed run. */
  datatype Outcome =
    | Outcome(status: Status, result: string, approval: Option<ApprovalRequest>)
    | ExecutorRaised(error: string)
}
