/** From a claimed run to the planned agent and back (webpilot/service/executor.py). */
module Executor {
  import opened Common
  import opened SafetyModels
  import opened Runs
  import opened Locator
  import opened Healing
  import opened Tools
  import opened AgentLoop
  import opened RunLog
  import opened PlannedLoop
  import opened ProtocolTheorems
  import opened RunTheorems
  import opened Plans
  import Planner
  import PlanNormalizer

  datatype Variant = Full | SingleAgent | NoVerifier | NoRecovery | NoSelfHealing

  /** `acceptance` is the benchmark state named in the goal, empty when there is none. */
  datatype Request = Request(
    goal: string,
    targetUrl: string,
    maxSteps: nat,
    maxRetries: nat,
    variant: Variant,
    acceptance: PlanNormalizer.Fields)

  /** What is written to the workflow artifact of a planned run. */
  datatype Report = Report(outcome: RunOutcome, logs: Option<RunLogs>)

  function ConfigOf(request: Request): Config {
    Config(request.variant != NoVerifier, request.variant != NoRecovery, request.maxRetries, true, request.maxSteps,
           request.acceptance)
  }

  function ApprovedOf(record: Row): set<Fingerprint> {
    set f | f in record.approved
  }

  /** A planned run that passed completed; nothing else does, except a single-agent run. */
  ghost predicate Completes(request: Request, report: Option<Report>) {
    && report.Some? && report.value.outcome == Returned(Passed, None)
    && report.value.logs.Some? && report.value.logs.value.plans != []
    && LogsAt(ConfigOf(request), report.value.logs.value, |report.value.logs.value.Plan().steps|, 0)
    && (request.variant == NoRecovery ==> report.value.logs.value.recoveries == [])
    && (request.variant == NoVerifier ==> report.value.logs.value.verifications == [])
  }

  /** Without a verifier a passed run has recorded no verification. */
  lemma UnverifiedRun(c: Config, l: RunLogs)
    requires l.plans != [] && LogsAt(c, l, |l.Plan().steps|, 0) && !c.enableVerifier
    ensures l.verifications == []
  {
    hide PlansShape, CausesShown, LedgerShape, RunsShape, AllActions, Causes, OperationsDone, AllCompleted;
  }

  /**
    What COMPLETED is worth: unless the variant runs without a verifier or without a plan, every criterion
    of every step of the final plan has passing evidence, and the plan has the benchmark's controls.
   */
  lemma CompletedMeansVerified(request: Request, report: Option<Report>)
    requires Completes(request, report) && request.variant != NoVerifier && request.variant != SingleAgent
    ensures var l := report.value.logs.value;
            && EveryCriterionShown(l) && Planner.SnapshotPlan(l.Plan(), request.acceptance)
            && |l.recoveries| <= request.maxRetries && |l.plans| <= request.maxRetries + 1
  {
    hide EveryCriterionShown, Planner.SnapshotPlan, VerificationShape, CausesShown, AllActions, OperationsDone,
         ValidPlan, VerifiedUpTo, Causes;
    PassedMeansShown(ConfigOf(request), report.value.logs.value);
    PlansAreBounded(ConfigOf(request), report.value.logs.value);
  }

  class WebPilotRunExecutor {
    const healer: Healer
    const text: PlanNormalizer.Json -> string

    ghost predicate Valid() {
      IsRatio(healer.ratio) && Planner.LeavesStrings(text)
    }

    constructor (healer: Healer, text: PlanNormalizer.Json -> string)
      requires IsRatio(healer.ratio) && Planner.LeavesStrings(text)
      ensures Valid() && this.healer == healer
    {
      this.healer, this.text := healer, text;
    }

    /** The status an ended planned run is reported under. */
    function StatusOf(status: RunStatus): Status {
      match status
      case Passed => Completed
      case ApprovalPending => ApprovalRequired
      case RunCancelled => Cancelled
      case _ => Failed
    }

    /** Gate, tools and agent for one execution. */
    method Prepare(request: Request, world: World, approved: set<Fingerprint>) returns (agent: SingleBrowserAgent)
      requires Valid() && request.maxSteps > 0 && world.Sound(approved) && Audits(world.trace) == []
      ensures agent.Valid() && fresh(agent) && fresh(agent.tools) && fresh(agent.tools.gate) && agent.world == world
      ensures agent.maxSteps == request.maxSteps && agent.approved == approved
      ensures agent.healer.None? <==> request.variant == NoSelfHealing
      ensures agent.healer.Some? ==> agent.healer.value == healer
    {
      var gate := new SafetyGate(world, approved);
      var tools := new BrowserToolExecutor(gate);
      var locator := if request.variant == NoSelfHealing then None else Some(healer);
      agent := new SingleBrowserAgent(tools, request.maxSteps, locator);
    }

    /**
      Without a plan an approval request is a failure like any other, and a run has completed
      exactly when the actor's last decision was that it is done.
     */
    method ExecuteSingle(agent: SingleBrowserAgent, request: Request)
      returns (outcome: Outcome, ghost decisions: seq<Decision>)
      requires agent.Valid()
      modifies agent.world, agent.tools.gate`records
      ensures agent.Valid() && forall s :: Late(agent.world.trace, s) <= Late(old(agent.world.trace), s) + 1
      ensures outcome.Outcome? ==> outcome.status in {Completed, Failed} && outcome.approval.None?
      ensures outcome.Outcome? ==>
                (outcome.status == Completed <==> decisions != [] && decisions[|decisions| - 1].Done?)
    {
      var run;
      run, decisions := agent.Run(request.goal, request.targetUrl, None, false);
      if !run.Finished? {
        return ExecutorRaised("single agent"), decisions;
      }
      outcome := Outcome(if run.result.status == AgentCompleted then Completed else Failed, "", None);
    }

    method ExecutePlanned(agent: SingleBrowserAgent, record: Row, request: Request)
      returns (outcome: Outcome, report: Option<Report>)
      requires Valid() && agent.Valid() && agent.maxSteps == request.maxSteps && agent.approved == ApprovedOf(record)
      modifies agent.world, agent.tools.gate`records
      ensures agent.Valid() && RespectsRecord(record, outcome)
      ensures forall s :: s != Bootstrap ==> Late(agent.world.trace, s) <= Late(old(agent.world.trace), s) + 1
      ensures outcome.Outcome? ==> report.Some? && report.value.outcome.Returned?
                                   && outcome.status == StatusOf(report.value.outcome.status)
      ensures outcome.Outcome? ==>
                && (outcome.status == Completed <==> report.value.outcome.status == Passed)
                && (outcome.status == ApprovalRequired <==> report.value.outcome.status == ApprovalPending)
                && (outcome.status == Cancelled <==> report.value.outcome.status == RunCancelled)
                && (outcome.status == Failed <==>
                      report.value.outcome.status in
                        {PlanError, ExecutionError, VerificationFailed, RecoveryExhausted})
      ensures outcome.Outcome? && report.value.outcome.status in {ExecutionError, VerificationFailed} ==>
                request.variant == NoRecovery
      ensures outcome.Outcome? && report.value.outcome.status == RecoveryExhausted ==> request.variant != NoRecovery
      ensures outcome.Outcome? ==> (outcome.status == ApprovalRequired <==> outcome.approval.Some?)
      ensures outcome.Outcome? && outcome.status == Completed ==> Completes(request, report)
      ensures outcome.Outcome? && outcome.status == Cancelled ==> agent.world.cancelled
    {
      hide LogsAt, LogsSound, Causes, Stopped;
      var workflow := new PlannedBrowserAgent(agent, ConfigOf(request), text);
      var ended, state := workflow.Run(request.goal, request.targetUrl);
      var written: bool := *;
      if ended.Left? || !written {
        return ExecutorRaised("workflow"), None;
      }
      if ended.Returned? && ended.status == Passed && request.variant == NoVerifier {
        UnverifiedRun(ConfigOf(request), state.Logs());
      }
      report := Some(Report(ended, if state == null then None else Some(state.Logs())));
      var approval := if ended.status == ApprovalPending then state.approval else None;
      outcome := Outcome(StatusOf(ended.status), "", approval);
    }

    /**
      The executor never asks for an approval that the record already holds, asks for one whenever it
      reports that it needs one, and reports completion only for a passed run; `report` is what the
      artifact says, when one is written. A run cancelled before it starts touches nothing. Every
      effect is authorised by the record's approvals, and after cancellation at most one decided and
      one healed call is made.
     */
    method Execute(record: Row, request: Request, world: World) returns (outcome: Outcome, report: Option<Report>)
      requires Valid() && request.maxSteps > 0 && world.Sound(ApprovedOf(record)) && Audits(world.trace) == []
      modifies world
      ensures RespectsRecord(record, outcome)
      ensures old(world.cancelled) ==>
                outcome.Outcome? && outcome.status == Cancelled && world.trace == old(world.trace)
      ensures outcome.Outcome? ==> outcome.status in {Completed, Failed, Cancelled, ApprovalRequired}
      ensures outcome.Outcome? ==> (outcome.status == ApprovalRequired <==> outcome.approval.Some?)
      ensures outcome.Outcome? && outcome.status == Cancelled ==> world.cancelled
      ensures outcome.Outcome? && outcome.status == Completed && request.variant != SingleAgent ==>
                Completes(request, report)
      ensures outcome.Outcome? && request.variant == SingleAgent ==> outcome.status in {Completed, Failed, Cancelled}
      ensures world.Sound(ApprovedOf(record))
      ensures forall s :: s != Bootstrap ==> Late(world.trace, s) <= Late(old(world.trace), s) + 1
    {
      hide LogsAt, Ending, LogsSound, Attempts, Late, Audits, Effects, Authorised, CancelledIn;
      report := None;
      if world.cancelled {
        return Outcome(Cancelled, "cancelled before browser startup", None), None;
      }
      var configured: bool, started: bool := *, *;
      if !configured {
        return Outcome(Failed, "LLM configuration error", None), None;
      }
      var agent := Prepare(request, world, ApprovedOf(record));
      if !started {
        return ExecutorRaised("browser startup"), None;
      }
      if request.variant == SingleAgent {
        ghost var decisions;
        outcome, decisions := ExecuteSingle(agent, request);
      } else {
        outcome, report := ExecutePlanned(agent, record, request);
      }
    }
  }
}
