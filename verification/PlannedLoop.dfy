/** The planned agent: plan, act, verify, recover (webpilot/agents/planned_loop.py). */
module PlannedLoop {
  import opened Common
  import opened SafetyModels
  import opened Plans
  import opened Browser
  import opened Verifier
  import opened Recovery
  import opened Tools
  import opened AgentLoop
  import opened RunLog
  import Planner
  import PlanNormalizer

  datatype StateStatus = RunningState | CompletedState | FailedState | CancelledState | ApprovalState

  /** The run state, with the list of step runs that is kept beside it. */
  class Day4RunState {
    var plan: TestPlan
    var planAttempt: nat
    var planHistory: seq<PlanAttempt>
    var currentStepIndex: nat
    var history: seq<ActionEntry>
    var verification: Option<VerificationResult>
    var stepVerifications: seq<StepVerification>
    var recoveryHistory: seq<RecoveryRecord>
    var approval: Option<ApprovalRequest>
    var status: StateStatus
    var stepRuns: seq<StepRun>

    function Logs(): RunLogs
      reads this
    {
      RunLogs(planHistory, stepRuns, history, stepVerifications, recoveryHistory)
    }

    /** The validator's condition, and the plan being the newest one in the history. */
    ghost predicate Valid()
      reads this
    {
      && currentStepIndex <= |plan.steps|
      && planHistory != [] && plan == Logs().Plan() && planAttempt == |planHistory|
    }

    constructor (plan: TestPlan)
      ensures Valid() && this.plan == plan && status == RunningState && currentStepIndex == 0
      ensures Logs() == RunLogs([PlanAttempt(1, Initial, plan)], [], [], [], []) && approval.None?
    {
      this.plan, planAttempt, planHistory := plan, 1, [PlanAttempt(1, Initial, plan)];
      currentStepIndex, history, verification, stepVerifications := 0, [], None, [];
      recoveryHistory, approval, status, stepRuns := [], None, RunningState, [];
    }

    /** Every assignment is validated; a plan too short for the current index is refused. */
    method AssignPlan(plan: TestPlan) returns (ok: bool)
      modifies this`plan
      ensures ok <==> currentStepIndex <= |plan.steps|
      ensures this.plan == if ok then plan else old(this.plan)
    {
      ok := currentStepIndex <= |plan.steps|;
      if ok {
        this.plan := plan;
      }
    }

    method AssignIndex(index: nat) returns (ok: bool)
      modifies this`currentStepIndex
      ensures ok <==> index <= |plan.steps|
      ensures currentStepIndex == if ok then index else old(currentStepIndex)
    {
      ok := index <= |plan.steps|;
      if ok {
        currentStepIndex := index;
      }
    }
  }

  datatype StepFailure = StepFailure(
    failure: FailureEvent, index: nat, approval: Option<ApprovalRequest>, cancelled: bool)

  datatype AttemptOutcome = AttemptDone | AttemptFailed(failure: StepFailure) | AttemptRaised(reason: Escape)

  datatype RecoveryStep = RetryStep | NewPlan | StopRun | RecoveryRaised

  datatype ReplanOutcome = PlanAdopted | PlanRejected | ReplanRaised(reason: Escape)

  datatype RunStatus =
    | Passed
    | PlanError
    | ExecutionError
    | VerificationFailed
    | RecoveryExhausted
    | ApprovalPending
    | RunCancelled

  /** The exceptions that leave a planned run. */
  datatype Escape = ObservationFailed | StateInvalid | BlankGoal

  datatype RunOutcome = Returned(status: RunStatus, failedStep: Option<nat>) | Left(reason: Escape)

  /** A goal of blanks passes validation, but no agent will work on it. */
  predicate HasBlankGoal(plan: TestPlan) {
    exists k | 0 <= k < |plan.steps| :: Strip(plan.steps[k].goal) == ""
  }

  predicate IsVerificationFailure(t: FailureType) {
    t == WrongPage || t == AssertionFailed
  }

  /** What the logs say about a step failure that is about to be handled. */
  ghost predicate FailureShown(c: Config, l: RunLogs, f: StepFailure, approved: set<Fingerprint>) {
    && LogsSound(c, l, |l.recoveries|) && |Causes(l.recoveries)| == |l.plans| - 1
    && f.index < |l.Plan().steps| && f.failure.stepId == l.Plan().steps[f.index].id
    && f.failure.retryCount == |l.recoveries|
    && (if IsVerificationFailure(f.failure.failureType)
        then c.enableVerifier && EndedIn(EntriesOf(l.verifications, |l.plans|), f.failure) && !f.cancelled
            && f.approval.None?
        else LogsAt(c, l, f.index, 1))
    && (f.approval.Some? ==> f.approval.value.fingerprint !in approved && !f.cancelled)
  }

  /** The record of a recovery decided for `f`. */
  function RecordFor(l: RunLogs, f: FailureEvent, decision: RecoveryDecision): RecoveryRecord {
    RecoveryRecord(|l.plans|, f.stepId, f, decision, |l.recoveries| + if decision.consumeRetry then 1 else 0)
  }

  /** What the logs allow next, once the decision about a failure has been recorded. */
  ghost predicate Recorded(c: Config, l: RunLogs, f: StepFailure, decision: RecoveryDecision) {
    && l.recoveries != [] && l.recoveries[|l.recoveries| - 1].stepId == f.failure.stepId
    && match decision.action
       case Stop =>
         && Stopped(l.recoveries) && LogsSound(c, l, |l.recoveries| - 1)
         && |Causes(l.recoveries)| == |l.plans| - 1
       case Replan =>
         && LogsSound(c, l, |l.recoveries|) && !Stopped(l.recoveries)
         && |Causes(l.recoveries)| == |l.plans| && Causes(l.recoveries)[|l.plans| - 1] == f.failure
       case _ => LogsAt(c, l, f.index, 0) && !Stopped(l.recoveries)
  }

  /** Retries used: every recovery but a stop costs one. */
  function Used(recs: seq<RecoveryRecord>): nat {
    if Stopped(recs) then |recs| - 1 else |recs|
  }

  lemma RecordedFacts(c: Config, l: RunLogs, f: StepFailure, decision: RecoveryDecision)
    requires Recorded(c, l, f, decision)
    ensures LogsSound(c, l, Used(l.recoveries)) && (Stopped(l.recoveries) <==> decision.action == Stop)
    ensures l.plans != [] && l.recoveries != [] && l.recoveries[|l.recoveries| - 1].stepId == f.failure.stepId
    ensures match decision.action
            case Stop => |Causes(l.recoveries)| == |l.plans| - 1
            case Replan => |Causes(l.recoveries)| == |l.plans| && Causes(l.recoveries)[|l.plans| - 1] == f.failure
            case _ => LogsAt(c, l, f.index, 0) && f.index <= |l.Plan().steps|
  {
  }

  lemma RecordingRecovery(c: Config, l: RunLogs, f: StepFailure, approved: set<Fingerprint>, decision: RecoveryDecision)
    requires FailureShown(c, l, f, approved) && !Stopped(l.recoveries)
    requires decision == Recovery.Decide(f.failure.failureType, |l.recoveries| < c.maxRetries)
    ensures Recorded(c, l.(recoveries := l.recoveries + [RecordFor(l, f.failure, decision)]), f, decision)
  {
    hide LogsAt, LogsSound, EndedIn, EntriesOf;
    var r := RecordFor(l, f.failure, decision);
    LedgerAppends(l.recoveries, r);
    match decision.action
    case Stop => StoppedRun(c, l, r);
    case Replan => ReplanScheduled(c, l, r);
    case _ => RetriedStep(c, l, f.index, r);
  }

  lemma FailureFacts(c: Config, l: RunLogs, f: StepFailure, approved: set<Fingerprint>)
    requires FailureShown(c, l, f, approved)
    ensures l.plans != [] && f.index < |l.Plan().steps| && f.failure.retryCount == |l.recoveries|
    ensures LogsSound(c, l, |l.recoveries|)
    ensures f.approval.Some? ==> f.approval.value.fingerprint !in approved && !f.cancelled
  {
  }

  /** The current attempt ended in a failed verification of type `t`. */
  ghost predicate CurrentFailed(l: RunLogs, t: FailureType) {
    var entries := EntriesOf(l.verifications, |l.plans|);
    entries != [] && entries[|entries| - 1].result.status == Fail
        && ClassifyVerification(entries[|entries| - 1].result) == t
  }

  /** The state a run is left in, for every way it can end. */
  ghost predicate Ending(c: Config, l: RunLogs, o: RunOutcome, approval: Option<ApprovalRequest>,
                         approved: set<Fingerprint>, cancelled: bool) {
    && LogsSound(c, l, Used(l.recoveries))
    && (o.Returned? && o.status == RecoveryExhausted <==> Stopped(l.recoveries))
    && (!c.enableRecovery ==> l.recoveries == [])
    && (|Causes(l.recoveries)| == |l.plans| ==> o.Left? || o.status == PlanError)
    && (o == Left(BlankGoal) ==> HasBlankGoal(l.Plan()))
    && (o == Left(StateInvalid) ==> |Causes(l.recoveries)| == |l.plans|)
    && (o.Left? ||
        match o.status
        case Passed => LogsAt(c, l, |l.Plan().steps|, 0) && o.failedStep.None?
        case PlanError => |Causes(l.recoveries)| == |l.plans|
        case VerificationFailed => !c.enableRecovery && CurrentFailed(l, AssertionFailed)
        case ExecutionError => !c.enableRecovery && !CurrentFailed(l, AssertionFailed)
        case RecoveryExhausted => o.failedStep == Some(l.recoveries[|l.recoveries| - 1].stepId)
        case ApprovalPending => approval.Some? && approval.value.fingerprint !in approved
        case RunCancelled => cancelled)
  }

  lemma NothingVerified(c: Config, l: RunLogs)
    requires LogsSound(c, l, |l.recoveries|) && !c.enableVerifier
    ensures EntriesOf(l.verifications, |l.plans|) == []
  {
  }

  lemma ExitEnds(c: Config, l: RunLogs, f: StepFailure, o: RunOutcome, approval: Option<ApprovalRequest>,
                 approved: set<Fingerprint>, cancelled: bool)
    requires FailureShown(c, l, f, approved) && !Stopped(l.recoveries) && (!c.enableRecovery ==> l.recoveries == [])
    requires f.cancelled ==> cancelled
    requires o.Returned? && o.status in {RunCancelled, ApprovalPending, VerificationFailed, ExecutionError}
    requires o.status == RunCancelled ==> f.cancelled
    requires o.status == ApprovalPending ==> approval.Some? && approval == f.approval
    requires o.status in {VerificationFailed, ExecutionError} ==> !c.enableRecovery
    requires o.status == VerificationFailed ==> f.failure.failureType == AssertionFailed
    requires o.status == ExecutionError ==> f.failure.failureType != AssertionFailed
    ensures Ending(c, l, o, approval, approved, cancelled)
  {
    hide LogsSound, VerificationShape, AnswersStep, Causes, EntriesOf, OperationsDone, TotalSteps, Retries;
    if o.status == ExecutionError && !IsVerificationFailure(f.failure.failureType) && !c.enableVerifier {
      NothingVerified(c, l);
    }
  }

  /** An exception, a failed replan, a stop and a full attempt all end a run as they should. */
  lemma OtherEnds(c: Config, l: RunLogs, o: RunOutcome, approval: Option<ApprovalRequest>, approved: set<Fingerprint>,
                  cancelled: bool)
    requires LogsSound(c, l, Used(l.recoveries)) && (!c.enableRecovery ==> l.recoveries == [])
    requires
      || (o == Left(ObservationFailed) && !Stopped(l.recoveries))
      || (o == Left(BlankGoal) && !Stopped(l.recoveries) && HasBlankGoal(l.Plan()))
      || (o == Left(StateInvalid) && !Stopped(l.recoveries) && |Causes(l.recoveries)| == |l.plans|)
      || (o == Returned(PlanError, None) && !Stopped(l.recoveries) && |Causes(l.recoveries)| == |l.plans|)
      || (Stopped(l.recoveries) && o == Returned(RecoveryExhausted, Some(l.recoveries[|l.recoveries| - 1].stepId))
          && |Causes(l.recoveries)| == |l.plans| - 1)
      || (o == Returned(Passed, None) && LogsAt(c, l, |l.Plan().steps|, 0) && !Stopped(l.recoveries))
    ensures Ending(c, l, o, approval, approved, cancelled)
  {
    hide LogsSound, VerifiedUpTo, OperationsDone, TotalSteps, Retries, Causes, EntriesOf;
  }

  lemma RaisedEnds(c: Config, l: RunLogs, approval: Option<ApprovalRequest>, approved: set<Fingerprint>,
                   cancelled: bool)
    requires LogsSound(c, l, |l.recoveries|) && !Stopped(l.recoveries) && (!c.enableRecovery ==> l.recoveries == [])
    ensures Ending(c, l, Left(ObservationFailed), approval, approved, cancelled)
  {
    OtherEnds(c, l, Left(ObservationFailed), approval, approved, cancelled);
  }

  lemma EscapeEnds(c: Config, l: RunLogs, reason: Escape, approval: Option<ApprovalRequest>, approved: set<Fingerprint>,
                   cancelled: bool)
    requires LogsSound(c, l, |l.recoveries|) && !Stopped(l.recoveries) && (!c.enableRecovery ==> l.recoveries == [])
    requires reason != StateInvalid && l.plans != [] && (reason == BlankGoal ==> HasBlankGoal(l.Plan()))
    ensures Ending(c, l, Left(reason), approval, approved, cancelled)
  {
    hide HasBlankGoal, LogsSound;
    OtherEnds(c, l, Left(reason), approval, approved, cancelled);
  }

  lemma NotStopped()
    ensures !Stopped([])
  {
  }

  lemma AtIsSound(c: Config, l: RunLogs, m: nat, extra: nat)
    requires LogsAt(c, l, m, extra)
    ensures LogsSound(c, l, |l.recoveries|) && l.plans != [] && m <= |l.Plan().steps|
  {
  }

  /** Tool calls that `n` agent runs may make. */
  function Calls(c: Config, n: nat): nat {
    2 * c.maxSteps * n
  }

  lemma CallsAdd(c: Config, m: nat, n: nat)
    ensures Calls(c, m + n) == Calls(c, m) + Calls(c, n)
    ensures Calls(c, 1) == 2 * c.maxSteps && Calls(c, 0) == 0
  {
  }

  /** A successful visit opened the URL it was asked to. */
  lemma OpenedOnly(call: Trace, arguments: Arguments, elements: seq<Element>, n: nat, approved: set<Fingerprint>,
                   r: Result<(), ToolError>)
    requires "url" in arguments && arguments["url"].Text?
    requires CallActs(call, Bootstrap, "open_url", arguments, elements, n, approved, r) && r.Success?
    ensures |call| > 2 && call[0] == Attempt(Bootstrap) && call[1].Audit? && call[1].record.tool == "open_url"
            && call[2] == OpenEffect(Strip(arguments["url"].s))
  {
    hide Strip, Classify;
  }

  class PlannedBrowserAgent {
    const agent: SingleBrowserAgent
    const config: Config
    const text: PlanNormalizer.Json -> string

    ghost predicate Valid()
      reads agent, agent.tools, agent.tools.gate, agent.tools.gate.world
    {
      agent.Valid() && config.maxSteps == agent.maxSteps && Planner.LeavesStrings(text)
    }

    constructor (agent: SingleBrowserAgent, config: Config, text: PlanNormalizer.Json -> string)
      requires agent.Valid() && config.maxSteps == agent.maxSteps && Planner.LeavesStrings(text)
      ensures Valid() && this.agent == agent && this.config == config
    {
      this.agent, this.config, this.text := agent, config, text;
    }

    /** The cancel flag is what the trace says. */
    lemma FlagIsInTrace()
      requires Valid()
      ensures agent.world.cancelled <==> CancelledIn(agent.world.trace)
    {
    }

    function RequiresAction(step: PlanStep): bool {
      config.bootstrapTarget && IsOperational(step)
    }

    method Observe() returns (o: Option<Observation>)
      requires Valid()
      modifies agent.world
      ensures Valid() && Bounded(old(agent.world.trace), agent.world.trace, 0)
      ensures old(agent.world.cancelled) ==> agent.world.cancelled
      ensures o.Some? ==> o.value.elements == agent.world.elements
    {
      hide Attempts, Late, Audits, Effects, Authorised, CancelledIn;
      ghost var acts;
      o, acts := agent.world.Observe(agent.approved);
    }

    /* ---- One step ---- */

    /** A step that owes no action is checked first; when it already holds it is recorded and skipped. */
    method Preverify(state: Day4RunState, index: nat)
      returns (raised: bool, confirmed: bool, ghost page: Option<Observation>)
      requires Valid() && state.Valid() && index < |state.plan.steps| && LogsAt(config, state.Logs(), index, 0)
      modifies agent.world, state`verification, state`stepVerifications
      ensures Valid() && Bounded(old(agent.world.trace), agent.world.trace, 0)
      ensures old(agent.world.cancelled) ==> agent.world.cancelled
      ensures page.Some? <==> && config.enableVerifier && !raised
                              && !(config.bootstrapTarget && IsOperational(state.plan.steps[index]))
      ensures page.Some? ==> page.value.elements == agent.world.elements
      ensures confirmed <==> page.Some? && Met(Some(state.plan.steps[index].criteria), page.value)
      ensures confirmed ==> LogsAt(config, state.Logs(), index + 1, 0)
      ensures !confirmed ==> state.Logs() == old(state.Logs())
    {
      hide LogsAt, LogsSound, Bounded;
      var step := state.plan.steps[index];
      if !config.enableVerifier || RequiresAction(step) {
        BoundedSelf(agent.world.trace);
        return false, false, None;
      }
      var current := Observe();
      if current.None? {
        return true, false, None;
      }
      var preverification := Verify(current.value, step.criteria);
      if preverification.status == Pass {
        state.verification := Some(preverification);
        var entry := StepVerification(step.id, preverification, state.planAttempt);
        PreverifiedStep(config, state.Logs(), index, entry);
        state.stepVerifications := state.stepVerifications + [entry];
        return false, true, current;
      }
      return false, false, current;
    }

    /** The agent works on a step; its run and its actions are recorded. */
    method RunAgent(state: Day4RunState, index: nat, targetUrl: string)
      returns (execution: Result<AgentResult, Escape>, ghost decisions: seq<Decision>)
      requires Strip(targetUrl) != ""
      requires Valid() && state.Valid() && index < |state.plan.steps| && LogsAt(config, state.Logs(), index, 0)
      modifies agent.world, agent.tools.gate`records, state`stepRuns, state`history
      ensures Valid() && Bounded(old(agent.world.trace), agent.world.trace, Calls(config, 1))
      ensures execution.Failure? ==> state.Logs() == old(state.Logs())
      ensures execution != Failure(StateInvalid)
      ensures execution == Failure(BlankGoal) <==> Strip(state.plan.steps[index].goal) == ""
      ensures execution.Success? ==>
                && LogsAt(config, state.Logs(), index, 1) && |state.stepRuns| == |old(state.stepRuns)| + 1
                && ResultShape(execution.value, config.maxSteps,
                               config.bootstrapTarget && IsOperational(state.plan.steps[index]), agent.approved)
                && (execution.value.status == AgentCancelled ==> agent.world.cancelled)
                && Carried(execution.value.history, decisions)
                && (execution.value.status == AgentCompleted ==>
                      || SaidDone(execution.value.history, decisions)
                      || (config.enableVerifier
                          && Met(Some(state.plan.steps[index].criteria), execution.value.observation)))
                && (config.enableVerifier
                    && execution.value.status in {MaxStepsReached, ActorFailed, AgentCancelled} ==>
                      NotMetYet(Some(state.plan.steps[index].criteria),
                                config.bootstrapTarget && IsOperational(state.plan.steps[index]),
                                execution.value.history, execution.value.observation))
                && (execution.value.history != [] ==>
                    ActedOn(state.history, state.plan.steps[index].id, |state.planHistory|))
                && (execution.value.status == AgentCompleted ==>
                      CompletedFor(state.stepRuns, state.plan.steps[index].id, |state.planHistory|))
    {
      hide LogsAt, LogsSound, Bounded, HistoryShape, Tagged, ActedOn, CompletedFor, Attempts, Late, Audits, Effects,
           Authorised, CancelledIn;
      var step := state.plan.steps[index];
      var check := if config.enableVerifier then Some(step.criteria) else None;
      var outcome;
      outcome, decisions := agent.Run(step.goal, targetUrl, check, RequiresAction(step));
      if !outcome.Finished? {
        return Failure(if outcome.BlankInput? then BlankGoal else ObservationFailed), decisions;
      }
      var run := StepRun(step.id, state.planAttempt, outcome.result);
      RanStep(config, state.Logs(), index, run);
      state.stepRuns := state.stepRuns + [run];
      state.history := state.history + Tagged(run);
      execution := Success(outcome.result);
    }

    /** The failure event for an agent run that did not complete. */
    method ExecutionFailure(execution: AgentResult, stepId: nat, index: nat, budget: RetryBudget)
      returns (f: StepFailure)
      requires execution.status != AgentCompleted
      requires execution.error.Some? && execution.error.value.ApprovalNeeded? ==>
                 execution.error.value.approval.fingerprint !in agent.approved
      requires LastFailed(execution.history) <==> execution.status == ToolFailed
      requires execution.status == ToolFailed ==> execution.error == execution.history[|execution.history| - 1].error
      ensures f.index == index && f.failure.stepId == stepId && f.failure.retryCount == budget.retryCount
      ensures execution.error.Some? && execution.error.value.ToolFailure? && execution.error.value.text != "" ==>
                f.failure.message == execution.error.value.text
      ensures f.failure.failureType == ClassifyException(Lower(f.failure.message), "runtimeerror", false, false)
      ensures !IsVerificationFailure(f.failure.failureType)
      ensures f.cancelled <==> execution.status == AgentCancelled
      ensures f.approval.Some? <==> execution.status == ToolFailed && execution.error.value.ApprovalNeeded?
      ensures f.approval.Some? ==> f.approval.value == execution.error.value.approval
      ensures f.approval.Some? ==> f.approval.value.fingerprint !in agent.approved && !f.cancelled
    {
      var message: string;
      if execution.error.Some? && execution.error.value.ToolFailure? && execution.error.value.text != "" {
        message := execution.error.value.text;
      } else {
        message := *;
      }
      var failureType := ClassifyException(Lower(message), "runtimeerror", false, false);
      var failure := FailureEvent(failureType, stepId, message, budget.retryCount);
      if execution.status == AgentCancelled {
        return StepFailure(failure, index, None, true);
      }
      var approval := None;
      if execution.history != [] {
        var last := execution.history[|execution.history| - 1];
        if last.error.Some? && last.error.value.ApprovalNeeded? {
          approval := Some(last.error.value.approval);
        }
      }
      f := StepFailure(failure, index, approval, false);
    }

    /** After the agent's run: a run that did not complete fails the step, and so does a failed verification. */
    method Judge(state: Day4RunState, index: nat, execution: AgentResult, budget: RetryBudget)
      returns (failure: Option<StepFailure>)
      requires budget.retryCount == |state.recoveryHistory|
      requires state.Valid() && LogsAt(config, state.Logs(), index, 1)
      requires ResultShape(execution, config.maxSteps, RequiresAction(state.plan.steps[index]), agent.approved)
      requires execution.history != [] ==> ActedOn(state.history, state.plan.steps[index].id, |state.planHistory|)
      requires execution.status == AgentCompleted ==>
                CompletedFor(state.stepRuns, state.plan.steps[index].id, |state.planHistory|)
      modifies state`verification, state`stepVerifications
      ensures failure.None? <==> execution.status == AgentCompleted
                                 && (config.enableVerifier ==>
                                     Met(Some(state.plan.steps[index].criteria), execution.observation))
      ensures failure.None? ==> LogsAt(config, state.Logs(), index + 1, 0)
      ensures failure.Some? ==>
                FailureShown(config, state.Logs(), failure.value, agent.approved) && failure.value.index == index
      ensures failure.Some? && failure.value.cancelled ==> execution.status == AgentCancelled
    {
      hide VerifiedUpTo, VerificationShape, OperationsDone, ActedOn, CompletedFor, AllCompleted, EntriesOf, Causes,
           Retries, TotalSteps, PlansShape,
           RunsShape, CausesShown, LedgerShape, HistoryShape, Holds, IsOperational, AllActions;
      var step := state.plan.steps[index];
      ghost var before := state.Logs();
      if execution.status != AgentCompleted {
        var f := ExecutionFailure(execution, step.id, index, budget);
        return Some(f);
      }
      if !config.enableVerifier {
        UnverifiedStep(config, state.Logs(), index);
        return None;
      }
      var verification := Verify(execution.observation, step.criteria);
      state.verification := Some(verification);
      var entry := StepVerification(step.id, verification, state.planAttempt);
      ConfirmedStep(config, before, index, entry);
      state.stepVerifications := state.stepVerifications + [entry];
      if verification.status != Pass {
        var reason: string := *;
        var event := FailureEvent(ClassifyVerification(verification), step.id, reason, budget.retryCount);
        return Some(StepFailure(event, index, None, false));
      }
      return None;
    }

    /** The agent runs, and its work is judged. */
    method WorkOnStep(state: Day4RunState, budget: RetryBudget, index: nat, targetUrl: string)
      returns (o: AttemptOutcome)
      requires Strip(targetUrl) != "" && budget.retryCount == |state.recoveryHistory|
      requires Valid() && state.Valid() && index < |state.plan.steps| && LogsAt(config, state.Logs(), index, 0)
      modifies agent.world, agent.tools.gate`records
      modifies state`stepRuns, state`history, state`verification, state`stepVerifications
      ensures Valid() && Bounded(old(agent.world.trace), agent.world.trace, Calls(config, 1))
      ensures |state.stepRuns| == |old(state.stepRuns)| + if o.AttemptRaised? then 0 else 1
      ensures o.AttemptDone? ==> LogsAt(config, state.Logs(), index + 1, 0)
      ensures o.AttemptFailed? ==>
                && FailureShown(config, state.Logs(), o.failure, agent.approved) && o.failure.index == index
                && (o.failure.cancelled ==> agent.world.cancelled)
      ensures o.AttemptRaised? ==>
                && LogsAt(config, state.Logs(), index, 0) && o.reason != StateInvalid
                && (o.reason == BlankGoal ==> Strip(state.plan.steps[index].goal) == "")
    {
      hide PlannedBrowserAgent.Valid, LogsAt, LogsSound, Bounded, FailureShown, ActedOn, CompletedFor, Calls, Strip;
      hide ResultShape, Met, HistoryShape;
      var execution, _ := RunAgent(state, index, targetUrl);
      if execution.Failure? {
        return AttemptRaised(execution.error);
      }
      var failure := Judge(state, index, execution.value, budget);
      o := if failure.Some? then AttemptFailed(failure.value) else AttemptDone;
    }

    /** One step of the plan attempt. */
    method RunStep(state: Day4RunState, budget: RetryBudget, index: nat, targetUrl: string) returns (o: AttemptOutcome)
      requires Strip(targetUrl) != "" && budget.retryCount == |state.recoveryHistory|
      requires Valid() && state.Valid() && index < |state.plan.steps| && LogsAt(config, state.Logs(), index, 0)
      modifies agent.world, agent.tools.gate`records
      modifies state`currentStepIndex, state`stepRuns, state`history, state`verification, state`stepVerifications
      ensures Valid() && state.Valid() && state.currentStepIndex == index && |old(state.stepRuns)| <= |state.stepRuns|
      ensures o.AttemptDone? ==> LogsAt(config, state.Logs(), index + 1, 0)
      ensures o.AttemptFailed? ==>
                && FailureShown(config, state.Logs(), o.failure, agent.approved) && o.failure.index == index
                && (o.failure.cancelled ==> agent.world.cancelled)
      ensures o.AttemptRaised? ==>
                && LogsAt(config, state.Logs(), index, 0) && o.reason != StateInvalid
                && (o.reason == BlankGoal ==> Strip(state.plan.steps[index].goal) == "")
      ensures Bounded(old(agent.world.trace), agent.world.trace,
                      Calls(config, |state.stepRuns| - |old(state.stepRuns)| + if o.AttemptRaised? then 1 else 0))
    {
      hide PlannedBrowserAgent.Valid, LogsAt, LogsSound, Bounded, FailureShown, ActedOn, CompletedFor, Calls, Strip;
      hide Met, HistoryShape;
      var ok := state.AssignIndex(index);
      assert ok;
      CallsAdd(config, 0, 1);
      var raised, confirmed, _ := Preverify(state, index);
      if raised {
        BoundedMore(old(agent.world.trace), agent.world.trace, 0, Calls(config, 1));
        return AttemptRaised(ObservationFailed);
      }
      if confirmed {
        return AttemptDone;
      }
      ghost var between := agent.world.trace;
      o := WorkOnStep(state, budget, index, targetUrl);
      BoundedChain(old(agent.world.trace), between, agent.world.trace, 0, Calls(config, 1));
    }

    /** The steps from `start` on, up to the first that fails. */
    method RunPlanAttempt(state: Day4RunState, budget: RetryBudget, start: nat, targetUrl: string)
      returns (o: AttemptOutcome)
      requires Strip(targetUrl) != "" && budget.retryCount == |state.recoveryHistory|
      requires Valid() && state.Valid() && start <= |state.plan.steps| && LogsAt(config, state.Logs(), start, 0)
      modifies agent.world, agent.tools.gate`records
      modifies state`currentStepIndex, state`stepRuns, state`history, state`verification, state`stepVerifications
      ensures Valid() && state.Valid() && |old(state.stepRuns)| <= |state.stepRuns|
      ensures o.AttemptDone? ==> LogsAt(config, state.Logs(), |state.plan.steps|, 0)
      ensures o.AttemptFailed? ==>
                && FailureShown(config, state.Logs(), o.failure, agent.approved)
                && o.failure.index == state.currentStepIndex
                && (o.failure.cancelled ==> agent.world.cancelled)
      ensures o.AttemptRaised? ==> LogsSound(config, state.Logs(), |state.recoveryHistory|) && o.reason != StateInvalid
                                   && (o.reason == BlankGoal ==> HasBlankGoal(state.plan))
      ensures Bounded(old(agent.world.trace), agent.world.trace,
                      Calls(config, |state.stepRuns| - |old(state.stepRuns)| + if o.AttemptRaised? then 1 else 0))
    {
      hide PlannedBrowserAgent.Valid;
      hide LogsAt, LogsSound, Bounded, FailureShown, HistoryShape, ActedOn, CompletedFor, Calls, Strip;
      BoundedSelf(agent.world.trace);
      CallsAdd(config, 0, 0);
      for index := start to |state.plan.steps|
        invariant Valid() && state.Valid() && |old(state.stepRuns)| <= |state.stepRuns|
        invariant LogsAt(config, state.Logs(), index, 0)
        invariant Bounded(old(agent.world.trace), agent.world.trace,
                  Calls(config, |state.stepRuns| - |old(state.stepRuns)|))
      {
        ghost var before, runs := agent.world.trace, |state.stepRuns|;
        o := RunStep(state, budget, index, targetUrl);
        ghost var more := |state.stepRuns| - runs + if o.AttemptRaised? then 1 else 0;
        BoundedChain(old(agent.world.trace), before, agent.world.trace, Calls(config, runs - |old(state.stepRuns)|),
                     Calls(config, more));
        CallsAdd(config, runs - |old(state.stepRuns)|, more);
        if !o.AttemptDone? {
          if o.AttemptRaised? {
            AtIsSound(config, state.Logs(), index, 0);
          }
          return;
        }
      }
      o := AttemptDone;
    }

    /* ---- Recovery ---- */

    method RecordRecovery(state: Day4RunState, failure: FailureEvent, decision: RecoveryDecision, budget: RetryBudget)
      modifies state`recoveryHistory
      ensures state.recoveryHistory == old(state.recoveryHistory)
                + [RecoveryRecord(state.planAttempt, failure.stepId, failure, decision, budget.retryCount)]
    {
      state.recoveryHistory := state.recoveryHistory
        + [RecoveryRecord(state.planAttempt, failure.stepId, failure, decision, budget.retryCount)];
    }

    /** The decision has been taken and paid for; it is carried out and recorded. */
    method ApplyRecovery(state: Day4RunState, f: StepFailure, decision: RecoveryDecision, budget: RetryBudget)
      returns (r: RecoveryStep)
      requires Valid() && state.Valid() && FailureShown(config, state.Logs(), f, agent.approved)
      requires !Stopped(state.recoveryHistory)
      requires decision == Recovery.Decide(f.failure.failureType, |state.recoveryHistory| < config.maxRetries)
      requires budget.retryCount == |state.recoveryHistory| + if decision.consumeRetry then 1 else 0
      modifies agent.world, state`recoveryHistory
      ensures Valid() && state.Valid() && Bounded(old(agent.world.trace), agent.world.trace, 0)
      ensures old(agent.world.cancelled) ==> agent.world.cancelled
      ensures r.RecoveryRaised? ==> state.Logs() == old(state.Logs())
      ensures !r.RecoveryRaised? ==> Recorded(config, state.Logs(), f, decision)
                                     && |state.recoveryHistory| == |old(state.recoveryHistory)| + 1
      ensures r.StopRun? <==> decision.action == Stop
      ensures r.NewPlan? <==> decision.action == Recovery.Replan
      ensures r.RecoveryRaised? ==> decision.action in {ReObserve, ShortWait}
    {
      hide LogsAt, LogsSound, Bounded, FailureShown, Recorded;
      RecordingRecovery(config, state.Logs(), f, agent.approved, decision);
      BoundedSelf(agent.world.trace);
      if decision.action == ReObserve || decision.action == ShortWait {
        var o := Observe();
        if o.None? {
          return RecoveryRaised;
        }
      }
      RecordRecovery(state, f.failure, decision, budget);
      r := match decision.action case Stop => StopRun case Replan => NewPlan case _ => RetryStep;
    }

    /* ---- Planning ---- */

    /** Asks the planner; None when it raises. */
    method AskPlanner(page: Option<Observation>) returns (plan: Option<TestPlan>)
      requires Planner.LeavesStrings(text)
      ensures plan.Some? ==> ValidPlan(plan.value)
      ensures plan.Some? && page.Some? ==> Planner.SnapshotPlan(plan.value, config.acceptance)
    {
      var first: Planner.Reply, second: Planner.Reply := *, *;
      var snapshot := if page.Some? then Some(Planner.Snapshot(page.value.url, config.acceptance)) else None;
      var r := Planner.MakePlan(text, [first, second], snapshot);
      plan := if r.Success? then Some(r.value) else None;
    }

    /**
      The new plan takes over: assigned first, and refused exactly when it has fewer steps than the
      failed index; only then are the attempt number and the index brought up to date.
     */
    method AdoptPlan(state: Day4RunState, plan: TestPlan, failure: FailureEvent) returns (ok: bool)
      requires state.Valid() && LogsSound(config, state.Logs(), |state.recoveryHistory|)
      requires |Causes(state.recoveryHistory)| == |state.planHistory|
      requires Causes(state.recoveryHistory)[|state.planHistory| - 1] == failure
      requires ValidPlan(plan) && Planner.SnapshotPlan(plan, config.acceptance)
      modifies state`plan, state`planAttempt, state`currentStepIndex, state`planHistory
      ensures ok <==> old(state.currentStepIndex) <= |plan.steps|
      ensures state.Valid()
      ensures ok ==> LogsAt(config, state.Logs(), 0, 0) && state.currentStepIndex == 0 && state.plan == plan
                     && state.planHistory ==
                        old(state.planHistory) + [PlanAttempt(old(state.planAttempt) + 1, Replanned(failure), plan)]
      ensures !ok ==> state.Logs() == old(state.Logs()) && state.currentStepIndex == old(state.currentStepIndex)
    {
      hide LogsAt, LogsSound, Causes;
      ghost var before := state.Logs();
      var nextAttempt := state.planAttempt + 1;
      ok := state.AssignPlan(plan);
      if ok {
        state.planAttempt := nextAttempt;
        var reset := state.AssignIndex(0);
        state.planHistory := state.planHistory + [PlanAttempt(nextAttempt, Replanned(failure), plan)];
        ReplannedRun(config, before, PlanAttempt(nextAttempt, Replanned(failure), plan));
      }
    }

    method Replan(state: Day4RunState, failure: FailureEvent) returns (r: ReplanOutcome)
      requires Valid() && state.Valid() && LogsSound(config, state.Logs(), |state.recoveryHistory|)
      requires |Causes(state.recoveryHistory)| == |state.planHistory|
      requires Causes(state.recoveryHistory)[|state.planHistory| - 1] == failure
      modifies agent.world, state`plan, state`planAttempt, state`currentStepIndex, state`planHistory, state`status
      ensures Valid() && state.Valid() && Bounded(old(agent.world.trace), agent.world.trace, 0)
      ensures old(agent.world.cancelled) ==> agent.world.cancelled
      ensures r.PlanAdopted? ==>
                && LogsAt(config, state.Logs(), 0, 0) && state.currentStepIndex == 0
                && old(state.currentStepIndex) <= |state.plan.steps|
      ensures !r.PlanAdopted? ==> state.Logs() == old(state.Logs())
      ensures r.PlanRejected? ==> state.status == FailedState
      ensures r.ReplanRaised? ==> r.reason != BlankGoal
    {
      hide LogsAt, LogsSound, Causes, Bounded, ValidPlan, Planner.SnapshotPlan;
      var page := Observe();
      if page.None? {
        return ReplanRaised(ObservationFailed);
      }
      var plan := AskPlanner(page);
      if plan.None? {
        state.status := FailedState;
        return PlanRejected;
      }
      var ok := AdoptPlan(state, plan.value, failure);
      r := if ok then PlanAdopted else ReplanRaised(StateInvalid);
    }

    /* ---- The run ---- */

    /** Opens the target and looks at it; None when either raises. */
    method OpenTarget(targetUrl: string) returns (page: Option<Observation>)
      requires Valid()
      modifies agent.world, agent.tools.gate`records
      ensures page.Some? ==>
                var n, t := |old(agent.world.trace)|, agent.world.trace;
                && n + 2 < |t| && t[n] == Attempt(Bootstrap) && t[n + 1].Audit? && t[n + 1].record.tool == "open_url"
                && t[n + 2] == OpenEffect(Strip(targetUrl))
      ensures Valid() && (old(agent.world.cancelled) ==> agent.world.cancelled)
      ensures Attempts(agent.world.trace) == Attempts(old(agent.world.trace)) + 1
      ensures forall s :: s != Bootstrap ==> Late(agent.world.trace, s) == Late(old(agent.world.trace), s)
    {
      hide Attempts, Late, Audits, Effects, Authorised, CancelledIn, CallActs, IsMinted, Strip;
      var arguments := map["url" := Text(targetUrl)];
      ghost var elements, n := agent.world.elements, |agent.tools.gate.records|;
      var visit, call := agent.tools.Execute(Bootstrap, "open_url", arguments);
      if visit.Failure? {
        return None;
      }
      OpenedOnly(call, arguments, elements, n, agent.approved, visit);
      ghost var acts;
      page, acts := agent.world.Observe(agent.approved);
    }

    /** The bootstrap, if any, and the first plan; None when either fails. */
    method Prepare(targetUrl: string) returns (plan: Option<TestPlan>)
      requires Valid()
      modifies agent.world, agent.tools.gate`records
      ensures Valid() && (old(agent.world.cancelled) ==> agent.world.cancelled)
      ensures Attempts(agent.world.trace) == Attempts(old(agent.world.trace)) + if config.bootstrapTarget then 1 else 0
      ensures forall s :: s != Bootstrap ==> Late(agent.world.trace, s) == Late(old(agent.world.trace), s)
      ensures plan.Some? ==>
                && ValidPlan(plan.value)
                && (config.bootstrapTarget ==> Planner.SnapshotPlan(plan.value, config.acceptance))
    {
      hide Attempts, Late, Audits, Effects, Authorised, CancelledIn, ValidPlan, Planner.SnapshotPlan;
      var page := None;
      if config.bootstrapTarget {
        page := OpenTarget(targetUrl);
        if page.None? {
          return None;
        }
      }
      plan := AskPlanner(page);
    }

    /** The exits that come before any recovery: cancellation, a pending approval, recovery switched off. */
    method Exit(state: Day4RunState, f: StepFailure) returns (status: Option<RunStatus>)
      requires state.Valid() && f.index < |state.plan.steps|
      modifies state`status, state`approval
      ensures state.Valid() && state.Logs() == old(state.Logs())
      ensures status.Some? <==> f.cancelled || f.approval.Some? || !config.enableRecovery
      ensures status == Some(RunCancelled) <==> f.cancelled
      ensures status == Some(ApprovalPending) <==> !f.cancelled && f.approval.Some?
      ensures status == Some(ApprovalPending) ==> state.approval == f.approval && state.status == ApprovalState
      ensures status == Some(VerificationFailed) ==> f.failure.failureType == AssertionFailed
      ensures status == Some(ExecutionError) ==> f.failure.failureType != AssertionFailed
      ensures status.Some? ==> status.value in {RunCancelled, ApprovalPending, VerificationFailed, ExecutionError}
      ensures status.None? ==> state.status == old(state.status)
    {
      if f.cancelled {
        state.status := CancelledState;
        return Some(RunCancelled);
      }
      if f.approval.Some? {
        state.status, state.approval := ApprovalState, f.approval;
        return Some(ApprovalPending);
      }
      if !config.enableRecovery {
        state.status := FailedState;
        return Some(if f.failure.failureType == AssertionFailed then VerificationFailed else ExecutionError);
      }
      return None;
    }

    /** Replans, and ends the run when that is impossible. */
    method StartOver(state: Day4RunState, failure: FailureEvent) returns (end: Option<RunOutcome>)
      requires Valid() && state.Valid() && LogsSound(config, state.Logs(), |state.recoveryHistory|)
      requires config.enableRecovery && !Stopped(state.recoveryHistory)
      requires |Causes(state.recoveryHistory)| == |state.planHistory|
      requires Causes(state.recoveryHistory)[|state.planHistory| - 1] == failure
      modifies agent.world, state`plan, state`planAttempt, state`currentStepIndex, state`planHistory, state`status
      ensures Valid() && state.Valid() && Bounded(old(agent.world.trace), agent.world.trace, 0)
      ensures end.Some? ==> end.value.Left? || end.value.status == PlanError
      ensures end.Some? ==>
                Ending(config, state.Logs(), end.value, state.approval, agent.approved, agent.world.cancelled)
      ensures end.None? ==> LogsAt(config, state.Logs(), 0, 0)
    {
      hide PlannedBrowserAgent.Valid;
      hide LogsAt, LogsSound, Bounded, Causes, Ending;
      var replanned := Replan(state, failure);
      match replanned {
        case PlanAdopted => return None;
        case PlanRejected => end := Some(Returned(PlanError, None));
        case ReplanRaised(reason) => end := Some(Left(reason));
      }
      OtherEnds(config, state.Logs(), end.value, state.approval, agent.approved, agent.world.cancelled);
    }

    /** The outer loop goes on at step `next`, one retry later. */
    ghost predicate Resumes(state: Day4RunState, budget: RetryBudget, retryCount: nat, next: nat)
      reads state, budget
    {
      && state.Valid() && next <= |state.plan.steps| && LogsAt(config, state.Logs(), next, 0)
      && !Stopped(state.recoveryHistory)
      && budget.retryCount == |state.recoveryHistory| == retryCount + 1
      && retryCount < budget.maxRetries
    }

    /** The policy's decision, paid for when it costs a retry; the budget never refuses. */
    method DecideAndPay(budget: RetryBudget, failure: FailureEvent) returns (decision: RecoveryDecision)
      modifies budget
      ensures decision == Recovery.Decide(failure.failureType, old(budget.CanRetry()))
      ensures budget.retryCount == old(budget.retryCount) + if decision.consumeRetry then 1 else 0
    {
      decision := Recovery.Decide(failure.failureType, budget.CanRetry());
      DecisionMeaning(failure.failureType, budget.CanRetry());
      if decision.consumeRetry {
        var paid := budget.Consume();
        assert paid.Success?;
      }
    }

    /** After a recorded recovery: the end of the run, the same step again, or a new plan. */
    method CarryOn(state: Day4RunState, f: StepFailure, decision: RecoveryDecision)
      returns (end: Option<RunOutcome>, next: nat)
      requires Valid() && state.Valid() && Recorded(config, state.Logs(), f, decision) && config.enableRecovery
      modifies agent.world, state`plan, state`planAttempt, state`currentStepIndex, state`planHistory, state`status
      ensures Valid() && state.Valid() && Bounded(old(agent.world.trace), agent.world.trace, 0)
      ensures end.Some? ==> end.value.Left? || end.value.status in {RecoveryExhausted, PlanError}
      ensures end.Some? ==>
                Ending(config, state.Logs(), end.value, state.approval, agent.approved, agent.world.cancelled)
      ensures end.None? ==>
                && decision.action != Stop && !Stopped(state.recoveryHistory)
                && next <= |state.plan.steps| && LogsAt(config, state.Logs(), next, 0)
    {
      hide PlannedBrowserAgent.Valid, LogsAt, LogsSound, Bounded, Causes, Ending, Recorded, Stopped;
      BoundedSelf(agent.world.trace);
      RecordedFacts(config, state.Logs(), f, decision);
      end, next := None, f.index;
      match decision.action {
        case Stop =>
          state.status := FailedState;
          end := Some(Returned(RecoveryExhausted, Some(f.failure.stepId)));
          OtherEnds(config, state.Logs(), end.value, state.approval, agent.approved, agent.world.cancelled);
        case Replan =>
          next := 0;
          end := StartOver(state, f.failure);
        case _ =>
      }
    }

    /** A failure that is to be recovered from: decide, pay, apply, and go on as decided. */
    method Recover(state: Day4RunState, budget: RetryBudget, f: StepFailure)
      returns (end: Option<RunOutcome>, next: nat)
      requires Valid() && state.Valid() && FailureShown(config, state.Logs(), f, agent.approved)
      requires f.index == state.currentStepIndex && config.enableRecovery && !Stopped(state.recoveryHistory)
      requires budget.maxRetries == config.maxRetries && budget.retryCount == |state.recoveryHistory|
      modifies agent.world, state, budget
      ensures Valid() && state.Valid() && state.stepRuns == old(state.stepRuns)
      ensures Bounded(old(agent.world.trace), agent.world.trace, 0)
      ensures end.Some? ==> end.value.Left? || end.value.status in {RecoveryExhausted, PlanError}
      ensures end.Some? ==>
                Ending(config, state.Logs(), end.value, state.approval, agent.approved, agent.world.cancelled)
      ensures end.None? ==> Resumes(state, budget, old(budget.retryCount), next)
    {
      hide PlannedBrowserAgent.Valid, LogsAt, LogsSound, Bounded, FailureShown, Causes, Ending, Recorded, Stopped;
      FailureFacts(config, state.Logs(), f, agent.approved);
      DecisionMeaning(f.failure.failureType, budget.CanRetry());
      var decision := DecideAndPay(budget, f.failure);
      var r := ApplyRecovery(state, f, decision, budget);
      if r.RecoveryRaised? {
        end, next := Some(Left(ObservationFailed)), f.index;
        RaisedEnds(config, state.Logs(), state.approval, agent.approved, agent.world.cancelled);
        return;
      }
      ghost var before := agent.world.trace;
      end, next := CarryOn(state, f, decision);
      BoundedChain(old(agent.world.trace), before, agent.world.trace, 0, 0);
    }

    /** A failed attempt: one of the early exits, or a recovery. */
    method Handle(state: Day4RunState, budget: RetryBudget, f: StepFailure) returns (end: Option<RunOutcome>, next: nat)
      requires Valid() && state.Valid() && FailureShown(config, state.Logs(), f, agent.approved)
      requires f.index == state.currentStepIndex && (f.cancelled ==> agent.world.cancelled)
      requires budget.maxRetries == config.maxRetries && budget.retryCount == |state.recoveryHistory|
      requires !Stopped(state.recoveryHistory) && (!config.enableRecovery ==> state.recoveryHistory == [])
      modifies agent.world, state, budget
      ensures Valid() && state.Valid() && state.stepRuns == old(state.stepRuns)
      ensures Bounded(old(agent.world.trace), agent.world.trace, 0)
      ensures end.Some? ==>
                Ending(config, state.Logs(), end.value, state.approval, agent.approved, agent.world.cancelled)
      ensures end.Some? && end.value.Returned? ==> end.value.status != Passed
      ensures end.None? ==> Resumes(state, budget, old(budget.retryCount), next) && config.enableRecovery
    {
      hide PlannedBrowserAgent.Valid;
      hide LogsAt, LogsSound, Bounded, FailureShown, Causes, Ending, Resumes;
      FailureFacts(config, state.Logs(), f, agent.approved);
      BoundedSelf(agent.world.trace);
      var exit := Exit(state, f);
      if exit.Some? {
        end, next := Some(Returned(exit.value, Some(f.failure.stepId))), f.index;
        ExitEnds(config, state.Logs(), f, end.value, state.approval, agent.approved, agent.world.cancelled);
        return;
      }
      end, next := Recover(state, budget, f);
    }

    /** Every step is done: the run has passed. */
    method Complete(state: Day4RunState)
      requires state.Valid() && LogsAt(config, state.Logs(), |state.plan.steps|, 0)
      requires !Stopped(state.recoveryHistory) && (!config.enableRecovery ==> state.recoveryHistory == [])
      modifies state`status, state`currentStepIndex
      ensures state.Valid() && state.status == CompletedState && state.currentStepIndex == |state.plan.steps|
      ensures state.Logs() == old(state.Logs())
      ensures forall cancelled ::
                Ending(config, state.Logs(), Returned(Passed, None), state.approval, agent.approved, cancelled)
    {
      hide LogsAt, LogsSound, Ending, Stopped;
      AtIsSound(config, state.Logs(), |state.plan.steps|, 0);
      state.status := CompletedState;
      var ok := state.AssignIndex(|state.plan.steps|);
      OtherEnds(config, state.Logs(), Returned(Passed, None), state.approval, agent.approved, true);
      OtherEnds(config, state.Logs(), Returned(Passed, None), state.approval, agent.approved, false);
    }

    /** One turn of the outer loop: a plan attempt and, when it fails, its recovery. */
    method Turn(state: Day4RunState, budget: RetryBudget, resume: nat, targetUrl: string)
      returns (end: Option<RunOutcome>, next: nat)
      requires Strip(targetUrl) != ""
      requires Valid() && state.Valid() && resume <= |state.plan.steps| && LogsAt(config, state.Logs(), resume, 0)
      requires budget.maxRetries == config.maxRetries && budget.retryCount == |state.recoveryHistory|
      requires !Stopped(state.recoveryHistory) && (!config.enableRecovery ==> state.recoveryHistory == [])
      modifies agent.world, agent.tools.gate`records, state, budget
      ensures Valid() && state.Valid() && |old(state.stepRuns)| <= |state.stepRuns|
      ensures Bounded(old(agent.world.trace), agent.world.trace,
                      Calls(config, |state.stepRuns| - |old(state.stepRuns)|
                                    + if end.Some? && end.value.Left? then 1 else 0))
      ensures end.Some? ==>
                Ending(config, state.Logs(), end.value, state.approval, agent.approved, agent.world.cancelled)
      ensures end.Some? && end.value.Returned? && end.value.status == Passed ==>
                state.status == CompletedState && state.currentStepIndex == |state.plan.steps|
      ensures end.None? ==> Resumes(state, budget, old(budget.retryCount), next) && config.enableRecovery
    {
      hide PlannedBrowserAgent.Valid, LogsAt, LogsSound, Bounded, FailureShown, Calls, Causes, Ending, Resumes, Strip;
      hide HasBlankGoal, Stopped;
      next := resume;
      var attempt := RunPlanAttempt(state, budget, resume, targetUrl);
      if attempt.AttemptRaised? {
        end := Some(Left(attempt.reason));
        EscapeEnds(config, state.Logs(), attempt.reason, state.approval, agent.approved, agent.world.cancelled);
        return;
      }
      if attempt.AttemptDone? {
        Complete(state);
        end := Some(Returned(Passed, None));
        return;
      }
      ghost var before, runs := agent.world.trace, |state.stepRuns| - |old(state.stepRuns)|;
      end, next := Handle(state, budget, attempt.failure);
      BoundedChain(old(agent.world.trace), before, agent.world.trace, Calls(config, runs), 0);
      CallsAdd(config, runs, 1);
      BoundedMore(old(agent.world.trace), agent.world.trace, Calls(config, runs), Calls(config, runs + 1));
    }

    /** The outer loop; every turn that does not end it uses up a retry. */
    method Loop(state: Day4RunState, budget: RetryBudget, targetUrl: string) returns (outcome: RunOutcome)
      requires Strip(targetUrl) != ""
      requires Valid() && state.Valid() && LogsAt(config, state.Logs(), 0, 0)
      requires state.recoveryHistory == [] && state.stepRuns == []
      requires budget.maxRetries == config.maxRetries && budget.retryCount == 0
      modifies agent.world, agent.tools.gate`records, state, budget
      ensures Valid() && state.Valid()
      ensures Ending(config, state.Logs(), outcome, state.approval, agent.approved, agent.world.cancelled)
      ensures outcome.Returned? && outcome.status == Passed ==>
                state.status == CompletedState && state.currentStepIndex == |state.plan.steps|
      ensures Bounded(old(agent.world.trace), agent.world.trace,
                      Calls(config, |state.stepRuns| + if outcome.Left? then 1 else 0))
    {
      hide PlannedBrowserAgent.Valid, LogsAt, LogsSound, Bounded, Calls, Ending, Strip, Stopped;
      ghost var start := agent.world.trace;
      BoundedSelf(start);
      CallsAdd(config, 0, 0);
      NotStopped();
      var resume: nat := 0;
      while true
        invariant Valid() && state.Valid()
        invariant resume <= |state.plan.steps| && LogsAt(config, state.Logs(), resume, 0)
        invariant budget.maxRetries == config.maxRetries
                  && budget.retryCount == |state.recoveryHistory| <= config.maxRetries
        invariant !Stopped(state.recoveryHistory) && (!config.enableRecovery ==> state.recoveryHistory == [])
        invariant Bounded(start, agent.world.trace, Calls(config, |state.stepRuns|))
        decreases config.maxRetries - budget.retryCount
      {
        ghost var before, runs := agent.world.trace, |state.stepRuns|;
        var end, next := Turn(state, budget, resume, targetUrl);
        ghost var more := |state.stepRuns| - runs + if end.Some? && end.value.Left? then 1 else 0;
        BoundedChain(start, before, agent.world.trace, Calls(config, runs), Calls(config, more));
        CallsAdd(config, runs, more);
        if end.Some? {
          return end.value;
        }
        resume := next;
      }
    }

    /**
      A whole run. Whatever planner, actor, page and user do, it ends with logs of the shape `Ending`
      describes; the tool calls are bounded by the recorded step runs, and after cancellation at most
      one decided and one healed call is made.
     */
    method Run(goal: string, targetUrl: string) returns (outcome: RunOutcome, state: Day4RunState?)
      requires Valid()
      modifies agent.world, agent.tools.gate`records
      ensures Valid()
      ensures outcome == Left(BlankGoal) && state == null <==> Strip(goal) == "" || Strip(targetUrl) == ""
      ensures state == null ==> outcome == Returned(PlanError, None) || outcome == Left(BlankGoal)
      ensures state != null ==>
                && fresh(state) && state.Valid()
                && Ending(config, state.Logs(), outcome, state.approval, agent.approved, agent.world.cancelled)
                && (outcome == Returned(Passed, None) ==>
                      state.status == CompletedState && state.currentStepIndex == |state.plan.steps|)
      ensures Attempts(agent.world.trace) <= Attempts(old(agent.world.trace)) + 1
                + Calls(config, (if state == null then 0 else |state.stepRuns|) + if outcome.Left? then 1 else 0)
      ensures forall s :: s != Bootstrap ==> Late(agent.world.trace, s) <= Late(old(agent.world.trace), s) + 1
      ensures forall s :: s != Bootstrap && (old(agent.world.cancelled) || !agent.world.cancelled) ==>
                Late(agent.world.trace, s) == Late(old(agent.world.trace), s)
    {
      hide PlannedBrowserAgent.Valid, LogsAt, LogsSound, Attempts, Late, CancelledIn, Calls, Ending, ValidPlan, Strip;
      hide Planner.SnapshotPlan;
      CallsAdd(config, 0, 1);
      if Strip(goal) == "" || Strip(targetUrl) == "" {
        return Left(BlankGoal), null;
      }
      var plan := Prepare(targetUrl);
      if plan.None? {
        return Returned(PlanError, None), null;
      }
      FreshRun(config, plan.value);
      state := new Day4RunState(plan.value);
      var budget := new RetryBudget(config.maxRetries);
      FlagIsInTrace();
      outcome := Loop(state, budget, targetUrl);
      FlagIsInTrace();
    }
  }
}
