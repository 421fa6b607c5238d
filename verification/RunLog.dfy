/**
  The records a planned run keeps (webpilot/graph/state.py), and what may be said of them.

  Each predicate below describes one log at a point of the run; the lemmas say what appending one
  record does to it.
 */
module RunLog {
  import opened Common
  import opened Plans
  import opened Verifier
  import opened Recovery
  import opened AgentLoop
  import opened Planner
  import PlanNormalizer

  datatype StepVerification = StepVerification(stepId: nat, result: VerificationResult, planAttempt: nat)

  datatype Trigger = Initial | Replanned(failure: FailureEvent)

  datatype PlanAttempt = PlanAttempt(attempt: nat, trigger: Trigger, plan: TestPlan)

  datatype RecoveryRecord = RecoveryRecord(
    planAttempt: nat, stepId: nat, failure: FailureEvent, decision: RecoveryDecision, retryCountAfter: nat)

  /** An agent run, with the step and plan attempt it was made for. */
  datatype StepRun = StepRun(stepId: nat, planAttempt: nat, result: AgentResult)

  /** An agent's action record as the run state keeps it. */
  datatype ActionEntry = ActionEntry(stepId: nat, planAttempt: nat, record: ActionRecord)

  /* ---- Plan history ---- */

  /**
    Attempts are numbered 1, 2, ..., the first is the initial plan and each later one answers its cause.
    A plan made from a live page is a snapshot plan for the acceptance state.
   */
  ghost predicate PlansShape(c: Config, plans: seq<PlanAttempt>, causes: seq<FailureEvent>) {
    && plans != [] && |plans| <= |causes| + 1
    && (forall k :: 0 <= k < |plans| ==>
          && plans[k].attempt == k + 1 && ValidPlan(plans[k].plan)
          && (k > 0 || c.bootstrapTarget ==> SnapshotPlan(plans[k].plan, c.acceptance))
          && plans[k].trigger == if k == 0 then Initial else Replanned(causes[k - 1]))
  }

  function TotalSteps(plans: seq<PlanAttempt>): nat {
    if plans == [] then 0 else TotalSteps(plans[..|plans| - 1]) + |plans[|plans| - 1].plan.steps|
  }

  /* ---- Verification log ---- */

  /** The entries of one plan attempt, in order. */
  function EntriesOf(log: seq<StepVerification>, attempt: nat): seq<StepVerification> {
    if log == [] then []
    else
      var front := EntriesOf(log[..|log| - 1], attempt);
      if log[|log| - 1].planAttempt == attempt then front + [log[|log| - 1]] else front
  }

  /** Entry k is the answer to step k of the plan. */
  ghost predicate AnswersStep(e: StepVerification, step: PlanStep) {
    e.stepId == step.id && Answers(e.result, step.criteria)
  }

  /** The first m steps passed, in order, each exactly once, and nothing else was recorded. */
  ghost predicate AllPassed(entries: seq<StepVerification>, plan: TestPlan, m: nat) {
    && |entries| == m <= |plan.steps|
    && forall k :: 0 <= k < m ==> AnswersStep(entries[k], plan.steps[k]) && entries[k].result.status == Pass
  }

  /** Passes for step_1 .. step_m in order, each exactly once, then at most one failure, for step_(m+1). */
  ghost predicate AttemptShape(entries: seq<StepVerification>, plan: TestPlan) {
    && |entries| <= |plan.steps|
    && (forall k :: 0 <= k < |entries| ==> AnswersStep(entries[k], plan.steps[k]))
    && (forall k :: 0 <= k < |entries| - 1 ==> entries[k].result.status == Pass)
  }

  ghost predicate VerificationShape(log: seq<StepVerification>, plans: seq<PlanAttempt>) {
    && (forall k :: 0 <= k < |log| ==> 1 <= log[k].planAttempt <= |plans|)
    && (forall j, k :: 0 <= j < k < |log| ==> log[j].planAttempt <= log[k].planAttempt)
    && (forall a :: 1 <= a <= |plans| ==> AttemptShape(EntriesOf(log, a), plans[a - 1].plan))
  }

  /** As above, and in the current attempt exactly the first `m` steps have passed. */
  ghost predicate VerifiedUpTo(log: seq<StepVerification>, plans: seq<PlanAttempt>, m: nat) {
    plans != [] && VerificationShape(log, plans) && AllPassed(EntriesOf(log, |plans|), plans[|plans| - 1].plan, m)
  }

  /** The attempt ended in the failed verification that `f` reports. */
  ghost predicate EndedIn(entries: seq<StepVerification>, f: FailureEvent) {
    entries != [] &&
    var last := entries[|entries| - 1];
    last.result.status == Fail && last.stepId == f.stepId && f.failureType == ClassifyVerification(last.result)
  }

  /** Every attempt that was given up ended in a failed verification. */
  ghost predicate CausesShown(log: seq<StepVerification>, causes: seq<FailureEvent>) {
    forall a :: 1 <= a <= |causes| ==> EndedIn(EntriesOf(log, a), causes[a - 1])
  }

  lemma EntriesAppend(log: seq<StepVerification>, e: StepVerification, a: nat)
    ensures EntriesOf(log + [e], a) == EntriesOf(log, a) + if e.planAttempt == a then [e] else []
  {
    assert (log + [e])[..|log|] == log;
  }

  lemma AppendVerification(log: seq<StepVerification>, plans: seq<PlanAttempt>, m: nat, e: StepVerification)
    requires VerifiedUpTo(log, plans, m) && m < |plans[|plans| - 1].plan.steps|
    requires e.planAttempt == |plans| && AnswersStep(e, plans[|plans| - 1].plan.steps[m])
    ensures VerificationShape(log + [e], plans)
    ensures e.result.status == Pass ==> VerifiedUpTo(log + [e], plans, m + 1)
  {
    hide EntriesOf, AnswersStep;
    forall a | 1 <= a <= |plans| ensures AttemptShape(EntriesOf(log + [e], a), plans[a - 1].plan) {
      EntriesAppend(log, e, a);
      if a < |plans| {
        assert EntriesOf(log + [e], a) == EntriesOf(log, a);
      }
    }
    EntriesAppend(log, e, |plans|);
  }

  lemma {:induction false} NoEntriesYet(log: seq<StepVerification>, a: nat)
    requires forall k :: 0 <= k < |log| ==> log[k].planAttempt < a
    ensures EntriesOf(log, a) == []
  {
    if log != [] {
      NoEntriesYet(log[..|log| - 1], a);
    }
  }

  lemma AppendPlan(log: seq<StepVerification>, plans: seq<PlanAttempt>, p: PlanAttempt)
    requires VerificationShape(log, plans)
    ensures VerifiedUpTo(log, plans + [p], 0)
  {
    NoEntriesYet(log, |plans| + 1);
    forall a | 1 <= a <= |plans| + 1 ensures AttemptShape(EntriesOf(log, a), (plans + [p])[a - 1].plan) {
      if a <= |plans| {
        assert (plans + [p])[a - 1] == plans[a - 1];
      }
    }
  }

  /* ---- Recovery ledger ---- */

  predicate Stopped(recs: seq<RecoveryRecord>) {
    recs != [] && recs[|recs| - 1].decision.action == Stop
  }

  /** The failures that were answered by a new plan, in order. */
  function Causes(recs: seq<RecoveryRecord>): seq<FailureEvent> {
    if recs == [] then []
    else
      var r := recs[|recs| - 1];
      Causes(recs[..|recs| - 1]) + if r.decision.action == Replan then [r.failure] else []
  }

  /** The number of records that sent the run back to the same step. */
  function Retries(recs: seq<RecoveryRecord>): nat {
    if recs == [] then 0
    else Retries(recs[..|recs| - 1]) + if recs[|recs| - 1].decision.action in {Stop, Replan} then 0 else 1
  }

  /** A record made after `earlier`: it answers the next failure as the policy says, in the attempt reached so far. */
  ghost predicate Follows(r: RecoveryRecord, earlier: seq<RecoveryRecord>, maxRetries: nat) {
    && r.failure.retryCount == |earlier|
    && r.decision == Decide(r.failure.failureType, |earlier| < maxRetries)
    && r.retryCountAfter == (if r.decision.action == Stop then |earlier| else |earlier| + 1)
    && r.stepId == r.failure.stepId
    && r.planAttempt == |Causes(earlier)| + 1
    && !Stopped(earlier)
  }

  /** Record k answers failure k, counted from 0, by the policy; only the last may stop. */
  ghost predicate LedgerShape(recs: seq<RecoveryRecord>, maxRetries: nat, retryCount: nat) {
    && (forall k :: 0 <= k < |recs| ==> Follows(recs[k], recs[..k], maxRetries))
    && retryCount == (if Stopped(recs) then |recs| - 1 else |recs|)
    && retryCount <= maxRetries
  }

  lemma LedgerAppends(recs: seq<RecoveryRecord>, r: RecoveryRecord)
    ensures Causes(recs + [r]) == if r.decision.action == Replan then Causes(recs) + [r.failure] else Causes(recs)
    ensures Retries(recs + [r]) == Retries(recs) + if r.decision.action in {Stop, Replan} then 0 else 1
    ensures Stopped(recs + [r]) <==> r.decision.action == Stop
  {
    assert (recs + [r])[..|recs|] == recs;
  }

  lemma AppendRecovery(recs: seq<RecoveryRecord>, maxRetries: nat, r: RecoveryRecord)
    requires LedgerShape(recs, maxRetries, |recs|) && Follows(r, recs, maxRetries)
    ensures LedgerShape(recs + [r], maxRetries, r.retryCountAfter)
  {
    hide Causes;
    forall k | 0 <= k <= |recs| ensures Follows((recs + [r])[k], (recs + [r])[..k], maxRetries) {
      assert (recs + [r])[..k] == recs[..k];
      if k == |recs| {
        assert recs[..k] == recs;
      }
    }
  }

  /* ---- Action history ---- */

  function Tagged(run: StepRun): seq<ActionEntry> {
    seq(|run.result.history|, k requires 0 <= k < |run.result.history| =>
      ActionEntry(run.stepId, run.planAttempt, run.result.history[k]))
  }

  /** The actions of all step runs, in order. */
  function AllActions(runs: seq<StepRun>): seq<ActionEntry> {
    if runs == [] then [] else AllActions(runs[..|runs| - 1]) + Tagged(runs[|runs| - 1])
  }

  lemma ActionsAppend(runs: seq<StepRun>, run: StepRun)
    ensures AllActions(runs + [run]) == AllActions(runs) + Tagged(run)
  {
    assert (runs + [run])[..|runs|] == runs;
  }

  ghost predicate ActedOn(history: seq<ActionEntry>, stepId: nat, attempt: nat) {
    exists k :: 0 <= k < |history| && history[k].stepId == stepId && history[k].planAttempt == attempt
  }

  /** Goals that announce an operation, by the words the code looks for. */
  const OPERATION_MARKERS := [
    "open", "navigate", "switch", "search", "filter", "select", "enable", "disable", "sort", "add", "remove", "fill",
    "save", "log in", "login", "show", "trigger", "refresh", "retry", "move", "go to", "recover"]

  predicate IsOperational(step: PlanStep) {
    ContainsAny(Lower(step.goal), OPERATION_MARKERS)
  }

  /** A step is an operation when its goal mentions one of these words, in any letter case. */
  lemma OperationMeaning(step: PlanStep)
    ensures IsOperational(step) <==>
            MentionsOne(step.goal, ["open", "navigate", "switch", "search", "filter", "select", "enable", "disable",
                                    "sort", "add", "remove", "fill", "save", "log in", "login", "show", "trigger",
                                    "refresh", "retry", "move", "go to", "recover"])
  {
    hide MentionsOne, ContainsAny;
    LowerMentionsOne(step.goal, OPERATION_MARKERS);
  }

  /** Every operational step among the first m was acted on in this attempt. */
  ghost predicate OperationsDone(history: seq<ActionEntry>, plan: TestPlan, attempt: nat, m: nat) {
    m <= |plan.steps| &&
    forall k :: 0 <= k < m && IsOperational(plan.steps[k]) ==> ActedOn(history, plan.steps[k].id, attempt)
  }

  lemma ActedOnGrows(history: seq<ActionEntry>, more: seq<ActionEntry>, stepId: nat, attempt: nat)
    requires ActedOn(history, stepId, attempt)
    ensures ActedOn(history + more, stepId, attempt)
  {
    var k :| 0 <= k < |history| && history[k].stepId == stepId && history[k].planAttempt == attempt;
    assert (history + more)[k] == history[k];
  }

  lemma OperationsGrow(history: seq<ActionEntry>, more: seq<ActionEntry>, plan: TestPlan, attempt: nat, m: nat)
    requires OperationsDone(history, plan, attempt, m)
    ensures OperationsDone(history + more, plan, attempt, m)
  {
    forall k | 0 <= k < m && IsOperational(plan.steps[k]) ensures ActedOn(history + more, plan.steps[k].id, attempt) {
      ActedOnGrows(history, more, plan.steps[k].id, attempt);
    }
  }

  lemma RunActsOn(history: seq<ActionEntry>, run: StepRun)
    requires run.result.history != []
    ensures ActedOn(history + Tagged(run), run.stepId, run.planAttempt)
  {
    assert (history + Tagged(run))[|history|] == Tagged(run)[0];
  }

  /* ---- Step runs ---- */

  /** The agent reported completion for this step in this attempt. */
  ghost predicate CompletedFor(runs: seq<StepRun>, stepId: nat, attempt: nat) {
    exists k :: 0 <= k < |runs| && runs[k].stepId == stepId && runs[k].planAttempt == attempt
                && runs[k].result.status == AgentCompleted
  }

  ghost predicate AllCompleted(runs: seq<StepRun>, plan: TestPlan, attempt: nat, m: nat) {
    m <= |plan.steps| && forall k :: 0 <= k < m ==> CompletedFor(runs, plan.steps[k].id, attempt)
  }

  lemma CompletedGrows(runs: seq<StepRun>, run: StepRun, plan: TestPlan, attempt: nat, m: nat)
    requires AllCompleted(runs, plan, attempt, m)
    ensures AllCompleted(runs + [run], plan, attempt, m)
  {
    forall k | 0 <= k < m ensures CompletedFor(runs + [run], plan.steps[k].id, attempt) {
      assert CompletedFor(runs, plan.steps[k].id, attempt);
      var i :| 0 <= i < |runs| && runs[i].stepId == plan.steps[k].id && runs[i].planAttempt == attempt
               && runs[i].result.status == AgentCompleted;
      assert (runs + [run])[i] == runs[i];
    }
  }

  lemma CompletedByLast(runs: seq<StepRun>, run: StepRun)
    requires run.result.status == AgentCompleted
    ensures CompletedFor(runs + [run], run.stepId, run.planAttempt)
  {
    assert (runs + [run])[|runs|] == run;
  }

  /* ---- All logs of a run together ---- */

  datatype Config = Config(
    enableVerifier: bool,
    enableRecovery: bool,
    maxRetries: nat,
    bootstrapTarget: bool,
    maxSteps: nat,
    acceptance: PlanNormalizer.Fields)

  datatype RunLogs = RunLogs(
    plans: seq<PlanAttempt>,
    runs: seq<StepRun>,
    actions: seq<ActionEntry>,
    verifications: seq<StepVerification>,
    recoveries: seq<RecoveryRecord>)
  {
    function Plan(): TestPlan
      requires plans != []
    {
      plans[|plans| - 1].plan
    }
  }

  ghost predicate RunsShape(c: Config, runs: seq<StepRun>) {
    forall k :: 0 <= k < |runs| ==> HistoryShape(runs[k].result.history, c.maxSteps)
  }

  /** What holds of the logs at every moment, and so of every run however it ends. */
  ghost predicate LogsSound(c: Config, l: RunLogs, retryCount: nat) {
    && PlansShape(c, l.plans, Causes(l.recoveries))
    && |Causes(l.recoveries)| <= |l.plans|
    && RunsShape(c, l.runs) && l.actions == AllActions(l.runs)
    && (if c.enableVerifier then VerificationShape(l.verifications, l.plans) else l.verifications == [])
    && CausesShown(l.verifications, Causes(l.recoveries))
    && LedgerShape(l.recoveries, c.maxRetries, retryCount)
    && |l.runs| <= TotalSteps(l.plans) + Retries(l.recoveries)
  }

  /** In the current attempt the first `m` steps are done; `extra` step runs have been made beyond them. */
  ghost predicate LogsAt(c: Config, l: RunLogs, m: nat, extra: nat) {
    && LogsSound(c, l, |l.recoveries|)
    && |Causes(l.recoveries)| == |l.plans| - 1
    && m + extra <= |l.Plan().steps|
    && (if c.enableVerifier then VerifiedUpTo(l.verifications, l.plans, m)
        else AllCompleted(l.runs, l.Plan(), |l.plans|, m))
    && (c.bootstrapTarget ==> OperationsDone(l.actions, l.Plan(), |l.plans|, m))
    && |l.runs| + |l.Plan().steps| <= TotalSteps(l.plans) + m + extra + Retries(l.recoveries)
  }

  lemma {:induction false} EntriesOnlyGrowNow(log: seq<StepVerification>, causes: seq<FailureEvent>,
                                              e: StepVerification)
    requires CausesShown(log, causes) && e.planAttempt > |causes|
    ensures CausesShown(log + [e], causes)
  {
    hide EndedIn, EntriesOf;
    forall a | 1 <= a <= |causes| ensures EndedIn(EntriesOf(log + [e], a), causes[a - 1]) {
      EntriesAppend(log, e, a);
      assert EntriesOf(log, a) + [] == EntriesOf(log, a);
    }
  }

  /** A step confirmed without an agent run. */
  lemma PreverifiedStep(c: Config, l: RunLogs, m: nat, e: StepVerification)
    requires LogsAt(c, l, m, 0) && m < |l.Plan().steps|
    requires c.enableVerifier && (c.bootstrapTarget ==> !IsOperational(l.Plan().steps[m]))
    requires e.planAttempt == |l.plans| && AnswersStep(e, l.Plan().steps[m]) && e.result.status == Pass
    ensures LogsAt(c, l.(verifications := l.verifications + [e]), m + 1, 0)
  {
    hide PlansShape, LedgerShape, CausesShown, VerificationShape, RunsShape, AnswersStep, IsOperational, Causes,
         Retries, TotalSteps;
    AppendVerification(l.verifications, l.plans, m, e);
    EntriesOnlyGrowNow(l.verifications, Causes(l.recoveries), e);
  }

  /** The agent ran for step m; nothing is concluded yet. */
  lemma RanStep(c: Config, l: RunLogs, m: nat, run: StepRun)
    requires LogsAt(c, l, m, 0) && m < |l.Plan().steps|
    requires run.stepId == l.Plan().steps[m].id && run.planAttempt == |l.plans|
    requires HistoryShape(run.result.history, c.maxSteps)
    ensures var l' := l.(runs := l.runs + [run], actions := l.actions + Tagged(run));
            LogsAt(c, l', m, 1)
            && (run.result.history != [] ==> ActedOn(l'.actions, l.Plan().steps[m].id, |l.plans|))
            && (run.result.status == AgentCompleted ==> CompletedFor(l'.runs, l.Plan().steps[m].id, |l.plans|))
  {
    hide AllCompleted, CompletedFor;
    hide PlansShape, LedgerShape, CausesShown, VerificationShape, VerifiedUpTo, Tagged, AllActions, ActedOn, Causes,
         Retries;
    hide HistoryShape, TotalSteps, IsOperational;
    ActionsAppend(l.runs, run);
    if c.bootstrapTarget {
      OperationsGrow(l.actions, Tagged(run), l.Plan(), |l.plans|, m);
    }
    if run.result.history != [] {
      RunActsOn(l.actions, run);
    }
    if !c.enableVerifier {
      CompletedGrows(l.runs, run, l.Plan(), |l.plans|, m);
    }
    if run.result.status == AgentCompleted {
      CompletedByLast(l.runs, run);
    }
  }

  /** Step m is judged after its run. */
  lemma ConfirmedStep(c: Config, l: RunLogs, m: nat, e: StepVerification)
    requires LogsAt(c, l, m, 1) && c.enableVerifier
    requires c.bootstrapTarget && IsOperational(l.Plan().steps[m]) ==>
              ActedOn(l.actions, l.Plan().steps[m].id, |l.plans|)
    requires e.planAttempt == |l.plans| && AnswersStep(e, l.Plan().steps[m])
    ensures var l' := l.(verifications := l.verifications + [e]);
            && LogsSound(c, l', |l.recoveries|)
            && (e.result.status == Pass ==> LogsAt(c, l', m + 1, 0))
            && EntriesOf(l'.verifications, |l.plans|) == EntriesOf(l.verifications, |l.plans|) + [e]
  {
    hide PlansShape, LedgerShape, CausesShown, VerificationShape, RunsShape, AnswersStep, ActedOn, Causes, Retries,
         TotalSteps;
    AppendVerification(l.verifications, l.plans, m, e);
    EntriesOnlyGrowNow(l.verifications, Causes(l.recoveries), e);
    EntriesAppend(l.verifications, e, |l.plans|);
  }

  /** Step m is taken as done without a verifier. */
  lemma UnverifiedStep(c: Config, l: RunLogs, m: nat)
    requires LogsAt(c, l, m, 1) && !c.enableVerifier
    requires CompletedFor(l.runs, l.Plan().steps[m].id, |l.plans|)
    requires c.bootstrapTarget && IsOperational(l.Plan().steps[m]) ==>
              ActedOn(l.actions, l.Plan().steps[m].id, |l.plans|)
    ensures LogsAt(c, l, m + 1, 0)
  {
    hide PlansShape, LedgerShape, RunsShape, ActedOn, CompletedFor, IsOperational, Causes, Retries, TotalSteps,
         AllActions;
  }

  /** A recovery that retries step m pays for the run it has already made. */
  lemma RetriedStep(c: Config, l: RunLogs, m: nat, r: RecoveryRecord)
    requires LogsAt(c, l, m, 1) && Follows(r, l.recoveries, c.maxRetries)
    requires r.decision.action != Stop && r.decision.action != Replan
    ensures LogsAt(c, l.(recoveries := l.recoveries + [r]), m, 0)
  {
    hide PlansShape, CausesShown, VerificationShape, VerifiedUpTo, RunsShape, OperationsDone, TotalSteps, AllActions,
         Causes, Decide;
    AppendRecovery(l.recoveries, c.maxRetries, r);
    LedgerAppends(l.recoveries, r);
  }

  /** A recovery that stops only adds its record. */
  lemma StoppedRun(c: Config, l: RunLogs, r: RecoveryRecord)
    requires LogsSound(c, l, |l.recoveries|) && Follows(r, l.recoveries, c.maxRetries) && r.decision.action == Stop
    ensures LogsSound(c, l.(recoveries := l.recoveries + [r]), |l.recoveries|)
  {
    hide PlansShape, CausesShown, VerificationShape, RunsShape, TotalSteps, AllActions, Causes, Decide;
    AppendRecovery(l.recoveries, c.maxRetries, r);
    LedgerAppends(l.recoveries, r);
  }

  /** A replan is only ever recorded for an attempt that ended in a failed verification. */
  lemma ReplanScheduled(c: Config, l: RunLogs, r: RecoveryRecord)
    requires LogsSound(c, l, |l.recoveries|) && Follows(r, l.recoveries, c.maxRetries) && r.decision.action == Replan
    requires |Causes(l.recoveries)| == |l.plans| - 1 && EndedIn(EntriesOf(l.verifications, |l.plans|), r.failure)
    ensures var l' := l.(recoveries := l.recoveries + [r]);
            LogsSound(c, l', |l.recoveries| + 1) && |Causes(l'.recoveries)| == |l'.plans|
            && Causes(l'.recoveries)[|l.plans| - 1] == r.failure
  {
    hide LedgerShape, VerificationShape, RunsShape, TotalSteps, AllActions, Causes, EndedIn, ValidPlan, SnapshotPlan;
    AppendRecovery(l.recoveries, c.maxRetries, r);
    LedgerAppends(l.recoveries, r);
  }

  lemma VerifiedIsShaped(log: seq<StepVerification>, plans: seq<PlanAttempt>)
    requires VerifiedUpTo(log, plans, 0)
    ensures VerificationShape(log, plans)
  {
  }

  /** A new plan starts a new attempt with nothing done. */
  lemma ReplannedRun(c: Config, l: RunLogs, p: PlanAttempt)
    requires LogsSound(c, l, |l.recoveries|) && |Causes(l.recoveries)| == |l.plans|
    requires p.attempt == |l.plans| + 1 && p.trigger == Replanned(Causes(l.recoveries)[|l.plans| - 1])
    requires ValidPlan(p.plan) && SnapshotPlan(p.plan, c.acceptance)
    ensures LogsAt(c, l.(plans := l.plans + [p]), 0, 0)
  {
    hide LedgerShape, CausesShown, VerificationShape, RunsShape, AllActions, Causes, ValidPlan, SnapshotPlan,
         Retries, VerifiedUpTo;
    var l' := l.(plans := l.plans + [p]);
    assert l'.plans[..|l.plans|] == l.plans;
    if c.enableVerifier {
      AppendPlan(l.verifications, l.plans, p);
      assert VerificationShape(l'.verifications, l'.plans) by { VerifiedIsShaped(l'.verifications, l'.plans); }
    }
  }

  lemma FreshRun(c: Config, plan: TestPlan)
    requires ValidPlan(plan) && (c.bootstrapTarget ==> SnapshotPlan(plan, c.acceptance))
    ensures LogsAt(c, RunLogs([PlanAttempt(1, Initial, plan)], [], [], [], []), 0, 0)
  {
    hide ValidPlan, SnapshotPlan;
    var plans := [PlanAttempt(1, Initial, plan)];
    assert plans[..0] == [];
    AppendPlan([], [], PlanAttempt(1, Initial, plan));
    assert [] + plans == plans;
  }
}
