/** What the end of a planned run says about the whole of it. */
module RunTheorems {
  import opened Common
  import opened SafetyModels
  import opened Plans
  import opened Verifier
  import opened Recovery
  import opened AgentLoop
  import opened RunLog
  import opened PlannedLoop
  import opened PlanNormalizer
  import opened Planner

  /** A log entry contains passing evidence for a criterion. */
  ghost predicate Shows(e: StepVerification, rule: Rule, expected: string) {
    exists i :: 0 <= i < |e.result.evidence| && e.result.evidence[i] == Evidence(rule, expected, true)
  }

  /** The final plan's entries answer its steps in order, each with passing evidence for every criterion. */
  ghost predicate EveryCriterionShown(l: RunLogs)
    requires l.plans != []
  {
    var entries := EntriesOf(l.verifications, |l.plans|);
    && |entries| == |l.Plan().steps|
    && forall k, j :: 0 <= k < |entries| && 0 <= j < |l.Plan().steps[k].criteria| ==>
         && entries[k].stepId == k + 1
         && Shows(entries[k], l.Plan().steps[k].criteria[j].rule, l.Plan().steps[k].criteria[j].expected)
  }

  /**
    A verified run that passed shows passing evidence, in its final attempt, for every criterion of
    every step, one entry a step and in order, whatever retries and replans came before.
   */
  lemma PassedMeansShown(c: Config, l: RunLogs)
    requires l.plans != [] && LogsAt(c, l, |l.Plan().steps|, 0) && c.enableVerifier
    ensures EveryCriterionShown(l)
  {
    hide EntriesOf, VerificationShape, CausesShown, LedgerShape, RunsShape, AllActions, Causes, OperationsDone,
         ValidStep, SnapshotPlan;
    var plan, entries := l.Plan(), EntriesOf(l.verifications, |l.plans|);
    forall k, j | 0 <= k < |entries| && 0 <= j < |plan.steps[k].criteria|
      ensures entries[k].stepId == k + 1
      ensures Shows(entries[k], plan.steps[k].criteria[j].rule, plan.steps[k].criteria[j].expected)
    {
      assert AnswersStep(entries[k], plan.steps[k]);
      assert entries[k].result.evidence[j] ==
             Evidence(plan.steps[k].criteria[j].rule, plan.steps[k].criteria[j].expected, true);
    }
  }

  /**
    The framework's controls reach the evidence: in a passed verified run against a live page, each
    control that applies is shown by the step that names it first.
   */
  lemma PassedShowsControls(c: Config, l: RunLogs, b: Binding, k: nat)
    requires l.plans != [] && LogsAt(c, l, |l.Plan().steps|, 0) && c.enableVerifier && c.bootstrapTarget
    requires b in Bindings(c.acceptance) && Applies(b, c.acceptance) && FirstNamed(l.Plan(), b.hint, k)
    ensures ParseRule(b.rule).Some? && k < |EntriesOf(l.verifications, |l.plans|)|
            && Shows(EntriesOf(l.verifications, |l.plans|)[k], ParseRule(b.rule).value, b.expected.s)
  {
    hide EntriesOf, VerificationShape, CausesShown, LedgerShape, RunsShape, AllActions, Causes, OperationsDone,
         VerifiedUpTo;
    hide Bindings, ParseRule, Contains, ValidPlan, Shows;
    assert SnapshotPlan(l.Plan(), c.acceptance);
    assert HasControl(l.Plan(), b, k);
    PassedMeansShown(c, l);
    var j :| 0 <= j < |l.Plan().steps[k].criteria| && l.Plan().steps[k].criteria[j] == Control(b);
  }

  /* ---- Work ---- */

  lemma {:induction false} PlansAddUp(plans: seq<PlanAttempt>, n: nat)
    requires forall k :: 0 <= k < |plans| ==> |plans[k].plan.steps| <= n
    ensures TotalSteps(plans) <= n * |plans|
  {
    if plans != [] {
      PlansAddUp(plans[..|plans| - 1], n);
    }
  }

  /** Every retry used was spent on a new plan or on sending a step back. */
  lemma {:induction false} RetriesAreSpent(recs: seq<RecoveryRecord>, maxRetries: nat)
    requires forall k :: 0 <= k < |recs| ==> Follows(recs[k], recs[..k], maxRetries)
    ensures |Causes(recs)| + Retries(recs) == Used(recs)
  {
    hide Decide;
    if recs != [] {
      var front := recs[..|recs| - 1];
      forall k | 0 <= k < |front| ensures Follows(front[k], front[..k], maxRetries) {
        assert front[..k] == recs[..k];
      }
      RetriesAreSpent(front, maxRetries);
      assert Follows(recs[|front|], recs[..|front|], maxRetries);
    }
  }

  lemma Spread(n: nat, a: nat, b: nat)
    ensures n * (a + b) == n * a + n * b
  {
  }

  lemma {:induction false} AtLeastOnce(n: nat, d: nat)
    requires n > 0
    ensures n * d >= d
  {
    if d > 0 {
      AtLeastOnce(n, d - 1);
      Spread(n, d - 1, 1);
    }
  }

  lemma HistoryFits(h: seq<ActionRecord>, maxSteps: nat)
    requires HistoryShape(h, maxSteps)
    ensures |h| <= maxSteps
  {
  }

  lemma {:induction false} ActionsAddUp(c: Config, runs: seq<StepRun>)
    requires RunsShape(c, runs)
    ensures |AllActions(runs)| <= c.maxSteps * |runs|
  {
    hide HistoryShape;
    if runs != [] {
      var n := |runs| - 1;
      ActionsAddUp(c, runs[..n]);
      Spread(c.maxSteps, n, 1);
      assert |runs[n].result.history| <= c.maxSteps by { HistoryFits(runs[n].result.history, c.maxSteps); }
    }
  }

  lemma PlansAreBounded(c: Config, l: RunLogs)
    requires LogsSound(c, l, Used(l.recoveries))
    ensures |l.plans| <= c.maxRetries + 1 && |l.recoveries| <= c.maxRetries + 1
    ensures |l.plans| + Retries(l.recoveries) <= c.maxRetries + 1
  {
    hide VerificationShape, CausesShown, RunsShape, AllActions, SnapshotPlan, Follows, Causes, Retries, TotalSteps;
    RetriesAreSpent(l.recoveries, c.maxRetries);
  }

  /** With plans of at most `n` steps, a run makes at most n * (max_retries + 1) step runs, however it ends. */
  lemma StepRunsAreBounded(c: Config, l: RunLogs, n: nat)
    requires LogsSound(c, l, Used(l.recoveries))
    requires forall k :: 0 <= k < |l.plans| ==> |l.plans[k].plan.steps| <= n
    ensures |l.plans| <= c.maxRetries + 1 && |l.recoveries| <= c.maxRetries + 1
    ensures |l.runs| <= n * (c.maxRetries + 1) && |l.actions| <= c.maxSteps * |l.runs|
  {
    hide VerificationShape, CausesShown, RunsShape, AllActions, SnapshotPlan, Follows, Causes, Retries, TotalSteps;
    ActionsAddUp(c, l.runs);
    PlansAddUp(l.plans, n);
    PlansAreBounded(c, l);
    assert ValidPlan(l.plans[0].plan);
    var d := c.maxRetries + 1 - |l.plans|;
    Spread(n, |l.plans|, d);
    AtLeastOnce(n, d);
    assert c.maxRetries + 1 == |l.plans| + d;
  }

  /* ---- The ledger ---- */

  lemma NothingLogged(l: RunLogs, a: nat)
    requires l.verifications == []
    ensures EntriesOf(l.verifications, a) == []
  {
  }

  /** Replans happen for failed verifications only: each given-up attempt ended in the failure its successor answers. */
  lemma ReplansAnswerVerifications(c: Config, l: RunLogs, a: nat)
    requires LogsSound(c, l, Used(l.recoveries)) && 1 <= a < |l.plans|
    ensures c.enableVerifier && l.plans[a].trigger.Replanned?
    ensures EndedIn(EntriesOf(l.verifications, a), l.plans[a].trigger.failure)
  {
    hide EntriesOf, VerificationShape, LedgerShape, RunsShape, AllActions, Causes, ValidPlan, SnapshotPlan;
    assert EndedIn(EntriesOf(l.verifications, a), Causes(l.recoveries)[a - 1]);
    if !c.enableVerifier {
      NothingLogged(l, a);
    }
  }

  lemma EarlierRecord(recs: seq<RecoveryRecord>, maxRetries: nat, k: nat)
    requires k < |recs| - 1 && Follows(recs[k], recs[..k], maxRetries)
              && Follows(recs[k + 1], recs[..k + 1], maxRetries)
    ensures recs[k].decision.consumeRetry && k < maxRetries
    ensures recs[k].failure.failureType !in {ActionForbidden, FailureType.Unknown}
  {
    hide Causes;
    assert recs[..k + 1][k] == recs[k];
    DecisionMeaning(recs[k].failure.failureType, k < maxRetries);
  }

  lemma LastRecord(recs: seq<RecoveryRecord>, maxRetries: nat)
    requires recs != [] && Follows(recs[|recs| - 1], recs[..|recs| - 1], maxRetries) && Used(recs) <= maxRetries
    ensures Stopped(recs) <==>
            recs[|recs| - 1].failure.failureType in {ActionForbidden, FailureType.Unknown} || |recs| - 1 == maxRetries
  {
    DecisionMeaning(recs[|recs| - 1].failure.failureType, |recs| - 1 < maxRetries);
  }

  /**
    Recovery gives up exactly when the last failure may not be retried at all, or comes when the
    whole budget has been used; every failure before it was retried.
   */
  lemma GivingUp(c: Config, l: RunLogs)
    requires LogsSound(c, l, Used(l.recoveries)) && l.recoveries != []
    ensures var n := |l.recoveries| - 1;
            && (Stopped(l.recoveries) <==>
                  l.recoveries[n].failure.failureType in {ActionForbidden, FailureType.Unknown} || n == c.maxRetries)
            && forall k :: 0 <= k < n ==>
                 l.recoveries[k].decision.consumeRetry && k < c.maxRetries
                 && l.recoveries[k].failure.failureType !in {ActionForbidden, FailureType.Unknown}
  {
    hide VerificationShape, CausesShown, RunsShape, AllActions, PlansShape, Causes, Retries, Follows, TotalSteps;
    var n := |l.recoveries| - 1;
    LastRecord(l.recoveries, c.maxRetries);
    forall k | 0 <= k < n
      ensures l.recoveries[k].decision.consumeRetry && k < c.maxRetries
      ensures l.recoveries[k].failure.failureType !in {ActionForbidden, FailureType.Unknown}
    {
      EarlierRecord(l.recoveries, c.maxRetries, k);
    }
  }

  /* ---- Exceptional ends exist ---- */

  /** A plan of `n` steps that look for a text. */
  function TextPlan(n: nat, goal: string): TestPlan {
    TestPlan(seq(n, k requires 0 <= k < n =>
      PlanStep(k + 1, goal, [Criterion(VisibleTextContains, "x", None, None)], L0)))
  }

  lemma TextPlanIsValid(n: nat, goal: string)
    requires n > 0 && goal != ""
    ensures ValidPlan(TextPlan(n, goal)) && SnapshotPlan(TextPlan(n, goal), map[])
  {
  }

  /** A goal of one blank passes plan validation, though no agent will work on it. */
  lemma BlankGoalIsValid()
    ensures ValidPlan(TextPlan(1, " ")) && HasBlankGoal(TextPlan(1, " "))
  {
    TextPlanIsValid(1, " ");
    assert Strip(TextPlan(1, " ").steps[0].goal) == "";
  }

  const PLAIN := Config(true, true, 2, false, 6, map[])

  function Answer(step: nat, status: VerificationStatus): StepVerification {
    StepVerification(step, VerificationResult(status, [Evidence(VisibleTextContains, "x", status == Pass)]), 1)
  }

  lemma AnswerFits(n: nat, goal: string, k: nat, status: VerificationStatus)
    requires k < n
    ensures AnswersStep(Answer(k + 1, status), TextPlan(n, goal).steps[k])
  {
    assert Answer(k + 1, status).result.evidence[0].passed <==> status == Pass;
  }

  /** A run whose third step fails its verification, and for which a new plan has been decided. */
  function ThirdStepFailed(run: StepRun): RunLogs {
    var failure := FailureEvent(AssertionFailed, 3, "", 0);
    RunLogs([PlanAttempt(1, Initial, TextPlan(3, "look"))], [run], Tagged(run),
            [Answer(1, Pass), Answer(2, Pass), Answer(3, Fail)],
            [RecoveryRecord(1, 3, failure, RecoveryDecision(Replan, true), 1)])
  }

  /** Two steps confirmed without the agent. */
  lemma TwoStepsConfirmed()
    ensures var plans := [PlanAttempt(1, Initial, TextPlan(3, "look"))];
            LogsAt(PLAIN, RunLogs(plans, [], [], [Answer(1, Pass), Answer(2, Pass)], []), 2, 0)
  {
    hide LogsAt, ValidPlan, SnapshotPlan, AnswersStep;
    var plans := [PlanAttempt(1, Initial, TextPlan(3, "look"))];
    TextPlanIsValid(3, "look");
    FreshRun(PLAIN, TextPlan(3, "look"));
    AnswerFits(3, "look", 0, Pass);
    AnswerFits(3, "look", 1, Pass);
    PreverifiedStep(PLAIN, RunLogs(plans, [], [], [], []), 0, Answer(1, Pass));
    assert [] + [Answer(1, Pass)] == [Answer(1, Pass)];
    PreverifiedStep(PLAIN, RunLogs(plans, [], [], [Answer(1, Pass)], []), 1, Answer(2, Pass));
    assert [Answer(1, Pass)] + [Answer(2, Pass)] == [Answer(1, Pass), Answer(2, Pass)];
  }

  /** Such logs are sound, and the replan they lead to has to fit index 2. */
  lemma ThirdStepFailedIsSound(run: StepRun)
    requires run.stepId == 3 && run.planAttempt == 1 && run.result.history == []
    ensures var l := ThirdStepFailed(run);
            && LogsSound(PLAIN, l, |l.recoveries|) && |Causes(l.recoveries)| == |l.plans|
            && Causes(l.recoveries)[0] == l.recoveries[0].failure
  {
    hide LogsAt, LogsSound, ValidPlan, SnapshotPlan, VerifiedUpTo, VerificationShape, AnswersStep;
    var plans := [PlanAttempt(1, Initial, TextPlan(3, "look"))];
    var passed := [Answer(1, Pass), Answer(2, Pass)];
    TwoStepsConfirmed();
    RanStep(PLAIN, RunLogs(plans, [], [], passed, []), 2, run);
    assert [] + [run] == [run] && [] + Tagged(run) == Tagged(run);
    var ran := RunLogs(plans, [run], Tagged(run), passed, []);
    AnswerFits(3, "look", 2, Fail);
    ConfirmedStep(PLAIN, ran, 2, Answer(3, Fail));
    assert passed + [Answer(3, Fail)] == [Answer(1, Pass), Answer(2, Pass), Answer(3, Fail)];
    var judged := ran.(verifications := passed + [Answer(3, Fail)]);
    var record := ThirdStepFailed(run).recoveries[0];
    assert [] + [record] == [record];
    ReplanScheduled(PLAIN, judged, record);
  }

  /** The refusal of a new plan happens: step 3 of 3 has failed, and the planner answers with one step. */
  method ReplanCanBeRefused(agent: PlannedBrowserAgent, run: StepRun) returns (ok: bool, state: Day4RunState)
    requires agent.config == PLAIN && run.stepId == 3 && run.planAttempt == 1 && run.result.history == []
    ensures fresh(state) && state.Valid() && LogsSound(PLAIN, state.Logs(), |state.recoveryHistory|)
    ensures state.currentStepIndex == 2 && !ok
  {
    hide LogsSound, LogsAt, ValidPlan, SnapshotPlan;
    ThirdStepFailedIsSound(run);
    TextPlanIsValid(1, "look");
    var l := ThirdStepFailed(run);
    state := new Day4RunState(TextPlan(3, "look"));
    state.currentStepIndex, state.stepRuns, state.history := 2, l.runs, l.actions;
    state.stepVerifications, state.recoveryHistory := l.verifications, l.recoveries;
    ok := agent.AdoptPlan(state, TextPlan(1, "look"), l.recoveries[0].failure);
  }
}
