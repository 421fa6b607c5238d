/** The single-agent loop: observe, decide, act, observe (webpilot/agents/loop.py). */
module AgentLoop {
  import opened Common
  import opened SafetyModels
  import opened Plans
  import opened Browser
  import opened Verifier
  import opened Tools
  import opened Locator
  import opened Healing

  const DONE_TOO_EARLY := "Actor attempted DONE before the required browser action."
  const CANCELLED_BEFORE_ACTION := "Run was cancelled before the next action."
  const STEP_LIMIT := "Agent reached the Day 3 max_steps limit without a DONE response."

  datatype AgentStatus = AgentCompleted | MaxStepsReached | ActorFailed | ToolFailed | AgentCancelled

  /** `error` is None exactly when the call returned an outcome. */
  datatype ActionRecord = ActionRecord(
    step: nat,
    tool: string,
    arguments: Arguments,
    error: Option<ToolError>,
    healing: Option<HealingResult>)

  datatype AgentResult = AgentResult(
    status: AgentStatus,
    observation: Observation,
    history: seq<ActionRecord>,
    error: Option<ToolError>)

  /** A blank goal or URL, or an observation that raises outside the healing branch, leaves the loop as an exception. */
  datatype AgentOutcome = Finished(result: AgentResult) | ObservationRaised | BlankInput

  /** How one turn of the step loop ends. */
  datatype TurnOutcome =
    | Continue(history: seq<ActionRecord>, observation: Observation)
    | Return(result: AgentResult)
    | Raise

  datatype Decision = Done | UseTool(tool: string, arguments: Arguments)

  /** Records are numbered 1, 2, ... within the limit, and only the last can have failed. */
  ghost predicate HistoryShape(h: seq<ActionRecord>, maxSteps: nat) {
    && |h| <= maxSteps
    && (forall k :: 0 <= k < |h| ==> h[k].step == k + 1)
    && (forall k :: 0 <= k < |h| - 1 ==> h[k].error.None?)
  }

  predicate LastFailed(h: seq<ActionRecord>) {
    h != [] && h[|h| - 1].error.Some?
  }

  /** What every finished agent run looks like. */
  ghost predicate ResultShape(r: AgentResult, maxSteps: nat, requireAction: bool, approved: set<Fingerprint>) {
    && HistoryShape(r.history, maxSteps)
    && (LastFailed(r.history) <==> r.status == ToolFailed)
    && (r.status == ToolFailed ==> r.error == r.history[|r.history| - 1].error)
    && (r.status == MaxStepsReached ==> |r.history| == maxSteps)
    && (r.status == AgentCompleted <==> r.error.None?)
    && (r.status == AgentCompleted && requireAction ==> r.history != [])
    && (r.error.Some? && r.error.value.ApprovalNeeded? ==>
          r.status == ToolFailed && r.error.value.approval.fingerprint !in approved)
  }

  predicate IsRecordOf(record: ActionRecord, tool: string, arguments: Arguments) {
    record.tool == tool && record.arguments == arguments
  }

  /** The history records the decided calls, in order; one more decision may have followed them. */
  predicate Carried(h: seq<ActionRecord>, decisions: seq<Decision>) {
    && |h| <= |decisions| <= |h| + 1
    && forall k :: 0 <= k < |h| ==>
         decisions[k].UseTool? && IsRecordOf(h[k], decisions[k].tool, decisions[k].arguments)
  }

  /** The last decision was that there is nothing left to do. */
  predicate SaidDone(h: seq<ActionRecord>, decisions: seq<Decision>) {
    |decisions| == |h| + 1 && decisions[|h|].Done?
  }

  /** The completion check holds on a page. */
  ghost predicate Met(criteria: Option<seq<Criterion>>, o: Observation) {
    criteria.Some? && criteria.value != [] && forall k :: 0 <= k < |criteria.value| ==> Holds(o, criteria.value[k])
  }

  /** No run goes on, or gives up, on a page that meets its completion check, unless an action is still owed. */
  ghost predicate NotMetYet(criteria: Option<seq<Criterion>>, requireAction: bool, h: seq<ActionRecord>,
                            o: Observation) {
    !requireAction || h != [] ==> !Met(criteria, o)
  }

  /** The trace grew by at most `calls` tool calls, and respects the cancel flag. */
  ghost predicate Bounded(t: Trace, t': Trace, calls: nat) {
    && Attempts(t') <= Attempts(t) + calls
    && (CancelledIn(t) ==> CancelledIn(t') && Attempts(t') == Attempts(t))
    && (forall s :: Late(t', s) <= Late(t, s) + 1)
    && (forall s :: !CancelledIn(t') || CancelledIn(t) ==> Late(t', s) == Late(t, s))
  }

  lemma BoundedChain(t: Trace, u: Trace, v: Trace, m: nat, n: nat)
    requires Bounded(t, u, m) && Bounded(u, v, n)
    ensures Bounded(t, v, m + n)
  {
    hide Attempts, Late, CancelledIn;
  }

  lemma BoundedSelf(t: Trace)
    ensures Bounded(t, t, 0)
  {
  }

  lemma BoundedMore(t: Trace, u: Trace, m: nat, n: nat)
    requires Bounded(t, u, m) && m <= n
    ensures Bounded(t, u, n)
  {
  }

  lemma EmptyHistory(maxSteps: nat)
    ensures HistoryShape([], maxSteps) && !LastFailed([])
  {
  }

  /** One more record keeps the shape of a history in which nothing has failed. */
  lemma RecordAppended(h: seq<ActionRecord>, maxSteps: nat, record: ActionRecord)
    requires HistoryShape(h, maxSteps) && |h| < maxSteps && !LastFailed(h) && record.step == |h| + 1
    ensures HistoryShape(h + [record], maxSteps)
    ensures LastFailed(h + [record]) <==> record.error.Some?
  {
  }

  /** A result whose last record did not fail. */
  lemma UnfailedResult(r: AgentResult, maxSteps: nat, requireAction: bool, approved: set<Fingerprint>)
    requires HistoryShape(r.history, maxSteps) && !LastFailed(r.history) && r.status != ToolFailed
    requires r.status == MaxStepsReached ==> |r.history| == maxSteps
    requires r.status == AgentCompleted <==> r.error.None?
    requires r.status == AgentCompleted && requireAction ==> r.history != []
    requires r.error.Some? ==> r.error.value.ToolFailure?
    ensures ResultShape(r, maxSteps, requireAction, approved)
  {
    hide HistoryShape;
  }

  lemma FailedResult(r: AgentResult, maxSteps: nat, requireAction: bool, approved: set<Fingerprint>)
    requires HistoryShape(r.history, maxSteps) && LastFailed(r.history) && r.status == ToolFailed
    requires r.error == r.history[|r.history| - 1].error
    requires r.error.Some? && r.error.value.ApprovalNeeded? ==> r.error.value.approval.fingerprint !in approved
    ensures ResultShape(r, maxSteps, requireAction, approved)
  {
    hide HistoryShape;
  }

  /** A healed repetition: what was captured, what was chosen, the reply, and the acts before and of the call. */
  datatype Repetition = Repetition(
    captured: seq<Captured>, repair: HealingResult, reply: Result<(), ToolError>, seen: Trace, call: Trace)

  class SingleBrowserAgent {
    const tools: BrowserToolExecutor
    const world: World
    const approved: set<Fingerprint>
    const maxSteps: nat
    const healer: Option<Healer>

    ghost predicate Valid()
      reads this, tools, tools.gate, tools.gate.world
    {
      && world == tools.gate.world && approved == tools.gate.approved
      && maxSteps > 0
      && (healer.Some? ==> IsRatio(healer.value.ratio))
      && tools.gate.Sound()
    }

    constructor (tools: BrowserToolExecutor, maxSteps: nat, healer: Option<Healer>)
      requires tools.gate.Sound() && maxSteps > 0 && (healer.Some? ==> IsRatio(healer.value.ratio))
      ensures Valid() && this.tools == tools && this.maxSteps == maxSteps && this.healer == healer
    {
      this.tools, this.maxSteps, this.healer := tools, maxSteps, healer;
      this.world, this.approved := tools.gate.world, tools.gate.approved;
    }

    /** The actor is an oracle; while it thinks, cancellation may be requested. None when it raises. */
    method Decide() returns (d: Option<Decision>)
      requires Valid()
      modifies world`trace, world`cancelled
      ensures Valid() && (old(world.cancelled) ==> world.cancelled)
      ensures Attempts(world.trace) == Attempts(old(world.trace))
      ensures forall s :: Late(world.trace, s) == Late(old(world.trace), s)
    {
      var _ := world.Pass(approved);
      d := *;
    }

    /** A semantic snapshot of the element about to be used; None when healing is off or nothing can be captured. */
    method CaptureSignature(tool: string, arguments: Arguments) returns (signature: Option<Signature>)
      ensures signature.Some? ==> healer.Some? && tool in {"click", "fill", "select_option"} && "ref" in arguments
    {
      if healer.None? || tool !in {"click", "fill", "select_option"} {
        return None;
      }
      if "ref" !in arguments || !arguments["ref"].Text? || ElementFor(world.elements, arguments["ref"].s).None? {
        return None;
      }
      signature := *;
    }

    /** The repetition is the decided call, with the ref the locator chose on the page now observed. */
    ghost predicate RepeatedOn(t: Repetition, acts: Trace, tool: string, arguments: Arguments, signature: Signature,
                               observation: Observation, n: nat)
      requires healer.Some?
    {
      && acts == t.seen + t.call && Quiet(t.seen)
      && |t.captured| == |observation.elements|
      && (forall k :: 0 <= k < |t.captured| ==> t.captured[k].ref == observation.elements[k].ref)
      && HealOutcome(healer.value, signature, t.captured) == Success(t.repair)
      && CallActs(t.call, Healed, tool, arguments["ref" := Text(t.repair.healedRef)], observation.elements, n, approved,
                  t.reply)
    }

    /**
      Looks for the lost element on a fresh page and repeats the call on what it is healed to; None when
      any of that fails. `tried` is the repetition, if it came to one, and `acts` all that was done.
     */
    method RetryHealed(tool: string, arguments: Arguments, signature: Signature, observation0: Observation)
      returns (healing: Option<HealingResult>, observation: Observation, ghost tried: Option<Repetition>,
               ghost acts: Trace)
      requires Valid() && healer.Some?
      modifies world, tools.gate`records
      ensures world.trace == old(world.trace) + acts
      ensures tried.None? ==> Quiet(acts) && healing.None?
      ensures tried.Some? ==>
                && RepeatedOn(tried.value, acts, tool, arguments, signature, observation, |old(tools.gate.records)|)
                && healing == if tried.value.reply.Success? then Some(tried.value.repair) else None
      ensures Valid() && (old(world.cancelled) ==> world.cancelled)
      ensures Attempts(old(world.trace)) <= Attempts(world.trace) <= Attempts(old(world.trace)) + 1
      ensures forall s :: Late(world.trace, s) <= Late(old(world.trace), s) + if s == Healed then 1 else 0
      ensures forall s :: !world.cancelled ==> Late(world.trace, s) == Late(old(world.trace), s)
      ensures healing.Some? ==> healing.value.score >= healer.value.minScore
    {
      hide Attempts, Late, Audits, Effects, Authorised, CancelledIn, CallActs, HealOutcome, IsMinted;
      observation, tried, healing := observation0, None, None;
      var page;
      page, acts := world.Observe(approved);
      if page.None? {
        return;
      }
      observation := page.value;
      var capture: Element -> Option<Signature> := *;
      var captured := seq(|page.value.elements|, k requires 0 <= k < |page.value.elements| =>
                            Captured(page.value.elements[k].ref, capture(page.value.elements[k])));
      var repaired := Heal(healer.value, signature, captured);
      if repaired.Failure? {
        return;
      }
      HealedReaches(healer.value, signature, captured);
      var again := arguments["ref" := Text(repaired.value.healedRef)];
      ghost var seen := acts;
      var outcome, call := tools.Execute(Healed, tool, again);
      acts := seen + call;
      tried := Some(Repetition(captured, repaired.value, outcome, seen, call));
      healing := if outcome.Success? then Some(repaired.value) else None;
    }

    /**
      One decided action. `acts` is the decided call itself, with reply `first`; `later` is what came of
      trying to heal it, which only a failed call is, and never an approval request.
     */
    method Act(step: nat, tool: string, arguments: Arguments, observation0: Observation)
      returns (record: ActionRecord, observation: Observation, ghost first: Result<(), ToolError>, ghost acts: Trace,
               ghost later: Trace, ghost tried: Option<Repetition>)
      requires Valid()
      modifies world, tools.gate`records
      ensures world.trace == old(world.trace) + acts + later
      ensures CallActs(acts, Decided, tool, arguments, old(world.elements), |old(tools.gate.records)|, approved, first)
      ensures first.Success? ==> record.error.None? && record.healing.None? && later == []
      ensures first.Failure? && first.error.ApprovalNeeded? ==>
                record.error == Some(first.error) && later == [] && Effects(world.trace) == Effects(old(world.trace))
      ensures first.Failure? ==> if record.error.Some? then record.error.value == first.error else record.healing.Some?
      ensures tried.None? ==> Quiet(later) && record.healing.None?
      ensures tried.Some? ==>
                && healer.Some? && first.Failure? && first.error.ToolFailure?
                && (exists signature, n :: RepeatedOn(tried.value, later, tool, arguments, signature, observation, n))
                && record.healing == if tried.value.reply.Success? then Some(tried.value.repair) else None
      ensures Valid() && (old(world.cancelled) ==> world.cancelled)
      ensures Attempts(old(world.trace)) < Attempts(world.trace) <= Attempts(old(world.trace)) + 2
      ensures forall s :: Late(world.trace, s) <=
                          Late(old(world.trace), s) + if s == Decided || s == Healed then 1 else 0
      ensures forall s :: !world.cancelled ==> Late(world.trace, s) == Late(old(world.trace), s)
      ensures record.step == step && record.tool == tool && record.arguments == arguments
      ensures record.error.Some? && record.error.value.ApprovalNeeded? ==>
                record.error.value.approval.fingerprint !in approved
    {
      hide Attempts, Late, Audits, Effects, Authorised, CancelledIn, CallActs, IsMinted, HealOutcome;
      observation, later, tried := observation0, [], None;
      var signature := CaptureSignature(tool, arguments);
      var outcome;
      outcome, acts := tools.Execute(Decided, tool, arguments);
      first := outcome;
      if outcome.Success? {
        record := ActionRecord(step, tool, arguments, None, None);
        return;
      }
      var healing := None;
      if signature.Some? && outcome.error.ToolFailure? {
        healing, observation, tried, later := RetryHealed(tool, arguments, signature.value, observation);
      }
      record := ActionRecord(step, tool, arguments, if healing.Some? then None else Some(outcome.error), healing);
    }

    method Satisfied(criteria: Option<seq<Criterion>>, o: Observation) returns (b: bool)
      ensures b <==> Met(criteria, o)
    {
      if criteria.None? {
        return false;
      }
      var r := Verify(o, criteria.value);
      b := r.status == Pass;
    }

    /** Acts, and looks at the page that results. */
    method ActAndLook(history0: seq<ActionRecord>, observation0: Observation, tool: string, arguments: Arguments,
                      criteria: Option<seq<Criterion>>, requireAction: bool)
      returns (t: TurnOutcome)
      requires Valid()
      requires HistoryShape(history0, maxSteps) && |history0| < maxSteps && !LastFailed(history0)
      modifies world, tools.gate`records
      ensures Valid() && (old(world.cancelled) ==> world.cancelled)
      ensures Attempts(world.trace) <= Attempts(old(world.trace)) + 2
      ensures forall s :: Late(world.trace, s) <= Late(old(world.trace), s) + 1
      ensures forall s :: !world.cancelled ==> Late(world.trace, s) == Late(old(world.trace), s)
      ensures t.Continue? ==>
                && HistoryShape(t.history, maxSteps) && |t.history| == |history0| + 1 && !LastFailed(t.history)
                && history0 <= t.history && IsRecordOf(t.history[|history0|], tool, arguments)
                && !Met(criteria, t.observation)
      ensures t.Return? ==>
                && t.result.status in {AgentCompleted, ToolFailed}
                && ResultShape(t.result, maxSteps, requireAction, approved)
                && history0 <= t.result.history && |t.result.history| == |history0| + 1
                && IsRecordOf(t.result.history[|history0|], tool, arguments)
                && (t.result.status == AgentCompleted ==> Met(criteria, t.result.observation))
    {
      hide Attempts, Late, Audits, Effects, Authorised, CancelledIn, HistoryShape, LastFailed, ResultShape, Met,
           IsMinted;
      var record, observation, _, _, _, _ := Act(|history0| + 1, tool, arguments, observation0);
      var history := history0 + [record];
      RecordAppended(history0, maxSteps, record);
      if record.error.Some? {
        t := Return(AgentResult(ToolFailed, observation, history, record.error));
        FailedResult(t.result, maxSteps, requireAction, approved);
        return;
      }
      var next, _ := world.Observe(approved);
      if next.None? {
        return Raise;
      }
      var satisfied := Satisfied(criteria, next.value);
      if !satisfied {
        return Continue(history, next.value);
      }
      t := Return(AgentResult(AgentCompleted, next.value, history, None));
      UnfailedResult(t.result, maxSteps, requireAction, approved);
    }

    /** One turn of the step loop, entered with the cancel flag down. */
    method Turn(history0: seq<ActionRecord>, observation0: Observation, criteria: Option<seq<Criterion>>,
                requireAction: bool)
      returns (t: TurnOutcome, ghost decided: Option<Decision>)
      requires Valid() && !world.cancelled
      requires HistoryShape(history0, maxSteps) && |history0| < maxSteps && !LastFailed(history0)
      requires NotMetYet(criteria, requireAction, history0, observation0)
      modifies world, tools.gate`records
      ensures Valid() && Bounded(old(world.trace), world.trace, 2)
      ensures t.Continue? ==>
                && HistoryShape(t.history, maxSteps) && |t.history| == |history0| + 1 && !LastFailed(t.history)
                && NotMetYet(criteria, requireAction, t.history, t.observation)
      ensures decided.None? || decided.value.Done? ==> t.Return? && t.result.history == history0
      ensures decided.None? ==> t.result.status == ActorFailed
      ensures decided == Some(Done) ==>
                t.result.status == if requireAction && history0 == [] then ActorFailed else AgentCompleted
      ensures decided.Some? && decided.value.UseTool? && !t.Raise? ==>
                var h := if t.Return? then t.result.history else t.history;
                && |h| == |history0| + 1 && history0 <= h
                && IsRecordOf(h[|history0|], decided.value.tool, decided.value.arguments)
      ensures t.Return? && t.result.status == AgentCompleted ==>
                decided == Some(Done) || Met(criteria, t.result.observation)
      ensures t.Return? ==>
                && t.result.status in {AgentCompleted, ActorFailed, ToolFailed}
                && ResultShape(t.result, maxSteps, requireAction, approved) && history0 <= t.result.history
                && (t.result.status == ActorFailed ==>
                      NotMetYet(criteria, requireAction, t.result.history, t.result.observation))
    {
      hide Attempts, Late, Audits, Effects, Authorised, CancelledIn, HistoryShape, LastFailed, ResultShape, Met,
           IsMinted;
      var decision := Decide();
      decided := decision;
      if decision.None? {
        var text: string := *;
        t := Return(AgentResult(ActorFailed, observation0, history0, Some(ToolFailure(text))));
        UnfailedResult(t.result, maxSteps, requireAction, approved);
        return;
      }
      if decision.value.Done? {
        t := if requireAction && history0 == []
             then Return(AgentResult(ActorFailed, observation0, history0, Some(ToolFailure(DONE_TOO_EARLY))))
             else Return(AgentResult(AgentCompleted, observation0, history0, None));
        UnfailedResult(t.result, maxSteps, requireAction, approved);
        return;
      }
      t := ActAndLook(history0, observation0, decision.value.tool, decision.value.arguments, criteria, requireAction);
    }

    /** The step loop, from the first page on; `start` is the trace at the start of the run. */
    method Steps(first: Observation, criteria: Option<seq<Criterion>>, requireAction: bool, ghost start: Trace)
      returns (outcome: AgentOutcome, ghost decisions: seq<Decision>)
      requires Valid() && Bounded(start, world.trace, 0) && (CancelledIn(start) ==> world.cancelled)
      requires NotMetYet(criteria, requireAction, [], first)
      modifies world, tools.gate`records
      ensures Valid() && Bounded(start, world.trace, 2 * maxSteps) && !outcome.BlankInput?
      ensures outcome.Finished? ==> ResultShape(outcome.result, maxSteps, requireAction, approved)
      ensures outcome.Finished? && outcome.result.status in {MaxStepsReached, ActorFailed, AgentCancelled} ==>
                NotMetYet(criteria, requireAction, outcome.result.history, outcome.result.observation)
      ensures outcome.Finished? ==> Carried(outcome.result.history, decisions)
      ensures outcome.Finished? && outcome.result.status == AgentCompleted ==>
                SaidDone(outcome.result.history, decisions) || Met(criteria, outcome.result.observation)
      ensures outcome.Finished? && SaidDone(outcome.result.history, decisions) ==>
                outcome.result.status == AgentCompleted || (requireAction && outcome.result.history == [])
      ensures outcome.Finished? && outcome.result.status == AgentCancelled ==> world.cancelled
      ensures outcome.Finished? && CancelledIn(start) ==>
                outcome.result.history == [] && outcome.result.status in {AgentCompleted, AgentCancelled}
    {
      hide Attempts, Late, Audits, Effects, Authorised, CancelledIn, HistoryShape, LastFailed, ResultShape, Met,
           IsMinted;
      hide Bounded;
      var history: seq<ActionRecord>, observation := [], first;
      decisions := [];
      EmptyHistory(maxSteps);
      for step := 1 to maxSteps + 1
        invariant Valid()
        invariant |history| == step - 1 && HistoryShape(history, maxSteps) && !LastFailed(history)
        invariant |decisions| == |history| && Carried(history, decisions)
        invariant Bounded(start, world.trace, 2 * |history|)
        invariant CancelledIn(start) ==> world.cancelled && history == []
        invariant NotMetYet(criteria, requireAction, history, observation)
      {
        BoundedMore(start, world.trace, 2 * |history|, 2 * maxSteps);
        if world.cancelled {
          outcome := Finished(AgentResult(AgentCancelled, observation, history,
                                          Some(ToolFailure(CANCELLED_BEFORE_ACTION))));
          UnfailedResult(outcome.result, maxSteps, requireAction, approved);
          return;
        }
        ghost var before := world.trace;
        var t;
        ghost var decided;
        t, decided := Turn(history, observation, criteria, requireAction);
        decisions := decisions + if decided.Some? then [decided.value] else [];
        BoundedChain(start, before, world.trace, 2 * |history|, 2);
        BoundedMore(start, world.trace, 2 * |history| + 2, 2 * maxSteps);
        match t
        case Return(result) => return Finished(result), decisions;
        case Raise => return ObservationRaised, decisions;
        case Continue(h, o) => history, observation := h, o;
      }
      outcome := Finished(AgentResult(MaxStepsReached, observation, history, Some(ToolFailure(STEP_LIMIT))));
      UnfailedResult(outcome.result, maxSteps, requireAction, approved);
    }

    /** `criteria` is the completion check, None when there is none. */
    method Run(goal: string, targetUrl: string, criteria: Option<seq<Criterion>>, requireAction: bool)
      returns (outcome: AgentOutcome, ghost decisions: seq<Decision>)
      requires Valid()
      modifies world, tools.gate`records
      ensures outcome.BlankInput? <==> Strip(goal) == "" || Strip(targetUrl) == ""
      ensures outcome.BlankInput? ==> world.trace == old(world.trace)
      ensures Valid() && Bounded(old(world.trace), world.trace, 2 * maxSteps)
      ensures outcome.Finished? ==> ResultShape(outcome.result, maxSteps, requireAction, approved)
      ensures outcome.Finished? && outcome.result.status in {MaxStepsReached, ActorFailed, AgentCancelled} ==>
                NotMetYet(criteria, requireAction, outcome.result.history, outcome.result.observation)
      ensures outcome.Finished? ==> Carried(outcome.result.history, decisions)
      ensures outcome.Finished? && outcome.result.status == AgentCompleted ==>
                SaidDone(outcome.result.history, decisions) || Met(criteria, outcome.result.observation)
      ensures outcome.Finished? && SaidDone(outcome.result.history, decisions) ==>
                outcome.result.status == AgentCompleted || (requireAction && outcome.result.history == [])
      ensures outcome.Finished? && outcome.result.status == AgentCancelled ==> world.cancelled
      ensures outcome.Finished? && old(world.cancelled) ==>
                outcome.result.history == [] && outcome.result.status in {AgentCompleted, AgentCancelled}
    {
      hide Attempts, Late, Audits, Effects, Authorised, CancelledIn, HistoryShape, LastFailed, ResultShape, Met,
           IsMinted;
      hide Strip;
      decisions := [];
      BoundedSelf(world.trace);
      BoundedMore(world.trace, world.trace, 0, 2 * maxSteps);
      if Strip(goal) == "" || Strip(targetUrl) == "" {
        return BlankInput, [];
      }
      var first, _ := world.Observe(approved);
      if first.None? {
        return ObservationRaised, [];
      }
      if !requireAction {
        var satisfied := Satisfied(criteria, first.value);
        if satisfied {
          EmptyHistory(maxSteps);
          outcome := Finished(AgentResult(AgentCompleted, first.value, [], None));
          UnfailedResult(outcome.result, maxSteps, requireAction, approved);
          return;
        }
      }
      outcome, decisions := Steps(first.value, criteria, requireAction, old(world.trace));
    }
  }
}
