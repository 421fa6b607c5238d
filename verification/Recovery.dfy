/** Failure classification, recovery policy and retry budget (webpilot/recovery). */
module Recovery {
  import opened Common
  import opened Plans
  import opened Browser
  import opened Verifier

  datatype FailureType =
    | ElementNotFound
    | ElementNotVisible
    | Timeout
    | PageChanged
    | WrongPage
    | AssertionFailed
    | ActionForbidden
    | Unknown

  datatype RecoveryAction = ReObserve | ShortWait | RetryOnce | Replan | Stop

  datatype FailureEvent = FailureEvent(failureType: FailureType, stepId: nat, message: string, retryCount: nat)

  datatype RecoveryDecision = RecoveryDecision(action: RecoveryAction, consumeRetry: bool)

  /* ---- Classification ---- */

  const FORBIDDEN_TOKENS := ["not allowed", "forbidden", "action forbidden"]
  const NOT_FOUND_TOKENS := ["unknown element ref", "unknown ref", "element not found", "could not find element",
                             "locator not found", "invalid element ref"]
  const NOT_VISIBLE_TOKENS := ["not visible", "element is hidden", "element hidden", "outside of the viewport"]
  const PAGE_CHANGED_TOKENS := ["execution context was destroyed", "because of navigation", "page changed",
                                "target page has been closed", "target closed"]

  /** The branch chain over an exception's lower-cased text and class name. */
  function ClassifyException(lowered: string, className: string, isKeyError: bool, hasRef: bool): (t: FailureType)
    ensures t != WrongPage && t != AssertionFailed
    ensures t == ActionForbidden <==> ContainsAny(lowered, FORBIDDEN_TOKENS)
  {
    if ContainsAny(lowered, FORBIDDEN_TOKENS) then ActionForbidden
    else if isKeyError && hasRef then ElementNotFound
    else if ContainsAny(lowered, NOT_FOUND_TOKENS) then ElementNotFound
    else if ContainsAny(lowered, NOT_VISIBLE_TOKENS) then ElementNotVisible
    else if ContainsAny(lowered, PAGE_CHANGED_TOKENS) then PageChanged
    else if Contains(className, "timeout") || Contains(lowered, "timeout") || Contains(lowered, "timed out")
        then Timeout
    else Unknown
  }

  /**
    The classes, in words: the text of an exception decides, in any letter case. Forbidden comes first,
    then the lost element, which a KeyError about an element also is, the hidden one, the changed page
    and the timeout, which the class name can also tell; nothing else is known.
   */
  lemma MessageMeaning(message: string, name: string, isKeyError: bool, hasRef: bool)
    ensures var t := ClassifyException(Lower(message), Lower(name), isKeyError, hasRef);
            var forbidden := MentionsOne(message, ["not allowed", "forbidden", "action forbidden"]);
            var lost := MentionsOne(message, ["unknown element ref", "unknown ref", "element not found",
                                              "could not find element", "locator not found", "invalid element ref"]);
            var hidden := MentionsOne(message, ["not visible", "element is hidden", "element hidden",
                                                "outside of the viewport"]);
            var changed := MentionsOne(message, ["execution context was destroyed", "because of navigation",
                                                 "page changed", "target page has been closed", "target closed"]);
            var late := Mentions(message, "timeout") || Mentions(message, "timed out") || Mentions(name, "timeout");
            t == if forbidden then ActionForbidden
                 else if (isKeyError && hasRef) || lost then ElementNotFound
                 else if hidden then ElementNotVisible
                 else if changed then PageChanged
                 else if late then Timeout
                 else Unknown
  {
    hide Mentions, MentionsOne, ContainsAny;
    LowerMentionsOne(message, FORBIDDEN_TOKENS);
    LowerMentionsOne(message, NOT_FOUND_TOKENS);
    LowerMentionsOne(message, NOT_VISIBLE_TOKENS);
    LowerMentionsOne(message, PAGE_CHANGED_TOKENS);
    LowerMentions(message, "timeout");
    LowerMentions(message, "timed out");
    LowerMentions(name, "timeout");
  }

  /** What the workflow raises is a RuntimeError, whose name is no timeout. */
  lemma RuntimeErrorIsNotLate()
    ensures Lower("RuntimeError") == "runtimeerror" && !Mentions("RuntimeError", "timeout")
  {
    var name, word := "RuntimeError", "timeout";
    LowerMeaning(name);
    LowerIsOnly(name, "runtimeerror");
    LowerMentions(name, word);
    forall i: nat | i + 7 <= 12 ensures !OccursAt("runtimeerror", word, i) {
      assert "runtimeerror"[i..i + 7][4] == "runtimeerror"[i + 4] && "runtimeerror"[i + 4] != 'o' && word[4] == 'o';
    }
  }

  function ClassifyVerification(r: VerificationResult): (t: FailureType)
    ensures t == WrongPage || t == AssertionFailed
  {
    if exists k | 0 <= k < |r.evidence| :: r.evidence[k].rule == UrlContains && !r.evidence[k].passed
    then WrongPage else AssertionFailed
  }

  /** A failed verification is blamed on the page exactly when a URL criterion does not hold on it. */
  lemma WrongPageMeansUrlFailed(r: VerificationResult, o: Observation, criteria: seq<Criterion>)
    requires Truthful(r, o, criteria)
    ensures ClassifyVerification(r) == WrongPage <==>
            exists k :: 0 <= k < |criteria| && criteria[k].rule == UrlContains && !Contains(o.url, criteria[k].expected)
  {
    if ClassifyVerification(r) == WrongPage {
      var k :| 0 <= k < |r.evidence| && r.evidence[k].rule == UrlContains && !r.evidence[k].passed;
      assert criteria[k].rule == UrlContains && !Holds(o, criteria[k]);
    } else {
      forall k | 0 <= k < |criteria| && criteria[k].rule == UrlContains ensures Contains(o.url, criteria[k].expected) {
        assert r.evidence[k].passed && Holds(o, criteria[k]);
      }
    }
  }

  /* ---- Policy ---- */

  function Decide(t: FailureType, canRetry: bool): RecoveryDecision {
    match t
    case ActionForbidden => RecoveryDecision(Stop, false)
    case Unknown => RecoveryDecision(Stop, false)
    case _ =>
      if !canRetry then RecoveryDecision(Stop, false)
      else match t
        case ElementNotFound => RecoveryDecision(ReObserve, true)
        case ElementNotVisible => RecoveryDecision(ShortWait, true)
        case Timeout => RecoveryDecision(RetryOnce, true)
        case PageChanged => RecoveryDecision(ReObserve, true)
        case WrongPage => RecoveryDecision(Replan, true)
        case AssertionFailed => RecoveryDecision(Replan, true)
        case _ => RecoveryDecision(Stop, false)
  }

  /**
    A decision costs a retry exactly when it does not stop, and then there was one left; only
    verification failures replan.
   */
  lemma DecisionMeaning(t: FailureType, canRetry: bool)
    ensures var d := Decide(t, canRetry);
            && (d.consumeRetry <==> d.action != Stop)
            && (d.action == Stop <==> !canRetry || t in {ActionForbidden, Unknown})
            && (d.action == ReObserve <==> canRetry && t in {ElementNotFound, PageChanged})
            && (d.action == ShortWait <==> canRetry && t == ElementNotVisible)
            && (d.action == RetryOnce <==> canRetry && t == Timeout)
            && (d.action == Replan <==> canRetry && t in {WrongPage, AssertionFailed})
  {
  }

  /* ---- Budget ---- */

  datatype BudgetError = BudgetExhausted

  class RetryBudget {
    const maxRetries: nat
    var retryCount: nat

    constructor (maxRetries: nat)
      ensures this.maxRetries == maxRetries && retryCount == 0
    {
      this.maxRetries := maxRetries;
      retryCount := 0;
    }

    predicate CanRetry()
      reads this
    {
      retryCount < maxRetries
    }

    function Remaining(): nat
      reads this
    {
      if maxRetries > retryCount then maxRetries - retryCount else 0
    }

    method Consume() returns (r: Result<(), BudgetError>)
      modifies this
      ensures r.Success? <==> old(CanRetry())
      ensures r.Success? ==> retryCount == old(retryCount) + 1 && Remaining() == old(Remaining()) - 1
      ensures r.Failure? ==> retryCount == old(retryCount)
    {
      if !CanRetry() {
        return Failure(BudgetExhausted);
      }
      retryCount := retryCount + 1;
      r := Success(());
    }
  }
}
