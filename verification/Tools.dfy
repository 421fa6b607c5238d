/**
  The safety gate and the browser tool executor (webpilot/safety, webpilot/browser/tools.py).

  `World` is everything outside the agent: the page, which answers as it likes, and the cancel flag,
  which may be set at any time. It keeps a trace of what was attempted, authorised and done.
 */
module Tools {
  import opened Common
  import opened SafetyModels
  import opened Browser
  import Planner

  /* ---- Requests ---- */

  /** A JSON argument; everything that is not a string is rejected alike. */
  datatype Value = Text(s: string) | NotText

  type Arguments = map<string, Value>

  datatype ToolError = ApprovalNeeded(approval: ApprovalRequest) | ToolFailure(text: string)

  datatype Source = Bootstrap | Decided | Healed

  /* ---- Risk ---- */

  const HIGH_RISK_TERMS := ["delete", "remove", "destroy", "pay", "purchase", "buy", "order", "book", "send", "submit",
                            "confirm", "subscribe", "unsubscribe", "transfer", "publish"]
  const SENSITIVE_FIELD_TERMS := ["password", "passcode", "otp", "one-time", "verification code", "cvv", "cvc",
                                  "card number", "credit card", "bank account", "ssn", "passport"]

  function TargetText(t: SafetyTarget): string {
    var name := if t.name.Some? then t.name.value else "";
    var role := if t.role.Some? then t.role.value else "";
    Lower(if name == "" then role else if role == "" then name else name + " " + role)
  }

  function Classify(tool: string, t: SafetyTarget): RiskLevel {
    if tool in {"get_page_state", "open_url"} then L0
    else if tool == "fill" then if ContainsAny(TargetText(t), SENSITIVE_FIELD_TERMS) then L3 else L1
    else if tool == "select_option" then L1
    else if tool == "click" then if ContainsAny(TargetText(t), HIGH_RISK_TERMS) then L3 else L1
    else L3
  }

  predicate IsLowRisk(r: RiskLevel) {
    r == L0 || r == L1
  }

  /* ---- Risk, in words ---- */

  function OrNothing(s: Option<string>): string {
    if s.Some? then s.value else ""
  }

  lemma NothingMentions(word: string)
    requires word != ""
    ensures !Mentions("", word)
  {
  }

  /** A blank in front does not matter to a word that does not start with one. */
  lemma LeadingBlank(text: string, word: string)
    requires word != "" && word[0] != ' '
    ensures Mentions("" + " " + text, word) <==> Mentions(text, word)
  {
    hide Mentions;
    MentionsIsPosition("" + " " + text, word);
    MentionsIsPosition(text, word);
    if Mentions(text, word) {
      var i: nat :| MentionedAt(text, word, i);
      FoundInWhole("", text, word, i);
    }
    if Mentions("" + " " + text, word) {
      var i: nat :| MentionedAt("" + " " + text, word, i);
      if i == 0 {
        MentionedChar("" + " " + text, word, 0, 0);
      } else {
        assert ("" + " " + text)[i..i + |word|] == text[i - 1..i - 1 + |word|];
        assert MentionedAt(text, word, i - 1);
      }
    }
  }

  lemma TrailingBlank(text: string, word: string)
    requires word != "" && word[|word| - 1] != ' '
    ensures Mentions(text + " " + "", word) <==> Mentions(text, word)
  {
    hide Mentions;
    MentionsIsPosition(text + " " + "", word);
    MentionsIsPosition(text, word);
    if Mentions(text, word) {
      var i: nat :| MentionedAt(text, word, i);
      FoundInWhole(text, "", word, i);
    }
    if Mentions(text + " " + "", word) {
      var i: nat :| MentionedAt(text + " " + "", word, i);
      if i + |word| == |text| + 1 {
        MentionedChar(text + " " + "", word, i, |text|);
      } else {
        assert (text + " " + "")[i..i + |word|] == text[i..i + |word|];
        assert MentionedAt(text, word, i);
      }
    }
  }

  /** A word without a blank at either end ... */
  predicate Trimmed(word: string) {
    word != "" && word[0] != ' ' && word[|word| - 1] != ' '
  }

  /** ... and none between them. */
  predicate Plain(word: string) {
    Trimmed(word) && forall i :: 0 <= i < |word| ==> word[i] != ' '
  }

  /** What the policy reads is name and role, with a blank between them, in any letter case. */
  lemma ShownText(t: SafetyTarget, words: seq<string>)
    requires forall word :: word in words ==> Trimmed(word)
    ensures ContainsAny(TargetText(t), words) <==> MentionsOne(OrNothing(t.name) + " " + OrNothing(t.role), words)
  {
    hide Mentions, Contains;
    var name, role := OrNothing(t.name), OrNothing(t.role);
    var text := if name == "" then role else if role == "" then name else name + " " + role;
    LowerMentionsOne(text, words);
    forall word | word in words ensures Mentions(text, word) <==> Mentions(name + " " + role, word) {
      LeadingBlank(role, word);
      TrailingBlank(name, word);
    }
  }

  lemma PlainWords()
    ensures Plain("delete") && Plain("remove") && Plain("destroy") && Plain("pay") && Plain("purchase")
    ensures Plain("buy") && Plain("order") && Plain("book") && Plain("send") && Plain("submit")
    ensures Plain("confirm") && Plain("subscribe") && Plain("unsubscribe") && Plain("transfer") && Plain("publish")
  {
  }

  lemma HighRiskTerms()
    ensures forall k :: 0 <= k < |HIGH_RISK_TERMS| ==> Plain(HIGH_RISK_TERMS[k])
  {
    hide Plain;
    PlainWords();
  }

  lemma TrimmedWords()
    ensures Trimmed("password") && Trimmed("passcode") && Trimmed("otp") && Trimmed("one-time")
    ensures Trimmed("verification code") && Trimmed("cvv") && Trimmed("cvc") && Trimmed("card number")
    ensures Trimmed("credit card") && Trimmed("bank account") && Trimmed("ssn") && Trimmed("passport")
  {
  }

  lemma SensitiveTerms()
    ensures forall k :: 0 <= k < |SENSITIVE_FIELD_TERMS| ==> Trimmed(SENSITIVE_FIELD_TERMS[k])
  {
    hide Trimmed;
    TrimmedWords();
  }

  lemma ClickTerms(t: SafetyTarget)
    ensures Classify("click", t) == if ContainsAny(TargetText(t), HIGH_RISK_TERMS) then L3 else L1
    ensures Classify("fill", t) == if ContainsAny(TargetText(t), SENSITIVE_FIELD_TERMS) then L3 else L1
  {
    hide ContainsAny, TargetText, HIGH_RISK_TERMS, SENSITIVE_FIELD_TERMS;
  }

  lemma ClickWords(t: SafetyTarget)
    ensures ContainsAny(TargetText(t), HIGH_RISK_TERMS) <==>
            MentionsOne(OrNothing(t.name), HIGH_RISK_TERMS) || MentionsOne(OrNothing(t.role), HIGH_RISK_TERMS)
  {
    hide MentionsOne, ContainsAny, TargetText, Trimmed, HIGH_RISK_TERMS;
    HighRiskTerms();
    ShownText(t, HIGH_RISK_TERMS);
    MentionsOneEither(OrNothing(t.name), OrNothing(t.role), HIGH_RISK_TERMS);
  }

  /** A click is risky exactly when name or role mentions one of these words, in any letter case. */
  lemma ClickRisk(t: SafetyTarget)
    ensures var words := ["delete", "remove", "destroy", "pay", "purchase", "buy", "order", "book", "send", "submit",
                          "confirm", "subscribe", "unsubscribe", "transfer", "publish"];
            Classify("click", t) ==
            if MentionsOne(OrNothing(t.name), words) || MentionsOne(OrNothing(t.role), words) then L3 else L1
  {
    hide MentionsOne, ContainsAny, TargetText, Classify;
    ClickTerms(t);
    ClickWords(t);
  }

  lemma FillWords(t: SafetyTarget)
    ensures ContainsAny(TargetText(t), SENSITIVE_FIELD_TERMS) <==>
            MentionsOne(OrNothing(t.name) + " " + OrNothing(t.role), SENSITIVE_FIELD_TERMS)
  {
    hide MentionsOne, ContainsAny, TargetText, Trimmed, SENSITIVE_FIELD_TERMS;
    SensitiveTerms();
    ShownText(t, SENSITIVE_FIELD_TERMS);
  }

  /** A fill is risky exactly when the name, followed by the role, mentions one of these, in any letter case. */
  lemma FillRisk(t: SafetyTarget)
    ensures var words := ["password", "passcode", "otp", "one-time", "verification code", "cvv", "cvc",
                          "card number", "credit card", "bank account", "ssn", "passport"];
            Classify("fill", t) == if MentionsOne(OrNothing(t.name) + " " + OrNothing(t.role), words) then L3 else L1
  {
    hide MentionsOne, ContainsAny, TargetText, Classify;
    ClickTerms(t);
    FillWords(t);
  }

  /** Looking, opening and choosing are never risky; anything unknown always is. */
  lemma OtherRisk(tool: string, t: SafetyTarget)
    requires tool != "click" && tool != "fill"
    ensures Classify(tool, t) ==
            if tool == "get_page_state" || tool == "open_url" then L0 else if tool == "select_option" then L1 else L3
  {
  }

  function FirstText(a: Option<string>, b: Option<string>, c: Option<string>): Option<string> {
    if a.Some? && a.value != "" then a
    else if b.Some? && b.value != "" then b
    else c
  }

  function TargetOf(e: Element): SafetyTarget {
    SafetyTarget(e.role, FirstText(e.name, e.text, e.placeholder), None)
  }

  function UnknownRef(ref: string): (e: ToolError)
    ensures e.ToolFailure?
  {
    ToolFailure("KeyError: 'Unknown element ref: " + ref + "'")
  }

  /** The call names an element, resolvable or not. */
  predicate NamesElement(tool: string, arguments: Arguments) {
    tool != "open_url" && "ref" in arguments && arguments["ref"].Text?
  }

  /** What a call is aimed at: the element its ref resolves to, a URL, or nothing in particular. */
  function TargetOfCall(elements: seq<Element>, tool: string, arguments: Arguments)
    : (r: Result<SafetyTarget, ToolError>)
    ensures r.Failure? ==> r.error.ToolFailure? && NamesElement(tool, arguments)
  {
    if tool == "open_url" then
      var url := if "url" in arguments && arguments["url"].Text? then Some(arguments["url"].s) else None;
      Success(SafetyTarget(None, None, url))
    else if !NamesElement(tool, arguments) then Success(SafetyTarget(None, None, None))
    else
      var e := ElementFor(elements, arguments["ref"].s);
      if e.None? then Failure(UnknownRef(arguments["ref"].s)) else Success(TargetOf(e.value))
  }

  const CLICKABLE_ROLES := {"button", "link", "checkbox", "radio", "switch", "tab", "menuitem", "option",
                              "treeitem"}

  /** Whether the tool may act on the element: visible, enabled, and of a role that fits. */
  predicate Actionable(tool: string, e: Element) {
    && e.visible && e.enabled && e.role.Some?
    && (tool == "click" ==> e.role.value in CLICKABLE_ROLES)
    && (tool == "fill" ==> e.role.value == "textbox")
    && (tool == "select_option" ==> e.role.value == "combobox")
  }

  /**
    Whether the gate refuses a call, in words. A click is refused exactly when it was not approved and
    the name or the role mentions a purchase, a dispatch or a destruction; a fill, when they ask for
    credentials; looking, opening and choosing never; and any other tool unless approved.
   */
  ghost predicate RefusedInWords(tool: string, target: SafetyTarget, approved: set<Fingerprint>, refused: bool) {
    var name, role := OrNothing(target.name), OrNothing(target.role);
    var trade := ["delete", "remove", "destroy", "pay", "purchase", "buy", "order", "book", "send", "submit",
                  "confirm", "subscribe", "unsubscribe", "transfer", "publish"];
    var credentials := ["password", "passcode", "otp", "one-time", "verification code", "cvv", "cvc",
                        "card number", "credit card", "bank account", "ssn", "passport"];
    if Fingerprint(tool, target) in approved then !refused
    else if tool == "click" then refused <==> MentionsOne(name, trade) || MentionsOne(role, trade)
    else if tool == "fill" then refused <==> MentionsOne(name + " " + role, credentials)
    else refused <==> tool != "open_url" && tool != "get_page_state" && tool != "select_option"
  }

  lemma RefusalInWords(tool: string, target: SafetyTarget, approved: set<Fingerprint>)
    ensures RefusedInWords(tool, target, approved,
                           !IsLowRisk(Classify(tool, target)) && Fingerprint(tool, target) !in approved)
  {
    hide Classify, MentionsOne;
    if tool == "click" {
      ClickRisk(target);
    } else if tool == "fill" {
      FillRisk(target);
    } else {
      OtherRisk(tool, target);
    }
  }

  /* ---- The trace ---- */

  datatype AuditRecord = AuditRecord(sequence: nat, allowed: bool, risk: RiskLevel, tool: string, target: SafetyTarget)

  /** The record of the decision on a call: harmless and approved calls are allowed. */
  function RecordOf(sequence: nat, tool: string, target: SafetyTarget, approved: set<Fingerprint>): AuditRecord {
    var risk := Classify(tool, target);
    AuditRecord(sequence, IsLowRisk(risk) || Fingerprint(tool, target) in approved, risk, tool, target)
  }

  /** The error asks for the approval of this tool on this target. */
  predicate IsRequestFor(error: ToolError, tool: string, target: SafetyTarget) {
    && error.ApprovalNeeded?
    && error.approval.fingerprint == Fingerprint(tool, target) && error.approval.riskLevel == Classify(tool, target)
  }

  /** An action let wait is let through once its own fingerprint has been approved, whatever its ref is then. */
  lemma ApprovalIsHonoured(elements: seq<Element>, later: seq<Element>, tool: string, arguments: Arguments,
                           again: Arguments, error: ToolError, approved: set<Fingerprint>, n: nat)
    requires TargetOfCall(elements, tool, arguments).Success?
    requires TargetOfCall(later, tool, again) == TargetOfCall(elements, tool, arguments)
    requires IsRequestFor(error, tool, TargetOfCall(elements, tool, arguments).value)
    requires error.approval.fingerprint in approved
    ensures RecordOf(n, tool, TargetOfCall(later, tool, again).value, approved).allowed
  {
  }

  datatype Act =
    | CancelRequested
    | Attempt(source: Source)
    | Audit(record: AuditRecord)
    | ElementEffect(tool: string, element: Element, value: Option<string>)
    | OpenEffect(url: string)

  type Trace = seq<Act>

  function Front(t: Trace): Trace
    requires t != []
  {
    t[..|t| - 1]
  }

  function Last(t: Trace): Act
    requires t != []
  {
    t[|t| - 1]
  }

  predicate CancelledIn(t: Trace) {
    t != [] && (Last(t) == CancelRequested || CancelledIn(Front(t)))
  }

  function Attempts(t: Trace): nat {
    if t == [] then 0 else Attempts(Front(t)) + if Last(t).Attempt? then 1 else 0
  }

  /** Attempts from `source` that began after cancellation was requested. */
  function Late(t: Trace, source: Source): nat {
    if t == [] then 0
    else Late(Front(t), source) + if Last(t) == Attempt(source) && CancelledIn(Front(t)) then 1 else 0
  }

  function Audits(t: Trace): seq<AuditRecord> {
    if t == [] then [] else Audits(Front(t)) + if Last(t).Audit? then [Last(t).record] else []
  }

  predicate IsEffect(a: Act) {
    a.ElementEffect? || a.OpenEffect?
  }

  function Effects(t: Trace): nat {
    if t == [] then 0 else Effects(Front(t)) + if IsEffect(Last(t)) then 1 else 0
  }

  /** The record lets the action through, because it is harmless or because it was approved. */
  predicate Permits(record: AuditRecord, approved: set<Fingerprint>) {
    && record.allowed
    && record.risk == Classify(record.tool, record.target)
    && (IsLowRisk(record.risk) || Fingerprint(record.tool, record.target) in approved)
  }

  /** The act right before an effect is the audit record that permits this effect on this element. */
  predicate EffectPermitted(before: Trace, effect: Act, approved: set<Fingerprint>) {
    && before != [] && Last(before).Audit?
    && Permits(Last(before).record, approved)
    && (effect.ElementEffect? ==>
          && Last(before).record.tool == effect.tool && Last(before).record.target == TargetOf(effect.element)
          && Actionable(effect.tool, effect.element))
    && (effect.OpenEffect? ==> Last(before).record.tool == "open_url")
  }

  /** Every effect in the trace is permitted by its own audit record, and records are numbered 1, 2, ... */
  predicate Authorised(t: Trace, approved: set<Fingerprint>) {
    t == [] ||
    (&& Authorised(Front(t), approved)
     && (IsEffect(Last(t)) ==> EffectPermitted(Front(t), Last(t), approved))
     && (Last(t).Audit? ==> Last(t).record.sequence == |Audits(Front(t))| + 1))
  }

  /** What one more act does to all the measures of a trace. */
  lemma Snoc(t: Trace, a: Act)
    ensures CancelledIn(t + [a]) <==> a == CancelRequested || CancelledIn(t)
    ensures Attempts(t + [a]) == Attempts(t) + if a.Attempt? then 1 else 0
    ensures forall s :: Late(t + [a], s) == Late(t, s) + if a == Attempt(s) && CancelledIn(t) then 1 else 0
    ensures Audits(t + [a]) == Audits(t) + if a.Audit? then [a.record] else []
    ensures Effects(t + [a]) == Effects(t) + if IsEffect(a) then 1 else 0
    ensures forall approved :: Authorised(t + [a], approved) <==>
              && Authorised(t, approved)
              && (IsEffect(a) ==> EffectPermitted(t, a, approved))
              && (a.Audit? ==> a.record.sequence == |Audits(t)| + 1)
  {
    assert Front(t + [a]) == t && Last(t + [a]) == a;
  }

  /** The pointwise reading of `Authorised`. */
  lemma {:induction false} EveryEffectIsAuthorised(t: Trace, approved: set<Fingerprint>, k: nat)
    requires Authorised(t, approved) && k < |t|
    ensures IsEffect(t[k]) ==> k > 0 && EffectPermitted(t[..k], t[k], approved) && t[k - 1] == Last(t[..k])
  {
    if k < |t| - 1 {
      EveryEffectIsAuthorised(Front(t), approved, k);
      assert Front(t)[..k] == t[..k];
    } else {
      assert Front(t) == t[..k];
    }
  }

  lemma {:induction false} AuditsAreNumbered(t: Trace, approved: set<Fingerprint>)
    requires Authorised(t, approved)
    ensures forall k :: 0 <= k < |Audits(t)| ==> Audits(t)[k].sequence == k + 1
  {
    if t != [] {
      AuditsAreNumbered(Front(t), approved);
    }
  }

  /** The text an element shows for its target: its name, else its text, else its placeholder. */
  lemma TargetMeaning(e: Element)
    ensures TargetOf(e).role == e.role && TargetOf(e).url.None?
    ensures e.name.Some? && e.name.value != "" ==> TargetOf(e).name == e.name
    ensures (e.name.None? || e.name.value == "") && e.text.Some? && e.text.value != "" ==> TargetOf(e).name == e.text
    ensures (e.name.None? || e.name.value == "") && (e.text.None? || e.text.value == "") ==>
              TargetOf(e).name == e.placeholder
  {
  }

  /** Every click in a trace is on a visible, enabled control of a clickable role, and a risky one was approved. */
  lemma ClicksAreApproved(t: Trace, approved: set<Fingerprint>, k: nat)
    requires Authorised(t, approved) && k < |t| && t[k].ElementEffect? && t[k].tool == "click"
    ensures var e, target := t[k].element, TargetOf(t[k].element);
            var words := ["delete", "remove", "destroy", "pay", "purchase", "buy", "order", "book", "send", "submit",
                          "confirm", "subscribe", "unsubscribe", "transfer", "publish"];
            && e.visible && e.enabled && e.role.Some?
            && e.role.value in {"button", "link", "checkbox", "radio", "switch", "tab", "menuitem", "option",
                              "treeitem"}
            && (MentionsOne(OrNothing(target.name), words) || MentionsOne(OrNothing(target.role), words) ==>
                  Fingerprint("click", target) in approved)
  {
    hide MentionsOne, TargetOf, Classify;
    EveryEffectIsAuthorised(t, approved, k);
    ClickRisk(TargetOf(t[k].element));
  }

  /** Every fill is on a visible, enabled text box, and one that asks for credentials was approved. */
  lemma FillsAreApproved(t: Trace, approved: set<Fingerprint>, k: nat)
    requires Authorised(t, approved) && k < |t| && t[k].ElementEffect? && t[k].tool == "fill"
    ensures var e, target := t[k].element, TargetOf(t[k].element);
            var words := ["password", "passcode", "otp", "one-time", "verification code", "cvv", "cvc",
                          "card number", "credit card", "bank account", "ssn", "passport"];
            && e.visible && e.enabled && e.role == Some("textbox")
            && (MentionsOne(OrNothing(target.name) + " " + OrNothing(target.role), words) ==>
                  Fingerprint("fill", target) in approved)
  {
    hide MentionsOne, TargetOf, Classify;
    EveryEffectIsAuthorised(t, approved, k);
    FillRisk(TargetOf(t[k].element));
  }

  /* ---- What one call does ---- */

  const ALLOWED_BROWSER_TOOLS := {"open_url", "click", "fill", "select_option", "get_page_state"}

  /** Nothing but cancel requests. */
  ghost predicate Quiet(acts: Trace) {
    forall a :: a in acts ==> a == CancelRequested
  }

  lemma QuietJoins(a: Trace, b: Trace)
    requires Quiet(a) && Quiet(b)
    ensures Quiet(a + b)
  {
  }

  /** A string argument, which tools read without the blanks around it. */
  predicate HasText(arguments: Arguments, key: string) {
    key in arguments && arguments[key].Text? && Strip(arguments[key].s) != ""
  }

  /** The call asks for this effect, and may have it. */
  predicate IsEffectOf(a: Act, tool: string, arguments: Arguments, elements: seq<Element>) {
    match a
    case OpenEffect(url) =>
      tool == "open_url" && arguments.Keys == {"url"} && HasText(arguments, "url") && url == Strip(arguments["url"].s)
    case ElementEffect(done, e, value) =>
      && done == tool && e in elements && "ref" in arguments && arguments["ref"] == Text(e.ref)
      && e.visible && e.enabled && e.role.Some?
      && (tool == "click" ==>
            && arguments.Keys == {"ref"} && value == None
            && e.role.value in {"button", "link", "checkbox", "radio", "switch", "tab", "menuitem", "option",
                              "treeitem"})
      && (tool == "fill" || tool == "select_option" ==>
            && arguments.Keys == {"ref", "value"} && HasText(arguments, "value")
            && value == Some(Strip(arguments["value"].s))
            && e.role.value == if tool == "fill" then "textbox" else "combobox")
      && (tool == "click" || tool == "fill" || tool == "select_option")
    case _ => false
  }

  /** What follows the permission: the effect the call asks for, or none, and perhaps a cancel request. */
  ghost predicate EffectActs(acts: Trace, tool: string, arguments: Arguments, elements: seq<Element>, done: bool) {
    if acts != [] && acts[0] != CancelRequested then
      IsEffectOf(acts[0], tool, arguments, elements) && Quiet(acts[1..])
    else
      && Quiet(acts)
      && (done ==> tool == "get_page_state" && arguments.Keys == {})
      && (tool == "click" || tool == "fill" || tool == "select_option" ==>
            forall e, value :: !IsEffectOf(ElementEffect(tool, e, value), tool, arguments, elements))
  }

  lemma EffectFirst(a: Act, more: Trace, tool: string, arguments: Arguments, elements: seq<Element>, done: bool)
    requires IsEffectOf(a, tool, arguments, elements) && Quiet(more)
    ensures EffectActs([a] + more, tool, arguments, elements, done)
  {
    hide Strip;
    assert ([a] + more)[1..] == more;
  }

  lemma NoEffect(tool: string, arguments: Arguments, elements: seq<Element>)
    requires tool == "click" || tool == "fill" || tool == "select_option" ==>
               forall e, value :: !IsEffectOf(ElementEffect(tool, e, value), tool, arguments, elements)
    ensures EffectActs([], tool, arguments, elements, false)
  {
  }

  /**
    The acts of one call, and its reply. It is attempted; a tool outside the list or an unknown ref ends
    there. Otherwise the decision on exactly this tool and target is recorded; a refusal ends there and
    asks for exactly this approval; and only then may the effect asked for follow.
   */
  ghost predicate CallActs(acts: Trace, source: Source, tool: string, arguments: Arguments, elements: seq<Element>,
                           n: nat, approved: set<Fingerprint>, r: Result<(), ToolError>) {
    && acts != [] && acts[0] == Attempt(source)
    && if tool !in {"open_url", "click", "fill", "select_option", "get_page_state"} then
         |acts| == 1 && r.Failure? && r.error.ToolFailure?
       else
         var target := TargetOfCall(elements, tool, arguments);
         if target.Failure? then |acts| == 1 && r == Failure(target.error)
         else
           var record := RecordOf(n + 1, tool, target.value, approved);
           && |acts| > 1 && acts[1] == Audit(record)
           && if !record.allowed then |acts| == 2 && r.Failure? && IsRequestFor(r.error, tool, target.value)
              else (r.Failure? ==> r.error.ToolFailure?) && EffectActs(acts[2..], tool, arguments, elements, r.Success?)
  }

  lemma CallRefused(source: Source, tool: string, arguments: Arguments, elements: seq<Element>, n: nat,
                    approved: set<Fingerprint>, r: Result<(), ToolError>)
    requires r.Failure?
    requires tool in ALLOWED_BROWSER_TOOLS || r.error.ToolFailure?
    ensures tool !in ALLOWED_BROWSER_TOOLS ==>
              CallActs([Attempt(source)], source, tool, arguments, elements, n, approved, r)
    ensures var target := TargetOfCall(elements, tool, arguments);
            tool in ALLOWED_BROWSER_TOOLS && target.Failure? && r == Failure(target.error) ==>
              CallActs([Attempt(source)], source, tool, arguments, elements, n, approved, r)
    ensures var target := TargetOfCall(elements, tool, arguments);
            tool in ALLOWED_BROWSER_TOOLS && target.Success? && IsRequestFor(r.error, tool, target.value)
            && !RecordOf(n + 1, tool, target.value, approved).allowed ==>
              CallActs([Attempt(source)] + [Audit(RecordOf(n + 1, tool, target.value, approved))],
                       source, tool, arguments, elements, n, approved, r)
  {
    hide EffectActs, TargetOfCall, RecordOf, IsRequestFor;
  }

  lemma CallMade(source: Source, tool: string, arguments: Arguments, elements: seq<Element>, n: nat,
                 approved: set<Fingerprint>, more: Trace, r: Result<(), ToolError>)
    requires tool in ALLOWED_BROWSER_TOOLS && TargetOfCall(elements, tool, arguments).Success?
    requires RecordOf(n + 1, tool, TargetOfCall(elements, tool, arguments).value, approved).allowed
    requires r.Failure? ==> r.error.ToolFailure?
    requires EffectActs(more, tool, arguments, elements, r.Success?)
    ensures var record := RecordOf(n + 1, tool, TargetOfCall(elements, tool, arguments).value, approved);
            CallActs([Attempt(source)] + [Audit(record)] + more, source, tool, arguments, elements, n, approved, r)
  {
    hide EffectActs, TargetOfCall, RecordOf;
    var record := RecordOf(n + 1, tool, TargetOfCall(elements, tool, arguments).value, approved);
    assert ([Attempt(source)] + [Audit(record)] + more)[2..] == more;
  }

  /* ---- The world ---- */

  class World {
    var trace: Trace
    var cancelled: bool
    var elements: seq<Element>

    constructor ()
      ensures trace == [] && !cancelled && elements == []
    {
      trace, cancelled, elements := [], false, [];
    }

    /** The flag is what the trace says, refs are as minted, and every effect was permitted. */
    ghost predicate Sound(approved: set<Fingerprint>)
      reads this
    {
      cancelled == CancelledIn(trace) && IsMinted(elements) && Authorised(trace, approved)
    }

    method Record(a: Act, ghost approved: set<Fingerprint>)
      requires a != CancelRequested && Sound(approved)
      requires IsEffect(a) ==> EffectPermitted(trace, a, approved)
      requires a.Audit? ==> a.record.sequence == |Audits(trace)| + 1
      modifies this`trace
      ensures trace == old(trace) + [a] && Sound(approved)
      ensures Attempts(trace) == Attempts(old(trace)) + if a.Attempt? then 1 else 0
      ensures forall s :: Late(trace, s) == Late(old(trace), s) + if a == Attempt(s) && cancelled then 1 else 0
      ensures Audits(trace) == Audits(old(trace)) + if a.Audit? then [a.record] else []
      ensures Effects(trace) == Effects(old(trace)) + if IsEffect(a) then 1 else 0
    {
      Snoc(trace, a);
      trace := trace + [a];
    }

    /** Cancellation is requested, if it was not already. */
    method RequestCancel(ghost approved: set<Fingerprint>)
      requires Sound(approved)
      modifies this`trace, this`cancelled
      ensures trace == old(trace) || trace == old(trace) + [CancelRequested]
      ensures Sound(approved) && cancelled
      ensures Attempts(trace) == Attempts(old(trace)) && Audits(trace) == Audits(old(trace))
      ensures Effects(trace) == Effects(old(trace))
      ensures forall s :: Late(trace, s) == Late(old(trace), s)
    {
      if !cancelled {
        Snoc(trace, CancelRequested);
        trace := trace + [CancelRequested];
        cancelled := true;
      }
    }

    /** Time passes; someone may request cancellation. The flag is never taken back. */
    method Pass(ghost approved: set<Fingerprint>) returns (ghost acts: Trace)
      requires Sound(approved)
      modifies this`trace, this`cancelled
      ensures trace == old(trace) + acts && Quiet(acts)
      ensures Sound(approved) && (old(cancelled) ==> cancelled)
      ensures Attempts(trace) == Attempts(old(trace)) && Audits(trace) == Audits(old(trace))
      ensures Effects(trace) == Effects(old(trace))
      ensures forall s :: Late(trace, s) == Late(old(trace), s)
    {
      var request: bool := *;
      if request {
        RequestCancel(approved);
      }
      acts := trace[|old(trace)|..];
    }

    /** A fresh observation replaces all refs; when it raises, only some prefix of the new refs exists. */
    method Observe(ghost approved: set<Fingerprint>) returns (o: Option<Observation>, ghost acts: Trace)
      requires Sound(approved)
      modifies this
      ensures trace == old(trace) + acts && Quiet(acts)
      ensures Sound(approved) && (old(cancelled) ==> cancelled)
      ensures Attempts(trace) == Attempts(old(trace)) && Audits(trace) == Audits(old(trace))
      ensures Effects(trace) == Effects(old(trace))
      ensures forall s :: Late(trace, s) == Late(old(trace), s)
      ensures o.Some? ==> elements == o.value.elements
    {
      acts := Pass(approved);
      var raw: seq<Element> := *;
      elements := Minted(raw);
      var failed: bool := *;
      if failed {
        return None, acts;
      }
      var url: string, title: string, visibleText: string := *, *, *;
      o := Some(Observation(url, title, elements, visibleText));
    }
  }

  /* ---- The gate ---- */

  class SafetyGate {
    const approved: set<Fingerprint>
    const world: World
    var records: seq<AuditRecord>

    ghost predicate Sound()
      reads this, world
    {
      world.Sound(approved) && records == Audits(world.trace)
    }

    constructor (world: World, approved: set<Fingerprint>)
      requires Audits(world.trace) == [] && world.Sound(approved)
      ensures this.world == world && this.approved == approved && records == [] && Sound()
    {
      this.world, this.approved, records := world, approved, [];
    }

    /** `_target_for`: an unknown ref raises KeyError. */
    method FindTarget(tool: string, arguments: Arguments) returns (r: Result<SafetyTarget, ToolError>)
      ensures r == TargetOfCall(world.elements, tool, arguments)
    {
      if tool == "open_url" {
        var url := if "url" in arguments && arguments["url"].Text? then Some(arguments["url"].s) else None;
        return Success(SafetyTarget(None, None, url));
      }
      if "ref" !in arguments || !arguments["ref"].Text? {
        return Success(SafetyTarget(None, None, None));
      }
      var e := ElementFor(world.elements, arguments["ref"].s);
      if e.None? {
        return Failure(UnknownRef(arguments["ref"].s));
      }
      r := Success(TargetOf(e.value));
    }

    /**
      An unknown ref raises and leaves no record. Otherwise the decision on this call's target is
      recorded, and it is let through exactly when it is harmless or approved; if not, the request
      raised is for this very tool and target.
     */
    method Authorize(tool: string, arguments: Arguments) returns (r: Result<(), ToolError>)
      requires Sound()
      modifies this`records, world`trace
      ensures Sound()
      ensures Attempts(world.trace) == Attempts(old(world.trace)) && Effects(world.trace) == Effects(old(world.trace))
      ensures forall s :: Late(world.trace, s) == Late(old(world.trace), s)
      ensures var target := TargetOfCall(world.elements, tool, arguments);
              if target.Failure? then
                r == Failure(target.error) && records == old(records) && world.trace == old(world.trace)
              else
                var record := RecordOf(|old(records)| + 1, tool, target.value, approved);
                && records == old(records) + [record] && world.trace == old(world.trace) + [Audit(record)]
                && (r.Success? <==> record.allowed)
                && (r.Failure? ==> IsRequestFor(r.error, tool, target.value))
      ensures var target := TargetOfCall(world.elements, tool, arguments);
              target.Success? ==> RefusedInWords(tool, target.value, approved, r.Failure?)
    {
      hide Classify, TargetOfCall, RefusedInWords;
      var found := FindTarget(tool, arguments);
      if found.Failure? {
        return Failure(found.error);
      }
      var target := found.value;
      RefusalInWords(tool, target, approved);
      var risk := Classify(tool, target);
      var fingerprint := Fingerprint(tool, target);
      var allowed := IsLowRisk(risk) || fingerprint in approved;
      var record := AuditRecord(|records| + 1, allowed, risk, tool, target);
      world.Record(Audit(record), approved);
      records := records + [record];
      if allowed {
        return Success(());
      }
      var requestId: nat, reason: string := *, *;
      r := Failure(ApprovalNeeded(ApprovalRequest(requestId, fingerprint, risk, reason)));
    }
  }

  /* ---- The executor ---- */

  function InputError(text: string): (e: ToolError)
    ensures e.ToolFailure?
  {
    ToolFailure("ToolInputError: " + text)
  }

  function RequiredKeys(tool: string): set<string> {
    if tool == "open_url" then {"url"}
    else if tool == "click" then {"ref"}
    else if tool == "fill" || tool == "select_option" then {"ref", "value"}
    else {}
  }

  function RequiredString(arguments: Arguments, key: string): Result<string, ToolError> {
    if key in arguments && arguments[key].Text? && Strip(arguments[key].s) != "" then Success(Strip(arguments[key].s))
    else Failure(InputError("Missing or invalid string argument: " + key))
  }

  lemma RefsResolve(elements: seq<Element>)
    requires IsMinted(elements)
    ensures forall e :: e in elements ==> Strip(e.ref) == e.ref && e.ref != "" && ElementFor(elements, e.ref) == Some(e)
  {
    forall e | e in elements ensures Strip(e.ref) == e.ref && e.ref != "" && ElementFor(elements, e.ref) == Some(e) {
      RefResolves(elements, e);
      ResolvedRefIsStripped(elements, e.ref);
    }
  }

  /** The complaint about an element that is not actionable: hidden first, then disabled, then its role. */
  function WhyNot(tool: string, e: Element): string {
    if !e.visible then "Element ref " + e.ref + " is not visible."
    else if !e.enabled then "Element ref " + e.ref + " is disabled."
    else if tool == "click" then "Element ref " + e.ref + " is not clickable"
    else if tool == "fill" then "Element ref " + e.ref + " is not a textbox"
    else "Element ref " + e.ref + " is not a combobox"
  }

  class BrowserToolExecutor {
    const gate: SafetyGate

    constructor (gate: SafetyGate)
      ensures this.gate == gate
    {
      this.gate := gate;
    }

    /** The gate has just let this call through: its permitting record, on its target, is the last act. */
    ghost predicate LetThrough(tool: string, arguments: Arguments)
      reads gate, gate.world
    {
      var target := TargetOfCall(gate.world.elements, tool, arguments);
      && target.Success? && gate.world.trace != [] && Last(gate.world.trace).Audit?
      && var record := Last(gate.world.trace).record;
         record == RecordOf(record.sequence, tool, target.value, gate.approved) && record.allowed
    }

    /** Playwright may still raise once it has been asked. */
    method AfterEffect() returns (r: Result<(), ToolError>, ghost acts: Trace)
      requires gate.Sound()
      modifies gate.world`trace, gate.world`cancelled
      ensures gate.world.trace == old(gate.world.trace) + acts && Quiet(acts)
      ensures gate.Sound() && (old(gate.world.cancelled) ==> gate.world.cancelled)
      ensures Attempts(gate.world.trace) == Attempts(old(gate.world.trace))
      ensures forall s :: Late(gate.world.trace, s) == Late(old(gate.world.trace), s)
      ensures Effects(gate.world.trace) == Effects(old(gate.world.trace))
      ensures r.Failure? ==> r.error.ToolFailure?
    {
      acts := gate.world.Pass(gate.approved);
      var text: string, raised: bool := *, *;
      r := if raised then Failure(ToolFailure(text)) else Success(());
    }

    method OpenUrl(arguments: Arguments) returns (r: Result<(), ToolError>, ghost acts: Trace)
      requires gate.Sound() && LetThrough("open_url", arguments) && arguments.Keys == {"url"}
      modifies gate.world`trace, gate.world`cancelled
      ensures gate.world.trace == old(gate.world.trace) + acts
      ensures EffectActs(acts, "open_url", arguments, old(gate.world.elements), r.Success?)
      ensures gate.Sound() && (old(gate.world.cancelled) ==> gate.world.cancelled)
      ensures Attempts(gate.world.trace) == Attempts(old(gate.world.trace))
      ensures forall s :: Late(gate.world.trace, s) == Late(old(gate.world.trace), s)
      ensures Effects(gate.world.trace) <= Effects(old(gate.world.trace)) + 1
      ensures r.Success? ==> Effects(gate.world.trace) == Effects(old(gate.world.trace)) + 1
      ensures r.Failure? ==> r.error.ToolFailure?
    {
      hide Attempts, Late, Audits, Effects, Authorised, CancelledIn, IsMinted, Classify, Strip, EffectActs,
           Quiet;
      acts := [];
      NoEffect("open_url", arguments, gate.world.elements);
      var url := RequiredString(arguments, "url");
      if url.Failure? {
        return Failure(url.error), acts;
      }
      var acceptable: bool := *;
      if !acceptable {
        return Failure(InputError("open_url only allows http, https, or file URLs.")), acts;
      }
      gate.world.Record(OpenEffect(url.value), gate.approved);
      ghost var more;
      r, more := AfterEffect();
      acts := [OpenEffect(url.value)] + more;
      EffectFirst(OpenEffect(url.value), more, "open_url", arguments, gate.world.elements, r.Success?);
    }

    /**
      The checks of the element tools: the value to enter, and a known, visible, enabled element of a
      fitting role. They succeed exactly when the call may have its effect.
     */
    method FindActionable(tool: string, arguments: Arguments) returns (r: Result<Act, ToolError>)
      requires tool in {"click", "fill", "select_option"} && IsMinted(gate.world.elements)
      requires arguments.Keys == RequiredKeys(tool)
      requires TargetOfCall(gate.world.elements, tool, arguments).Success?
      ensures r.Success? ==>
                && r.value.ElementEffect? && r.value.tool == tool && Actionable(tool, r.value.element)
                && IsEffectOf(r.value, tool, arguments, gate.world.elements)
                && TargetOfCall(gate.world.elements, tool, arguments).value == TargetOf(r.value.element)
      ensures r.Failure? ==>
                && r.error.ToolFailure?
                && forall e, value :: !IsEffectOf(ElementEffect(tool, e, value), tool, arguments, gate.world.elements)
    {
      hide Contains, Planner.Decimal, IsMinted, TargetOf, Strip, UnknownRef, WhyNot, InputError;
      assert "ref" in arguments.Keys;
      var ref := RequiredString(arguments, "ref");
      var value := None;
      RefsResolve(gate.world.elements);
      if ref.Failure? {
        return Failure(ref.error);
      }
      if tool != "click" {
        var text := RequiredString(arguments, "value");
        if text.Failure? {
          return Failure(text.error);
        }
        value := Some(text.value);
      }
      ResolvedRefIsStripped(gate.world.elements, arguments["ref"].s);
      var unknown := UnknownRef(ref.value);
      var found := ElementFor(gate.world.elements, ref.value);
      if found.None? {
        return Failure(unknown);
      }
      var e := found.value;
      if !Actionable(tool, e) {
        return Failure(InputError(WhyNot(tool, e)));
      }
      r := Success(ElementEffect(tool, e, value));
    }

    method ActOnElement(tool: string, arguments: Arguments) returns (r: Result<(), ToolError>, ghost acts: Trace)
      requires gate.Sound() && tool in {"click", "fill", "select_option"} && arguments.Keys == RequiredKeys(tool)
      requires LetThrough(tool, arguments)
      modifies gate.world`trace, gate.world`cancelled
      ensures gate.world.trace == old(gate.world.trace) + acts
      ensures EffectActs(acts, tool, arguments, old(gate.world.elements), r.Success?)
      ensures gate.Sound() && (old(gate.world.cancelled) ==> gate.world.cancelled)
      ensures Attempts(gate.world.trace) == Attempts(old(gate.world.trace))
      ensures forall s :: Late(gate.world.trace, s) == Late(old(gate.world.trace), s)
      ensures Effects(gate.world.trace) <= Effects(old(gate.world.trace)) + 1
      ensures r.Success? ==> Effects(gate.world.trace) == Effects(old(gate.world.trace)) + 1
      ensures r.Failure? ==> r.error.ToolFailure?
    {
      hide Attempts, Late, Audits, Effects, Authorised, CancelledIn, IsMinted, Classify, Actionable, TargetOf,
           TargetOfCall, IsEffectOf, RequiredKeys, EffectActs, Quiet;
      acts := [];
      var found := FindActionable(tool, arguments);
      if found.Failure? {
        NoEffect(tool, arguments, gate.world.elements);
        return Failure(found.error), acts;
      }
      gate.world.Record(found.value, gate.approved);
      ghost var more;
      r, more := AfterEffect();
      acts := [found.value] + more;
      EffectFirst(found.value, more, tool, arguments, gate.world.elements, r.Success?);
    }

    /** A call the gate has let through: the key check, then the tool. */
    method CarryOut(tool: string, arguments: Arguments) returns (r: Result<(), ToolError>, ghost acts: Trace)
      requires gate.Sound() && tool in ALLOWED_BROWSER_TOOLS && LetThrough(tool, arguments)
      modifies gate.world
      ensures gate.world.trace == old(gate.world.trace) + acts
      ensures EffectActs(acts, tool, arguments, old(gate.world.elements), r.Success?)
      ensures gate.Sound() && (old(gate.world.cancelled) ==> gate.world.cancelled)
      ensures Attempts(gate.world.trace) == Attempts(old(gate.world.trace))
      ensures forall s :: Late(gate.world.trace, s) == Late(old(gate.world.trace), s)
      ensures Effects(gate.world.trace) <= Effects(old(gate.world.trace)) + 1
      ensures r.Success? && tool != "get_page_state" ==> Effects(gate.world.trace) == Effects(old(gate.world.trace)) + 1
      ensures r.Failure? ==> r.error.ToolFailure?
    {
      hide Attempts, Late, Audits, Effects, Authorised, CancelledIn, IsMinted, TargetOfCall, Classify;
      if arguments.Keys != RequiredKeys(tool) {
        return Failure(InputError("Missing or unexpected argument(s)")), [];
      }
      if tool == "get_page_state" {
        var o;
        o, acts := gate.world.Observe(gate.approved);
        assert acts != [] ==> acts[0] in acts;
        return if o.Some? then Success(()) else Failure(ToolFailure("Error: observation failed")), acts;
      }
      if tool == "open_url" {
        r, acts := OpenUrl(arguments);
      } else {
        r, acts := ActOnElement(tool, arguments);
      }
    }

    /**
      One tool call: `acts` is all it does. The gate comes first, then the checks, then at most one
      effect, on the element the gate looked at; a call that needs approval has no effect.
     */
    method Execute(source: Source, tool: string, arguments: Arguments)
      returns (r: Result<(), ToolError>, ghost acts: Trace)
      requires gate.Sound()
      modifies gate.world, gate`records
      ensures gate.world.trace == old(gate.world.trace) + acts
      ensures CallActs(acts, source, tool, arguments, old(gate.world.elements), |old(gate.records)|, gate.approved, r)
      ensures gate.Sound() && (old(gate.world.cancelled) ==> gate.world.cancelled)
      ensures Attempts(gate.world.trace) == Attempts(old(gate.world.trace)) + 1
      ensures forall s :: Late(gate.world.trace, s) ==
                          Late(old(gate.world.trace), s) + if s == source && old(gate.world.cancelled) then 1 else 0
      ensures Effects(gate.world.trace) <= Effects(old(gate.world.trace)) + 1
      ensures r.Success? && tool != "get_page_state" ==> Effects(gate.world.trace) == Effects(old(gate.world.trace)) + 1
      ensures r.Failure? && r.error.ApprovalNeeded? ==>
                && r.error.approval.fingerprint !in gate.approved
                && Effects(gate.world.trace) == Effects(old(gate.world.trace))
    {
      hide Attempts, Late, Audits, Effects, Authorised, CancelledIn, IsMinted, Classify, TargetOfCall, Actionable,
           TargetOf, EffectActs, Quiet, Permits, RefusedInWords, IsEffectOf, NamesElement, CallActs;
      ghost var elements, n := gate.world.elements, |gate.records|;
      gate.world.Record(Attempt(source), gate.approved);
      acts := [Attempt(source)];
      if tool !in ALLOWED_BROWSER_TOOLS {
        r := Failure(InputError("Browser tool is not allowed: " + tool));
        CallRefused(source, tool, arguments, elements, n, gate.approved, r);
        return;
      }
      ghost var target := TargetOfCall(elements, tool, arguments);
      r := gate.Authorize(tool, arguments);
      if target.Success? {
        acts := acts + [Audit(RecordOf(n + 1, tool, target.value, gate.approved))];
      }
      if r.Failure? {
        CallRefused(source, tool, arguments, elements, n, gate.approved, r);
        return;
      }
      ghost var more;
      r, more := CarryOut(tool, arguments);
      CallMade(source, tool, arguments, elements, n, gate.approved, more, r);
      acts := acts + more;
    }
  }
}
