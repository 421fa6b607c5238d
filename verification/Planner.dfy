/** From a planner reply to a validated plan (webpilot/agents/planner.py). */
module Planner {
  import opened Common
  import opened SafetyModels
  import opened Plans
  import opened PlanNormalizer

  /* ---- Validation of arguments ---- */

  function Digit(n: nat): char
    requires n < 10
  {
    '0' + n as char
  }

  function Decimal(n: nat): string {
    if n < 10 then [Digit(n)] else Decimal(n / 10) + [Digit(n % 10)]
  }

  function StepId(k: nat): string {
    "step_" + Decimal(k)
  }

  function ParseRule(s: string): Option<Rule> {
    match s
    case "url_contains" => Some(UrlContains)
    case "visible_text_contains" => Some(VisibleTextContains)
    case "element_text_equals" => Some(ElementTextEquals)
    case "element_value_equals" => Some(ElementValueEquals)
    case "element_checked_equals" => Some(ElementCheckedEquals)
    case _ => None
  }

  /** An optional string field: absent, null or a string. */
  predicate IsOptionalString(j: Json) {
    j.JNull? || j.JString?
  }

  function AsOptional(j: Json): Option<string> {
    if j.JString? then Some(j.s) else None
  }

  function ParseCriterion(j: Json): (r: Option<Criterion>)
    ensures r.Some? ==> ValidCriterion(r.value)
    ensures r.Some? && IsElementRule(r.value.rule) ==> HasElementRule(j)
  {
    if !j.JObject? || !(j.fields.Keys <= {"rule", "expected", "element_role", "element_name"}) then None
    else
      var rule, expected := Get(j.fields, "rule", JNull), Get(j.fields, "expected", JNull);
      var role, name := Get(j.fields, "element_role", JNull), Get(j.fields, "element_name", JNull);
      if !rule.JString? || !expected.JString? || !IsOptionalString(role) || !IsOptionalString(name) then None
      else if ParseRule(rule.s).None? then None
      else
        var c := Criterion(ParseRule(rule.s).value, expected.s, AsOptional(role), AsOptional(name));
        if ValidCriterion(c) then Some(c) else None
  }

  function ParseCriteria(js: seq<Json>): (r: Option<seq<Criterion>>)
    ensures r.Some? ==> |r.value| == |js| && forall k :: 0 <= k < |js| ==> ParseCriterion(js[k]) == Some(r.value[k])
  {
    if js == [] then Some([])
    else
      var front, last := ParseCriteria(js[..|js| - 1]), ParseCriterion(js[|js| - 1]);
      if front.Some? && last.Some? then Some(front.value + [last.value]) else None
  }

  function ParseRisk(j: Json): Option<RiskLevel> {
    if j == JString("L0") then Some(L0) else if j == JString("L1") then Some(L1)
    else if j == JString("L2") then Some(L2) else if j == JString("L3") then Some(L3) else None
  }

  function ParseStep(j: Json, k: nat): (r: Option<PlanStep>)
    ensures r.Some? ==> r.value.id == k && ValidStep(r.value) && HasCriteria(j)
    ensures r.Some? ==> ParseCriteria(CriteriaOf(j)) == Some(r.value.criteria)
    ensures r.Some? ==> Get(j.fields, "goal", JNull) == JString(r.value.goal)
  {
    if !HasCriteria(j) || !(j.fields.Keys <= {"id", "goal", "success_criteria", "risk_level"}) then None
    else
      var goal, criteria := Get(j.fields, "goal", JNull), ParseCriteria(CriteriaOf(j));
      var risk := ParseRisk(Get(j.fields, "risk_level", JString("L0")));
      if Get(j.fields, "id", JNull) != JString(StepId(k)) || !goal.JString? || goal.s == "" then None
      else if criteria.None? || criteria.value == [] || risk.None? then None
      else Some(PlanStep(k, goal.s, criteria.value, risk.value))
  }

  function ParseSteps(js: seq<Json>): (r: Option<seq<PlanStep>>)
    ensures r.Some? ==> |r.value| == |js|
  {
    if js == [] then Some([])
    else
      var front, last := ParseSteps(js[..|js| - 1]), ParseStep(js[|js| - 1], |js|);
      if front.Some? && last.Some? then Some(front.value + [last.value]) else None
  }

  /** Parsed steps are the steps parsed one by one, each under its own number. */
  lemma {:induction false} ParsedStep(js: seq<Json>, k: nat)
    requires ParseSteps(js).Some? && k < |js|
    ensures ParseStep(js[k], k + 1) == Some(ParseSteps(js).value[k])
  {
    hide ParseStep;
    if k < |js| - 1 {
      ParsedStep(js[..|js| - 1], k);
    }
  }

  lemma ParsedSteps(js: seq<Json>)
    requires ParseSteps(js).Some? && js != []
    ensures ValidPlan(TestPlan(ParseSteps(js).value))
  {
    hide ParseStep, ParseSteps, ValidStep;
    forall k | 0 <= k < |js| ensures ParseSteps(js).value[k].id == k + 1 && ValidStep(ParseSteps(js).value[k]) {
      ParsedStep(js, k);
    }
  }

  /** `TestPlan.model_validate`: what it accepts is a valid plan. */
  function ParsePlan(arguments: PlanNormalizer.Fields): (r: Option<TestPlan>)
    ensures r.Some? ==> ValidPlan(r.value)
    ensures r.Some? ==> "steps" in arguments && arguments["steps"].JList?
                        && ParseSteps(arguments["steps"].items) == Some(r.value.steps)
  {
    if arguments.Keys != {"steps"} || !arguments["steps"].JList? then None
    else
      var steps := ParseSteps(arguments["steps"].items);
      if steps.None? || steps.value == [] then None
      else
        ParsedSteps(arguments["steps"].items);
        Some(TestPlan(steps.value))
  }

  /* ---- Normalisation, in words ---- */

  /** Python's `str` returns a string argument itself. */
  ghost predicate LeavesStrings(text: Json -> string) {
    forall s :: text(JString(s)) == s
  }

  /** The criterion has this rule. */
  predicate HasRule(c: Json, rule: string) {
    c.JObject? && "rule" in c.fields && c.fields["rule"] == JString(rule)
  }

  /** The tab that a goal names; catalog before orders before profile. */
  ghost function TabNamed(goal: string): Option<string> {
    if Mentions(goal, "catalog") then Some("Catalog")
    else if Mentions(goal, "orders") then Some("Orders")
    else if Mentions(goal, "profile") then Some("Profile")
    else None
  }

  lemma TabIsReplacement(goal: string)
    ensures Replacement(Lower(goal)) == TabNamed(goal)
  {
    hide Mentions, Contains;
    LowerMentions(goal, "catalog");
    LowerMentions(goal, "orders");
    LowerMentions(goal, "profile");
  }

  /** The criterion asks for a URL text that starts with a slash and does not occur in the page's URL. */
  ghost predicate InventsRoute(c: Json, url: string) {
    && HasRule(c, "url_contains")
    && "expected" in c.fields && c.fields["expected"].JString?
    && var expected := c.fields["expected"].s;
       expected != "" && expected[0] == '/' && !exists a, b :: url == a + expected + b
  }

  /**
    What becomes of one criterion of a step with this goal. An invented route in a step that names a tab
    becomes the tab's label as visible text; an element rule becomes visible text with the same expected
    text; and everything else, routes that are there included, stays as it is.
   */
  ghost predicate RewrittenAs(c: Json, d: Json, url: string, goal: string) {
    var unbound := {"element_role", "element_name"};
    if InventsRoute(c, url) && TabNamed(goal).Some? then
      d == JObject(c.fields["expected" := JString(TabNamed(goal).value)]["rule" := JString("visible_text_contains")]
                   - unbound)
    else if || HasRule(c, "element_text_equals") || HasRule(c, "element_value_equals")
            || HasRule(c, "element_checked_equals")
    then d == JObject(c.fields["rule" := JString("visible_text_contains")] - unbound)
    else d == c
  }

  lemma RouteMeaning(c: Json, url: string)
    ensures IsInventedRoute(c, url) <==> InventsRoute(c, url)
    ensures HasElementRule(c) ==> !InventsRoute(c, url) && !InventsRoute(StripElementRule(c), url)
  {
    hide Contains;
    if c.JObject? && "expected" in c.fields && c.fields["expected"].JString? {
      ContainsMeaning(url, c.fields["expected"].s);
    }
  }

  lemma RewritingMeaning(c: Json, url: string, goal: string)
    ensures RewrittenAs(c, RewriteCriterion(c, url, Replacement(Lower(goal))), url, goal)
  {
    hide Contains, TabNamed, Replacement;
    TabIsReplacement(goal);
    assert HasElementRule(c) <==>
           || HasRule(c, "element_text_equals") || HasRule(c, "element_value_equals")
           || HasRule(c, "element_checked_equals");
    if c.JObject? && "expected" in c.fields && c.fields["expected"].JString? {
      ContainsMeaning(url, c.fields["expected"].s);
    }
    RouteMeaning(c, url);
  }

  /** The goal of a step, as Python reads it when it is a string or absent. */
  function GoalText(step: Json): string
    requires step.JObject? && ("goal" in step.fields ==> step.fields["goal"].JString?)
  {
    if "goal" in step.fields then step.fields["goal"].s else ""
  }

  /** Each criterion of a normalised plan, in its place, is the original rewritten in this way. */
  lemma NormalizedCriterion(text: Json -> string, arguments: PlanNormalizer.Fields, url: string,
                            state: PlanNormalizer.Fields, k: nat, j: nat)
    requires LeavesStrings(text) && Normalize(text, arguments, url, state).Success?
    requires "steps" in arguments && arguments["steps"].JList? && k < |arguments["steps"].items|
    requires HasCriteria(arguments["steps"].items[k]) && j < |CriteriaOf(arguments["steps"].items[k])|
    requires "goal" in arguments["steps"].items[k].fields ==> arguments["steps"].items[k].fields["goal"].JString?
    ensures var step := arguments["steps"].items[k];
            var out := Normalize(text, arguments, url, state).value;
            && "steps" in out && out["steps"].JList? && |out["steps"].items| == |arguments["steps"].items|
            && HasCriteria(out["steps"].items[k])
            && |CriteriaOf(step)| <= |CriteriaOf(out["steps"].items[k])|
            && RewrittenAs(CriteriaOf(step)[j], CriteriaOf(out["steps"].items[k])[j], url, GoalText(step))
  {
    hide RewriteCriterion, RewrittenAs, Replacement, AnyUnhashable, Bindings, HasElementRule, NormalizedSteps;
    var steps := arguments["steps"].items;
    var _ := NormalizedShape(text, steps, url, state);
    RewritingMeaning(CriteriaOf(steps[k])[j], url, GoalText(steps[k]));
    assert GoalWords(text, steps[k].fields) == Lower(GoalText(steps[k]));
  }

  /** Normalising raises exactly when some criterion's rule is a list or an object. */
  lemma NormalizeRaises(text: Json -> string, arguments: PlanNormalizer.Fields, url: string,
                        state: PlanNormalizer.Fields)
    requires "steps" in arguments && arguments["steps"].JList?
    ensures Normalize(text, arguments, url, state).Failure? <==>
            exists k, j :: 0 <= k < |arguments["steps"].items| && HasCriteria(arguments["steps"].items[k])
                           && 0 <= j < |CriteriaOf(arguments["steps"].items[k])|
                           && (var c := CriteriaOf(arguments["steps"].items[k])[j];
                               && c.JObject? && "rule" in c.fields
                               && (c.fields["rule"].JList? || c.fields["rule"].JObject?))
  {
    hide NormalizedSteps;
    var steps := arguments["steps"].items;
    if AnyUnhashable(steps) {
      var k :| 0 <= k < |steps| && UnhashableStep(steps[k]);
      var j :| 0 <= j < |CriteriaOf(steps[k])| && Unhashable(CriteriaOf(steps[k])[j]);
      var c := CriteriaOf(steps[k])[j];
      assert c.JObject? && "rule" in c.fields && (c.fields["rule"].JList? || c.fields["rule"].JObject?);
    }
    if k, j :| 0 <= k < |steps| && HasCriteria(steps[k]) && 0 <= j < |CriteriaOf(steps[k])|
               && (var c := CriteriaOf(steps[k])[j];
                   c.JObject? && "rule" in c.fields && (c.fields["rule"].JList? || c.fields["rule"].JObject?)) {
      assert Unhashable(CriteriaOf(steps[k])[j]);
      assert UnhashableStep(steps[k]);
    }
  }

  /* ---- Snapshot plans ---- */

  function Control(b: Binding): Criterion
    requires b.expected.JString? && ParseRule(b.rule).Some?
  {
    Criterion(ParseRule(b.rule).value, b.expected.s, Some(b.role), Some(b.name))
  }

  /** One of the framework's control criteria for the acceptance state. */
  ghost predicate IsControl(c: Criterion, state: PlanNormalizer.Fields) {
    exists b :: b in Bindings(state) && Applies(b, state) && ParseRule(b.rule).Some? && c == Control(b)
  }

  lemma ControlParses(b: Binding, c: Criterion)
    requires ParseCriterion(ControlCriterion(b)) == Some(c)
    ensures b.expected.JString? && ParseRule(b.rule).Some? && c == Control(b)
  {
  }

  /**
    In a plan made from a live snapshot every element rule is one of the framework's controls:
    whatever element rules the model emitted have become text rules.
   */
  lemma ElementRulesAreControls(text: Json -> string, arguments: PlanNormalizer.Fields, url: string,
                                state: PlanNormalizer.Fields, plan: TestPlan, k: nat, c: Criterion)
    requires Normalize(text, arguments, url, state).Success?
    requires ParsePlan(Normalize(text, arguments, url, state).value) == Some(plan)
    requires k < |plan.steps| && c in plan.steps[k].criteria && IsElementRule(c.rule)
    ensures IsControl(c, state)
  {
    hide ParseCriterion, ParseCriteria, ParseStep, ParseSteps, ParseRule, RewrittenCriteria, Bindings, HasElementRule;
    hide ValidCriterion, ValidStep, ValidPlan, AnyUnhashable, NormalizedSteps, ControlCriterion, Control;
    var normalized := Normalize(text, arguments, url, state).value;
    var steps := arguments["steps"].items;
    var out := normalized["steps"].items;
    var injected := NormalizedShape(text, steps, url, state);
    ParsedStep(out, k);
    var j :| 0 <= j < |plan.steps[k].criteria| && plan.steps[k].criteria[j] == c;
    var json := CriteriaOf(out[k])[j];
    assert ParseCriterion(json) == Some(c);
    assert HasElementRule(json);
    var rewritten := RewrittenCriteria(text, steps[k], url);
    assert json == injected[k][j - |rewritten|];
    assert json in injected[k] && OnlyControls(injected, Bindings(state), state);
    var i :| 0 <= i < |Bindings(state)| && Applies(Bindings(state)[i], state)
        && json == ControlCriterion(Bindings(state)[i]);
    ControlParses(Bindings(state)[i], c);
  }

  /** Step k is the first of the plan whose goal names the hint. */
  predicate FirstNamed(plan: TestPlan, hint: string, k: nat) {
    && k < |plan.steps| && Contains(Lower(plan.steps[k].goal), hint)
    && forall j :: 0 <= j < k ==> !Contains(Lower(plan.steps[j].goal), hint)
  }

  predicate HasControl(plan: TestPlan, b: Binding, k: nat) {
    k < |plan.steps| && b.expected.JString? && ParseRule(b.rule).Some? && Control(b) in plan.steps[k].criteria
  }

  /** Each applicable control is a criterion of the first step that names it. */
  ghost predicate ControlsBound(plan: TestPlan, state: PlanNormalizer.Fields) {
    forall b, k: nat :: b in Bindings(state) && Applies(b, state) && FirstNamed(plan, b.hint, k) ==>
        HasControl(plan, b, k)
  }

  ghost predicate ControlsOnly(plan: TestPlan, state: PlanNormalizer.Fields) {
    forall k, c :: 0 <= k < |plan.steps| && c in plan.steps[k].criteria && IsElementRule(c.rule) ==> IsControl(c, state)
  }

  /** In a plan made from a live snapshot the element rules are the framework's controls, each where it belongs. */
  ghost predicate SnapshotPlan(plan: TestPlan, state: PlanNormalizer.Fields) {
    ControlsOnly(plan, state) && ControlsBound(plan, state)
  }

  lemma NamedInPlan(text: Json -> string, steps: seq<Json>, plan: TestPlan, hint: string, k: nat)
    requires LeavesStrings(text)
    requires ParseSteps(steps) == Some(plan.steps) && FirstNamed(plan, hint, k)
    ensures FirstNaming(text, steps, hint) == k
  {
    hide Contains, ParseStep, ParseSteps;
    forall j | 0 <= j < |steps| ensures NamesHint(text, steps[j], hint) <==> Contains(Lower(plan.steps[j].goal), hint) {
      ParsedStep(steps, j);
    }
  }

  lemma ControlIsInPlan(text: Json -> string, base: seq<Json>, state: PlanNormalizer.Fields, plan: TestPlan,
                        b: Binding, k: nat)
    requires LeavesStrings(text)
    requires ParseSteps(BindAll(text, base, state, Bindings(state))) == Some(plan.steps)
    requires b in Bindings(state) && Applies(b, state) && FirstNamed(plan, b.hint, k)
    ensures HasControl(plan, b, k)
  {
    hide Contains, Bindings, ParseStep, ParseSteps, ParseCriterion, ParseCriteria, ControlCriterion, ParseRule, BindAll;
    var bs := Bindings(state);
    var out := BindAll(text, base, state, bs);
    var j :| 0 <= j < |bs| && bs[j] == b;
    NamedInPlan(text, out, plan, b.hint, k);
    BindingKeepsNames(text, base, state, bs, b.hint);
    var _ := BindAllExtends(text, base, state, bs);
    ParsedStep(out, k);
    ControlIsBound(text, base, state, bs, j);
    var i :| 0 <= i < |CriteriaOf(out[k])| && CriteriaOf(out[k])[i] == ControlCriterion(b);
    assert ParseCriterion(CriteriaOf(out[k])[i]) == Some(plan.steps[k].criteria[i]);
    ControlParses(b, plan.steps[k].criteria[i]);
  }

  lemma NothingApplies(b: Binding, state: PlanNormalizer.Fields)
    ensures Applies(b, state) ==> state != map[]
  {
  }

  /** What a submitted reply is worth. */
  function Accepted(text: Json -> string, arguments: PlanNormalizer.Fields,
                    snapshot: Option<Snapshot>): Option<TestPlan> {
    if snapshot.None? then ParsePlan(arguments)
    else
      var n := Normalize(text, arguments, snapshot.value.url, snapshot.value.state);
      if n.Success? then ParsePlan(n.value) else None
  }

  /** What the planner accepts for a live snapshot is a snapshot plan for its acceptance state. */
  lemma AcceptedIsSnapshotPlan(text: Json -> string, arguments: PlanNormalizer.Fields, snapshot: Snapshot,
                               plan: TestPlan)
    requires LeavesStrings(text)
    requires Accepted(text, arguments, Some(snapshot)) == Some(plan)
    ensures SnapshotPlan(plan, snapshot.state)
  {
    hide ParseSteps, Bindings, RewriteSteps, Applies, AnyUnhashable, ParseRule, Contains, ValidPlan, BindAll;
    var state := snapshot.state;
    assert "steps" in arguments && arguments["steps"].JList?;
    forall k, c | 0 <= k < |plan.steps| && c in plan.steps[k].criteria && IsElementRule(c.rule)
      ensures IsControl(c, state)
    {
      ElementRulesAreControls(text, arguments, snapshot.url, state, plan, k, c);
    }
    var base := RewriteSteps(text, arguments["steps"].items, snapshot.url);
    forall b, k: nat | b in Bindings(state) && Applies(b, state) && FirstNamed(plan, b.hint, k)
      ensures HasControl(plan, b, k)
    {
      assert state != map[] by { NothingApplies(b, state); }
      ControlIsInPlan(text, base, state, plan, b, k);
    }
  }

  /* ---- Snapshot plans, in words ---- */

  /** Step k is the first whose goal mentions the word, in any letter case. */
  ghost predicate FirstMention(plan: TestPlan, word: string, k: nat) {
    && k < |plan.steps| && Mentions(plan.steps[k].goal, word)
    && forall j :: 0 <= j < k ==> !Mentions(plan.steps[j].goal, word)
  }

  lemma FirstMentionIsFirstNamed(plan: TestPlan, word: string, k: nat)
    ensures FirstMention(plan, word, k) <==> FirstNamed(plan, word, k)
  {
    hide Mentions, Contains;
    forall j | 0 <= j < |plan.steps|
      ensures Contains(Lower(plan.steps[j].goal), word) <==> Mentions(plan.steps[j].goal, word)
    {
      LowerMentions(plan.steps[j].goal, word);
    }
  }

  lemma BindingAt(plan: TestPlan, state: PlanNormalizer.Fields, i: nat, k: nat)
    requires ControlsBound(plan, state) && i < 5
    ensures var b := Bindings(state)[i];
            Applies(b, state) && FirstMention(plan, b.hint, k) ==>
              ParseRule(b.rule).Some? && k < |plan.steps| && Control(b) in plan.steps[k].criteria
  {
    hide Mentions, Contains, ParseRule;
    var b := Bindings(state)[i];
    FirstMentionIsFirstNamed(plan, b.hint, k);
    assert b in Bindings(state);
    if Applies(b, state) && FirstMention(plan, b.hint, k) {
      assert HasControl(plan, b, k);
    }
  }

  lemma RuleNames()
    ensures ParseRule("url_contains") == Some(UrlContains)
    ensures ParseRule("visible_text_contains") == Some(VisibleTextContains)
    ensures ParseRule("element_text_equals") == Some(ElementTextEquals)
    ensures ParseRule("element_value_equals") == Some(ElementValueEquals)
    ensures ParseRule("element_checked_equals") == Some(ElementCheckedEquals)
  {
  }

  /**
    In a snapshot plan the benchmark's targets are criteria on their own controls: each in the first
    step whose goal mentions it, with the target as the expected state.
   */
  lemma SnapshotControls(plan: TestPlan, state: PlanNormalizer.Fields, k: nat)
    requires SnapshotPlan(plan, state) && k < |plan.steps|
    ensures "search" in state && state["search"].JString? && FirstMention(plan, "search", k) ==>
              Criterion(ElementValueEquals, state["search"].s, Some("textbox"), Some("Search products"))
                in plan.steps[k].criteria
    ensures "category" in state && state["category"].JString? && FirstMention(plan, "filter", k) ==>
              Criterion(ElementValueEquals, state["category"].s, Some("combobox"), Some("Category"))
                in plan.steps[k].criteria
    ensures "in_stock_only" in state && FirstMention(plan, "stock", k) ==>
              var off := [JNull, JBool(false), JNumber(0.0), JString(""), JList([]), JObject(map[])];
              var expected := if state["in_stock_only"] in off then "false" else "true";
              Criterion(ElementCheckedEquals, expected, Some("checkbox"), Some("In stock only"))
                in plan.steps[k].criteria
    ensures "sort" in state && state["sort"].JString? && FirstMention(plan, "sort", k) ==>
              Criterion(ElementValueEquals, state["sort"].s, Some("combobox"), Some("Catalog sort"))
                in plan.steps[k].criteria
    ensures "profile_city" in state && state["profile_city"].JString? && FirstMention(plan, "city", k) ==>
              Criterion(ElementValueEquals, state["profile_city"].s, Some("textbox"), Some("Shipping city"))
                in plan.steps[k].criteria
  {
    hide FirstMention, ControlsOnly, ControlsBound;
    RuleNames();
    BindingAt(plan, state, 0, k);
    BindingAt(plan, state, 1, k);
    BindingAt(plan, state, 2, k);
    BindingAt(plan, state, 3, k);
    BindingAt(plan, state, 4, k);
  }

  /** A text criterion that has been accepted is the one that was written. */
  lemma TextCriteria(expected: string)
    requires expected != ""
    ensures ParseCriterion(JObject(map["rule" := JString("url_contains"), "expected" := JString(expected)])) ==
            Some(Criterion(UrlContains, expected, None, None))
    ensures ParseCriterion(JObject(map["rule" := JString("visible_text_contains"), "expected" := JString(expected)])) ==
            Some(Criterion(VisibleTextContains, expected, None, None))
  {
  }

  /** A criterion with all four fields is accepted when its rule is known and its control can have that state. */
  lemma CriterionAccepted(rule: string, expected: string, role: string, name: string)
    ensures var accepted := ParseCriterion(JObject(map[
              "rule" := JString(rule), "expected" := JString(expected),
              "element_role" := JString(role), "element_name" := JString(name)]));
            accepted.Some? <==>
            && expected != ""
            && (|| rule == "url_contains" || rule == "visible_text_contains"
                || (rule == "element_text_equals" && name != ""
                    && role in {"button", "link", "textbox", "combobox", "checkbox", "radio", "switch", "tab",
                                "menuitem", "option", "slider", "spinbutton", "listbox", "treeitem"})
                || (rule == "element_value_equals" && name != ""
                    && role in {"textbox", "combobox", "spinbutton", "slider"})
                || (rule == "element_checked_equals" && name != "" && role in {"checkbox", "radio", "switch"}
                    && (expected == "true" || expected == "false")))
  {
    var j := JObject(map["rule" := JString(rule), "expected" := JString(expected),
                         "element_role" := JString(role), "element_name" := JString(name)]);
    assert j.fields.Keys == {"rule", "expected", "element_role", "element_name"};
    RuleNames();
  }

  /** An accepted step has the id of its place, and the goal and risk that were written; risk defaults to L0. */
  lemma StepMeaning(j: Json, k: nat)
    requires ParseStep(j, k).Some?
    ensures j.JObject? && "id" in j.fields && j.fields["id"] == JString("step_" + Decimal(k))
    ensures "goal" in j.fields && j.fields["goal"] == JString(ParseStep(j, k).value.goal)
    ensures var risk := ParseStep(j, k).value.riskLevel;
            if "risk_level" !in j.fields then risk == L0
            else
              && (j.fields["risk_level"] == JString("L0") <==> risk == L0)
              && (j.fields["risk_level"] == JString("L1") <==> risk == L1)
              && (j.fields["risk_level"] == JString("L2") <==> risk == L2)
              && (j.fields["risk_level"] == JString("L3") <==> risk == L3)
  {
    hide ParseCriteria, ValidStep, Decimal;
    assert JString("L0") != JString("L1") && JString("L0") != JString("L2") && JString("L0") != JString("L3");
  }

  /* ---- The normalising program ---- */

  /** First pass, over every criterion of every step. */
  method StripPass(steps0: seq<Json>) returns (r: Result<seq<Json>, TypeError>)
    ensures r == if AnyUnhashable(steps0) then Failure(TypeError)
                 else Success(seq(|steps0|, k requires 0 <= k < |steps0| => StripStep(steps0[k])))
  {
    var steps := steps0;
    for i := 0 to |steps0|
      invariant |steps| == |steps0|
      invariant forall k :: 0 <= k < i ==> steps[k] == StripStep(steps0[k]) && !UnhashableStep(steps0[k])
      invariant forall k :: i <= k < |steps| ==> steps[k] == steps0[k]
    {
      if HasCriteria(steps[i]) {
        var criteria := CriteriaOf(steps[i]);
        for j := 0 to |criteria|
          invariant |criteria| == |CriteriaOf(steps0[i])|
          invariant forall k :: 0 <= k < j ==> criteria[k] == StripElementRule(CriteriaOf(steps0[i])[k])
                                                && !Unhashable(CriteriaOf(steps0[i])[k])
          invariant forall k :: j <= k < |criteria| ==> criteria[k] == CriteriaOf(steps0[i])[k]
        {
          if Unhashable(criteria[j]) {
            assert UnhashableStep(steps0[i]);
            return Failure(TypeError);
          }
          criteria := criteria[j := StripElementRule(criteria[j])];
        }
        assert criteria == MapStrip(CriteriaOf(steps0[i]));
        steps := steps[i := WithCriteria(steps[i], criteria)];
      }
    }
    assert steps == seq(|steps0|, k requires 0 <= k < |steps0| => StripStep(steps0[k]));
    r := Success(steps);
  }

  /** Second pass. */
  method RepairPass(text: Json -> string, steps0: seq<Json>, url: string) returns (steps: seq<Json>)
    ensures steps == seq(|steps0|, k requires 0 <= k < |steps0| => RepairStep(text, steps0[k], url))
  {
    steps := steps0;
    for i := 0 to |steps0|
      invariant |steps| == |steps0|
      invariant forall k :: 0 <= k < i ==> steps[k] == RepairStep(text, steps0[k], url)
      invariant forall k :: i <= k < |steps| ==> steps[k] == steps0[k]
    {
      if HasCriteria(steps[i]) {
        var criteria := CriteriaOf(steps[i]);
        var replacement := Replacement(GoalWords(text, steps[i].fields));
        for j := 0 to |criteria|
          invariant |criteria| == |CriteriaOf(steps0[i])|
          invariant forall k :: 0 <= k < j ==> criteria[k] == RepairRoute(CriteriaOf(steps0[i])[k], url, replacement)
          invariant forall k :: j <= k < |criteria| ==> criteria[k] == CriteriaOf(steps0[i])[k]
        {
          criteria := criteria[j := RepairRoute(criteria[j], url, replacement)];
        }
        assert criteria == MapRepair(CriteriaOf(steps0[i]), url, replacement);
        steps := steps[i := WithCriteria(steps[i], criteria)];
      }
    }
  }

  /** Third pass: one control after the other, each to the first step that names it. */
  method BindPass(text: Json -> string, steps0: seq<Json>, state: PlanNormalizer.Fields) returns (steps: seq<Json>)
    ensures steps == BindAll(text, steps0, state, if state == map[] then [] else Bindings(state))
  {
    steps := steps0;
    if state == map[] {
      return;
    }
    var bs := Bindings(state);
    for i := 0 to |bs|
      invariant steps == BindAll(text, steps0, state, bs[..i])
    {
      assert bs[..i + 1][..i] == bs[..i];
      var b := bs[i];
      if b.key in state && b.expected.JString? {
        var target := FirstNaming(text, steps, b.hint);
        if target < |steps| && HasCriteria(steps[target]) {
          steps := steps[target := WithCriteria(steps[target], CriteriaOf(steps[target]) + [ControlCriterion(b)])];
        }
      }
    }
    assert bs[..|bs|] == bs;
  }

  method NormalizeSnapshotPlan(text: Json -> string, arguments: PlanNormalizer.Fields, url: string,
                               state: PlanNormalizer.Fields)
    returns (r: Result<PlanNormalizer.Fields, TypeError>)
    ensures r == Normalize(text, arguments, url, state)
  {
    if "steps" !in arguments || !arguments["steps"].JList? {
      return Success(arguments);
    }
    var steps0 := arguments["steps"].items;
    var stripped := StripPass(steps0);
    if stripped.Failure? {
      return Failure(stripped.error);
    }
    var repaired := RepairPass(text, stripped.value, url);
    assert repaired == RewriteSteps(text, steps0, url);
    var bound := BindPass(text, repaired, state);
    r := Success(arguments["steps" := JList(bound)]);
  }

  /* ---- The planner ---- */

  datatype Reply = Raised | NoToolCall | OtherTool | Submit(arguments: PlanNormalizer.Fields)

  datatype PlannerError = PlannerOutputError | OtherError

  /** A live page to plan against, with the acceptance state found in the goal. */
  datatype Snapshot = Snapshot(url: string, state: PlanNormalizer.Fields)

  /**
    Two attempts; an invalid reply is repaired once. A returned plan is valid and is what one of the
    replies was worth, and the second reply counts only when the first did not yield a plan.
   */
  method MakePlan(text: Json -> string, replies: seq<Reply>, snapshot: Option<Snapshot>)
    returns (r: Result<TestPlan, PlannerError>)
    requires |replies| == 2 && LeavesStrings(text)
    ensures r.Success? ==> ValidPlan(r.value)
    ensures r.Success? && snapshot.Some? ==> SnapshotPlan(r.value, snapshot.value.state)
    ensures r.Success? ==>
              exists k :: 0 <= k < 2 && replies[k].Submit?
                          && Accepted(text, replies[k].arguments, snapshot) == Some(r.value)
                          && forall j :: 0 <= j < k && replies[j].Submit? ==>
                               Accepted(text, replies[j].arguments, snapshot).None?
    ensures r == Failure(PlannerOutputError) ==>
              forall k :: 0 <= k < 2 && replies[k].Submit? ==> Accepted(text, replies[k].arguments, snapshot).None?
  {
    hide ParsePlan, Normalize, ValidPlan, ParseSteps, SnapshotPlan, LeavesStrings;
    for attempt := 0 to 2
      invariant forall k :: 0 <= k < attempt && replies[k].Submit? ==>
                Accepted(text, replies[k].arguments, snapshot).None?
    {
      match replies[attempt]
      case Raised => return Failure(OtherError);
      case NoToolCall =>
      case OtherTool =>
      case Submit(submitted) =>
        var arguments := submitted;
        if snapshot.Some? {
          var normalized := NormalizeSnapshotPlan(text, submitted, snapshot.value.url, snapshot.value.state);
          if normalized.Failure? {
            return Failure(OtherError);
          }
          arguments := normalized.value;
        }
        var plan := ParsePlan(arguments);
        if plan.Some? {
          assert Accepted(text, replies[attempt].arguments, snapshot) == Some(plan.value);
          if snapshot.Some? {
            AcceptedIsSnapshotPlan(text, replies[attempt].arguments, snapshot.value, plan.value);
          }
          return Success(plan.value);
        }
    }
    r := Failure(PlannerOutputError);
  }
}
