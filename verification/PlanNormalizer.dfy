/**
  Matching a snapshot plan to the evidence that can verify it (webpilot/agents/planner.py).

  The planner's tool arguments are arbitrary JSON. Two passes rewrite criteria in place and a third
  appends criteria for the benchmark's controls; `text` stands for Python's `str` on JSON values.
 */
module PlanNormalizer {
  import opened Common

  datatype Json =
    | JNull
    | JBool(b: bool)
    | JNumber(n: real)
    | JString(s: string)
    | JList(items: seq<Json>)
    | JObject(fields: map<string, Json>)

  type Fields = map<string, Json>

  /** `dict.get` with a default. */
  function Get(fields: Fields, key: string, default: Json): Json {
    if key in fields then fields[key] else default
  }

  /* ---- Rewriting one criterion ---- */

  const ELEMENT_RULES := {JString("element_text_equals"), JString("element_value_equals"),
                          JString("element_checked_equals")}

  predicate HasElementRule(c: Json) {
    c.JObject? && Get(c.fields, "rule", JNull) in ELEMENT_RULES
  }

  /** A criterion whose rule cannot even be looked up in a set; Python raises TypeError on it. */
  predicate Unhashable(c: Json) {
    c.JObject? && (Get(c.fields, "rule", JNull).JList? || Get(c.fields, "rule", JNull).JObject?)
  }

  function AsVisibleText(fields: Fields): Fields {
    fields["rule" := JString("visible_text_contains")] - {"element_role", "element_name"}
  }

  function StripElementRule(c: Json): Json {
    if HasElementRule(c) then JObject(AsVisibleText(c.fields)) else c
  }

  /** A route that the single page does not have, in a step that names one of its tabs. */
  predicate IsInventedRoute(c: Json, url: string) {
    && c.JObject?
    && Get(c.fields, "rule", JNull) == JString("url_contains")
    && Get(c.fields, "expected", JNull).JString?
    && (var expected := c.fields["expected"].s; |expected| > 0 && expected[0] == '/' && !Contains(url, expected))
  }

  function RepairRoute(c: Json, url: string, replacement: Option<string>): Json {
    if IsInventedRoute(c, url) && replacement.Some?
    then JObject(AsVisibleText(c.fields["expected" := JString(replacement.value)]))
    else c
  }

  function RewriteCriterion(c: Json, url: string, replacement: Option<string>): Json {
    RepairRoute(StripElementRule(c), url, replacement)
  }

  /** Rewriting is finished after one application. */
  lemma RewriteCriterionIdempotent(c: Json, url: string, replacement: Option<string>)
    ensures var r := RewriteCriterion(c, url, replacement);
            !HasElementRule(r) && RewriteCriterion(r, url, replacement) == r
  {
    var s := StripElementRule(c);
    assert !HasElementRule(s);
    var r := RepairRoute(s, url, replacement);
    if r != s {
      assert Get(r.fields, "rule", JNull) == JString("visible_text_contains");
    }
  }

  /* ---- Rewriting a step ---- */

  function GoalWords(text: Json -> string, fields: Fields): string {
    Lower(text(Get(fields, "goal", JString(""))))
  }

  function Replacement(words: string): Option<string> {
    if Contains(words, "catalog") then Some("Catalog")
    else if Contains(words, "orders") then Some("Orders")
    else if Contains(words, "profile") then Some("Profile")
    else None
  }

  predicate HasCriteria(step: Json) {
    step.JObject? && "success_criteria" in step.fields && step.fields["success_criteria"].JList?
  }

  function CriteriaOf(step: Json): seq<Json>
    requires HasCriteria(step)
  {
    step.fields["success_criteria"].items
  }

  function WithCriteria(step: Json, criteria: seq<Json>): Json
    requires HasCriteria(step)
  {
    JObject(step.fields["success_criteria" := JList(criteria)])
  }

  function MapStrip(cs: seq<Json>): seq<Json> {
    seq(|cs|, k requires 0 <= k < |cs| => StripElementRule(cs[k]))
  }

  function MapRepair(cs: seq<Json>, url: string, replacement: Option<string>): seq<Json> {
    seq(|cs|, k requires 0 <= k < |cs| => RepairRoute(cs[k], url, replacement))
  }

  function StripStep(step: Json): Json {
    if HasCriteria(step) then WithCriteria(step, MapStrip(CriteriaOf(step))) else step
  }

  function RepairStep(text: Json -> string, step: Json, url: string): Json {
    if HasCriteria(step)
    then WithCriteria(step, MapRepair(CriteriaOf(step), url, Replacement(GoalWords(text, step.fields))))
    else step
  }

  function RewriteSteps(text: Json -> string, steps: seq<Json>, url: string): seq<Json> {
    seq(|steps|, k requires 0 <= k < |steps| => RepairStep(text, StripStep(steps[k]), url))
  }

  predicate UnhashableStep(step: Json) {
    HasCriteria(step) && exists k | 0 <= k < |CriteriaOf(step)| :: Unhashable(CriteriaOf(step)[k])
  }

  predicate AnyUnhashable(steps: seq<Json>) {
    exists k | 0 <= k < |steps| :: UnhashableStep(steps[k])
  }

  /* ---- Binding benchmark controls ---- */

  datatype Binding = Binding(key: string, hint: string, rule: string, expected: Json, role: string, name: string)

  predicate IsTruthy(j: Json) {
    match j
    case JNull => false
    case JBool(b) => b
    case JNumber(n) => n != 0.0
    case JString(s) => s != ""
    case JList(items) => items != []
    case JObject(fields) => fields != map[]
  }

  function Bindings(state: Fields): seq<Binding> {
    [Binding("search", "search", "element_value_equals", Get(state, "search", JNull), "textbox", "Search products"),
     Binding("category", "filter", "element_value_equals", Get(state, "category", JNull), "combobox", "Category"),
     Binding("in_stock_only", "stock", "element_checked_equals",
             JString(if IsTruthy(Get(state, "in_stock_only", JNull)) then "true" else "false"),
             "checkbox", "In stock only"),
     Binding("sort", "sort", "element_value_equals", Get(state, "sort", JNull), "combobox", "Catalog sort"),
     Binding("profile_city", "city", "element_value_equals", Get(state, "profile_city", JNull), "textbox",
             "Shipping city")]
  }

  function ControlCriterion(b: Binding): Json {
    JObject(map["rule" := JString(b.rule), "expected" := b.expected,
                "element_role" := JString(b.role), "element_name" := JString(b.name)])
  }

  predicate Applies(b: Binding, state: Fields) {
    b.key in state && b.expected.JString?
  }

  predicate NamesHint(text: Json -> string, step: Json, hint: string) {
    step.JObject? && Contains(GoalWords(text, step.fields), hint)
  }

  /** The first step whose goal names the hint; |steps| when there is none. */
  function FirstNaming(text: Json -> string, steps: seq<Json>, hint: string): (k: nat)
    ensures k <= |steps|
    ensures k < |steps| ==> NamesHint(text, steps[k], hint)
    ensures forall j :: 0 <= j < k ==> !NamesHint(text, steps[j], hint)
  {
    if steps == [] || NamesHint(text, steps[0], hint) then 0
    else 1 + FirstNaming(text, steps[1..], hint)
  }

  function Bind(text: Json -> string, steps: seq<Json>, state: Fields, b: Binding): seq<Json> {
    var k := FirstNaming(text, steps, b.hint);
    if Applies(b, state) && k < |steps| && HasCriteria(steps[k])
    then steps[k := WithCriteria(steps[k], CriteriaOf(steps[k]) + [ControlCriterion(b)])]
    else steps
  }

  function BindAll(text: Json -> string, steps: seq<Json>, state: Fields, bs: seq<Binding>): seq<Json> {
    if bs == [] then steps
    else Bind(text, BindAll(text, steps, state, bs[..|bs| - 1]), state, bs[|bs| - 1])
  }

  /* ---- The whole normalisation ---- */

  /** `state` is the benchmark's acceptance state; an absent or empty one binds nothing. */
  function NormalizedSteps(text: Json -> string, steps: seq<Json>, url: string, state: Fields): seq<Json> {
    BindAll(text, RewriteSteps(text, steps, url), state, if state == map[] then [] else Bindings(state))
  }

  datatype TypeError = TypeError

  function Normalize(text: Json -> string, arguments: Fields, url: string, state: Fields): Result<Fields, TypeError> {
    if "steps" !in arguments || !arguments["steps"].JList? then Success(arguments)
    else if AnyUnhashable(arguments["steps"].items) then Failure(TypeError)
    else Success(arguments["steps" := JList(NormalizedSteps(text, arguments["steps"].items, url, state))])
  }

  /* ---- What normalisation does to a plan ---- */

  /** The criteria appended to each step. */
  type Injected = seq<seq<Json>>

  function Total(injected: Injected): nat {
    if injected == [] then 0 else Total(injected[..|injected| - 1]) + |injected[|injected| - 1]|
  }

  /** `steps` is `base` with `injected[k]` appended to the criteria of step k, and nothing else changed. */
  ghost predicate ExtendedBy(base: seq<Json>, steps: seq<Json>, injected: Injected) {
    && |steps| == |base| == |injected|
    && forall k :: 0 <= k < |base| ==>
         steps[k] == if HasCriteria(base[k]) then WithCriteria(base[k], CriteriaOf(base[k]) + injected[k]) else base[k]
  }

  lemma {:induction false} TotalOfUpdate(injected: Injected, k: nat, c: Json)
    requires k < |injected|
    ensures Total(injected[k := injected[k] + [c]]) == Total(injected) + 1
  {
    var updated := injected[k := injected[k] + [c]];
    var n := |injected| - 1;
    if k < n {
      assert updated[..n] == injected[..n][k := injected[..n][k] + [c]];
      TotalOfUpdate(injected[..n], k, c);
    } else {
      assert updated[..n] == injected[..n];
    }
  }

  lemma {:induction false} NothingInjected(n: nat)
    ensures Total(seq(n, _ => [])) == 0
  {
    if n > 0 {
      var injected: Injected := seq(n, _ => []);
      assert injected[..n - 1] == seq(n - 1, _ => []);
      NothingInjected(n - 1);
    }
  }

  /** Only bound controls are ever appended. */
  ghost predicate OnlyControls(injected: Injected, bs: seq<Binding>, state: Fields) {
    forall k, c :: 0 <= k < |injected| && c in injected[k] ==>
      exists j :: 0 <= j < |bs| && Applies(bs[j], state) && c == ControlCriterion(bs[j])
  }

  lemma NothingBound(base: seq<Json>, state: Fields) returns (injected: Injected)
    ensures ExtendedBy(base, base, injected) && Total(injected) == 0 && OnlyControls(injected, [], state)
  {
    injected := seq(|base|, _ => []);
    NothingInjected(|base|);
    forall k | 0 <= k < |base| && HasCriteria(base[k])
      ensures WithCriteria(base[k], CriteriaOf(base[k]) + []) == base[k]
    {
      assert CriteriaOf(base[k]) + [] == CriteriaOf(base[k]);
    }
  }

  lemma OneMoreBound(base: seq<Json>, steps: seq<Json>, before: Injected, k: nat, c: Json) returns (injected: Injected)
    requires ExtendedBy(base, steps, before) && k < |steps| && HasCriteria(steps[k])
    ensures ExtendedBy(base, steps[k := WithCriteria(steps[k], CriteriaOf(steps[k]) + [c])], injected)
    ensures injected == before[k := before[k] + [c]] && Total(injected) == Total(before) + 1
  {
    injected := before[k := before[k] + [c]];
    TotalOfUpdate(before, k, c);
    assert CriteriaOf(base[k]) + injected[k] == (CriteriaOf(base[k]) + before[k]) + [c];
  }

  lemma ControlsGrow(before: Injected, injected: Injected, bs: seq<Binding>, b: Binding, state: Fields)
    requires OnlyControls(before, bs, state) && |injected| == |before|
    requires forall i, c :: 0 <= i < |injected| && c in injected[i] ==>
              c in before[i] || (Applies(b, state) && c == ControlCriterion(b))
    ensures OnlyControls(injected, bs + [b], state)
  {
    hide ControlCriterion;
    forall i, c | 0 <= i < |injected| && c in injected[i]
      ensures exists j :: 0 <= j < |bs + [b]| && Applies((bs + [b])[j], state) && c == ControlCriterion((bs + [b])[j])
    {
      if c in before[i] {
        var j :| 0 <= j < |bs| && Applies(bs[j], state) && c == ControlCriterion(bs[j]);
        assert (bs + [b])[j] == bs[j];
      } else {
        assert (bs + [b])[|bs|] == b;
      }
    }
  }

  lemma {:induction false} BindAllExtends(text: Json -> string, base: seq<Json>, state: Fields, bs: seq<Binding>)
    returns (injected: Injected)
    ensures ExtendedBy(base, BindAll(text, base, state, bs), injected)
    ensures Total(injected) <= |bs| && OnlyControls(injected, bs, state)
  {
    hide GoalWords, NamesHint, Contains, ControlCriterion;
    if bs == [] {
      injected := NothingBound(base, state);
    } else {
      var front, b := bs[..|bs| - 1], bs[|bs| - 1];
      assert bs == front + [b];
      var before := BindAllExtends(text, base, state, front);
      var steps := BindAll(text, base, state, front);
      var k := FirstNaming(text, steps, b.hint);
      injected := before;
      if Applies(b, state) && k < |steps| && HasCriteria(steps[k]) {
        injected := OneMoreBound(base, steps, before, k, ControlCriterion(b));
      }
      ControlsGrow(before, injected, front, b, state);
    }
  }

  lemma {:induction false} FirstNamingAgrees(text: Json -> string, a: seq<Json>, b: seq<Json>, hint: string)
    requires |a| == |b| && forall k :: 0 <= k < |a| ==> (NamesHint(text, a[k], hint) <==> NamesHint(text, b[k], hint))
    ensures FirstNaming(text, a, hint) == FirstNaming(text, b, hint)
  {
    if a != [] && !NamesHint(text, a[0], hint) {
      FirstNamingAgrees(text, a[1..], b[1..], hint);
    }
  }

  /** Appending controls does not change which step a control belongs to. */
  lemma BindingKeepsNames(text: Json -> string, base: seq<Json>, state: Fields, bs: seq<Binding>, hint: string)
    ensures |BindAll(text, base, state, bs)| == |base|
    ensures FirstNaming(text, BindAll(text, base, state, bs), hint) == FirstNaming(text, base, hint)
  {
    hide Contains, BindAll;
    var _ := BindAllExtends(text, base, state, bs);
    FirstNamingAgrees(text, BindAll(text, base, state, bs), base, hint);
  }

  /** Every applicable control is appended to the first step that names it, and stays there. */
  lemma {:induction false} ControlIsBound(text: Json -> string, base: seq<Json>, state: Fields, bs: seq<Binding>,
                                          j: nat)
    requires j < |bs| && Applies(bs[j], state)
    requires FirstNaming(text, base, bs[j].hint) < |base| && HasCriteria(base[FirstNaming(text, base, bs[j].hint)])
    ensures var k := FirstNaming(text, base, bs[j].hint);
            && |BindAll(text, base, state, bs)| == |base| && HasCriteria(BindAll(text, base, state, bs)[k])
            && ControlCriterion(bs[j]) in CriteriaOf(BindAll(text, base, state, bs)[k])
  {
    hide Contains, NamesHint, ControlCriterion;
    var front := bs[..|bs| - 1];
    BindingKeepsNames(text, base, state, front, bs[|bs| - 1].hint);
    if j < |bs| - 1 {
      ControlIsBound(text, base, state, front, j);
    } else {
      var _ := BindAllExtends(text, base, state, front);
    }
  }

  /** The pointwise rewriting of a step's criteria; the step's own goal chooses the replacement. */
  function RewrittenCriteria(text: Json -> string, step: Json, url: string): seq<Json>
    requires HasCriteria(step)
  {
    var cs := CriteriaOf(step);
    seq(|cs|, k requires 0 <= k < |cs| => RewriteCriterion(cs[k], url, Replacement(GoalWords(text, step.fields))))
  }

  lemma RewriteStepShape(text: Json -> string, step: Json, url: string)
    requires HasCriteria(step)
    ensures var out := RepairStep(text, StripStep(step), url);
            && HasCriteria(out) && CriteriaOf(out) == RewrittenCriteria(text, step, url)
            && out.fields - {"success_criteria"} == step.fields - {"success_criteria"}
    ensures forall c :: c in RewrittenCriteria(text, step, url) ==> !HasElementRule(c)
  {
    var r := Replacement(GoalWords(text, step.fields));
    forall k | 0 <= k < |CriteriaOf(step)| ensures !HasElementRule(RewriteCriterion(CriteriaOf(step)[k], url, r)) {
      RewriteCriterionIdempotent(CriteriaOf(step)[k], url, r);
    }
    assert GoalWords(text, StripStep(step).fields) == GoalWords(text, step.fields);
  }

  /**
    The shape of a normalised plan: same steps, everything but the criteria kept, each criteria list
    the pointwise rewriting of the original followed by control criteria, at most five in all. No
    element rule of the model's own survives.
   */
  lemma NormalizedShape(text: Json -> string, steps: seq<Json>, url: string, state: Fields) returns (injected: Injected)
    ensures var out := NormalizedSteps(text, steps, url, state);
            && |out| == |steps| == |injected| && Total(injected) <= 5
            && OnlyControls(injected, Bindings(state), state)
            && forall k :: 0 <= k < |steps| ==>
                 && (!HasCriteria(steps[k]) ==> out[k] == steps[k])
                 && (HasCriteria(steps[k]) ==>
                       && HasCriteria(out[k])
                       && out[k].fields - {"success_criteria"} == steps[k].fields - {"success_criteria"}
                       && CriteriaOf(out[k]) == RewrittenCriteria(text, steps[k], url) + injected[k]
                       && forall c :: c in RewrittenCriteria(text, steps[k], url) ==> !HasElementRule(c))
  {
    var base := RewriteSteps(text, steps, url);
    injected := BindAllExtends(text, base, state, if state == map[] then [] else Bindings(state));
    forall k | 0 <= k < |steps| && HasCriteria(steps[k])
      ensures HasCriteria(base[k]) && CriteriaOf(base[k]) == RewrittenCriteria(text, steps[k], url)
      ensures base[k].fields - {"success_criteria"} == steps[k].fields - {"success_criteria"}
      ensures forall c :: c in RewrittenCriteria(text, steps[k], url) ==> !HasElementRule(c)
    {
      RewriteStepShape(text, steps[k], url);
    }
  }

  /** The two rewriting passes change nothing when applied to their own result. */
  lemma RewriteIdempotent(text: Json -> string, steps: seq<Json>, url: string)
    ensures var once := RewriteSteps(text, steps, url); RewriteSteps(text, once, url) == once
  {
    var once := RewriteSteps(text, steps, url);
    forall k | 0 <= k < |steps| ensures RepairStep(text, StripStep(once[k]), url) == once[k] {
      if HasCriteria(steps[k]) {
        RewriteStepShape(text, steps[k], url);
        RewriteStepShape(text, once[k], url);
        var r := Replacement(GoalWords(text, steps[k].fields));
        assert GoalWords(text, once[k].fields) == GoalWords(text, steps[k].fields);
        var cs := CriteriaOf(steps[k]);
        forall j | 0 <= j < |cs| ensures RewriteCriterion(CriteriaOf(once[k])[j], url, r) == CriteriaOf(once[k])[j] {
          RewriteCriterionIdempotent(cs[j], url, r);
        }
        assert RewrittenCriteria(text, once[k], url) == CriteriaOf(once[k]);
      }
    }
  }
}
