/** Plans and the validation of planner output (webpilot/agents/planner.py). */
module Plans {
  import opened Common
  import opened SafetyModels

  datatype Rule = UrlContains | VisibleTextContains | ElementTextEquals | ElementValueEquals | ElementCheckedEquals

  datatype Criterion = Criterion(rule: Rule, expected: string, role: Option<string>, name: Option<string>)

  /** The id `step_k` is represented by k. */
  datatype PlanStep = PlanStep(id: nat, goal: string, criteria: seq<Criterion>, riskLevel: RiskLevel)

  datatype TestPlan = TestPlan(steps: seq<PlanStep>)

  const OBSERVABLE_ELEMENT_ROLES := {
    "button", "link", "textbox", "combobox", "checkbox", "radio", "switch",
    "tab", "menuitem", "option", "slider", "spinbutton", "listbox", "treeitem"}

  predicate IsElementRule(rule: Rule) {
    rule == ElementTextEquals || rule == ElementValueEquals || rule == ElementCheckedEquals
  }

  predicate Truthy(s: Option<string>) {
    s.Some? && s.value != ""
  }

  predicate ValidCriterion(c: Criterion) {
    && c.expected != ""
    && (IsElementRule(c.rule) ==> Truthy(c.role) && Truthy(c.name) && c.role.value in OBSERVABLE_ELEMENT_ROLES)
    && (c.rule == ElementValueEquals ==>
        c.role.Some? && c.role.value in {"textbox", "combobox", "spinbutton", "slider"})
    && (c.rule == ElementCheckedEquals ==>
          c.role.Some? && c.role.value in {"checkbox", "radio", "switch"} && c.expected in {"true", "false"})
  }

  predicate ValidStep(s: PlanStep) {
    s.goal != "" && s.criteria != [] && forall c :: c in s.criteria ==> ValidCriterion(c)
  }

  predicate ValidPlan(p: TestPlan) {
    && p.steps != []
    && (forall k :: 0 <= k < |p.steps| ==> p.steps[k].id == k + 1 && ValidStep(p.steps[k]))
  }
}
