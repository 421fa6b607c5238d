/** The rule verifier (webpilot/verifier/rules.py). */
module Verifier {
  import opened Common
  import opened Plans
  import opened Browser

  datatype Evidence = Evidence(rule: Rule, expected: string, passed: bool)

  datatype VerificationStatus = Pass | Fail

  datatype VerificationResult = VerificationResult(status: VerificationStatus, evidence: seq<Evidence>)

  /* ---- What a criterion says about a page ---- */

  function OrEmpty(s: Option<string>): string {
    if s.Some? then s.value else ""
  }

  /** An absent or empty role or name does not restrict the match. */
  predicate Matches(e: Element, c: Criterion) {
    (Truthy(c.role) ==> e.role == c.role) && (Truthy(c.name) ==> e.name == c.name)
  }

  predicate Holds(o: Observation, c: Criterion) {
    match c.rule
    case UrlContains => Contains(o.url, c.expected)
    case VisibleTextContains => Contains(o.visibleText, c.expected)
    case ElementTextEquals =>
      exists k | 0 <= k < |o.elements| :: Matches(o.elements[k], c) && Strip(OrEmpty(o.elements[k].text)) == c.expected
    case ElementValueEquals =>
      exists k | 0 <= k < |o.elements| :: Matches(o.elements[k], c) && OrEmpty(o.elements[k].value) == c.expected
    case ElementCheckedEquals =>
      exists k | 0 <= k < |o.elements| :: Matches(o.elements[k], c)
          && o.elements[k].checked == Some(c.expected == "true")
  }

  /** One piece of evidence per criterion, in order; PASS means all of them, and there is at least one. */
  ghost predicate Answers(r: VerificationResult, criteria: seq<Criterion>) {
    && |r.evidence| == |criteria|
    && (forall k :: 0 <= k < |criteria| ==>
        r.evidence[k].rule == criteria[k].rule && r.evidence[k].expected == criteria[k].expected)
    && (r.status == Pass <==> criteria != [] && forall k :: 0 <= k < |criteria| ==> r.evidence[k].passed)
  }

  ghost predicate Truthful(r: VerificationResult, o: Observation, criteria: seq<Criterion>) {
    Answers(r, criteria) && forall k :: 0 <= k < |criteria| ==> (r.evidence[k].passed <==> Holds(o, criteria[k]))
  }

  /* ---- Verdicts, read off the page ---- */

  /** The element has the role and the name, where they are given and not empty. */
  predicate Fits(e: Element, role: Option<string>, name: Option<string>) {
    && (role.None? || role == Some("") || e.role == role)
    && (name.None? || name == Some("") || e.name == name)
  }

  lemma TextVerdicts(r: VerificationResult, o: Observation, criteria: seq<Criterion>, k: nat)
    requires Truthful(r, o, criteria) && k < |criteria|
    ensures criteria[k].rule == UrlContains ==>
              (r.evidence[k].passed <==> exists a, b :: o.url == a + criteria[k].expected + b)
    ensures criteria[k].rule == VisibleTextContains ==>
              (r.evidence[k].passed <==> exists a, b :: o.visibleText == a + criteria[k].expected + b)
  {
    ContainsMeaning(o.url, criteria[k].expected);
    ContainsMeaning(o.visibleText, criteria[k].expected);
  }

  lemma ElementVerdicts(r: VerificationResult, o: Observation, criteria: seq<Criterion>, k: nat)
    requires Truthful(r, o, criteria) && k < |criteria|
    ensures criteria[k].rule == ElementTextEquals ==>
              (r.evidence[k].passed <==>
               exists e :: e in o.elements && Fits(e, criteria[k].role, criteria[k].name)
                           && Strip(if e.text.Some? then e.text.value else "") == criteria[k].expected)
    ensures criteria[k].rule == ElementValueEquals ==>
              (r.evidence[k].passed <==>
               exists e :: e in o.elements && Fits(e, criteria[k].role, criteria[k].name)
                           && (if e.value.Some? then e.value.value else "") == criteria[k].expected)
  {
    var c := criteria[k];
    if r.evidence[k].passed && (c.rule == ElementTextEquals || c.rule == ElementValueEquals) {
      assert Holds(o, c);
    }
  }

  /** "true" needs a fitting element that is checked, "false" one that is unchecked; unknown states fit neither. */
  lemma CheckedVerdicts(r: VerificationResult, o: Observation, criteria: seq<Criterion>, k: nat)
    requires Truthful(r, o, criteria) && k < |criteria| && criteria[k].rule == ElementCheckedEquals
    ensures criteria[k].expected == "true" ==>
              (r.evidence[k].passed <==>
               exists e :: e in o.elements && Fits(e, criteria[k].role, criteria[k].name) && e.checked == Some(true))
    ensures criteria[k].expected == "false" ==>
              (r.evidence[k].passed <==>
               exists e :: e in o.elements && Fits(e, criteria[k].role, criteria[k].name) && e.checked == Some(false))
  {
    if r.evidence[k].passed {
      assert Holds(o, criteria[k]);
    }
  }

  /** Turning the only fitting box over turns the verdict over. */
  lemma TurnedBoxTurnsVerdict(r: VerificationResult, r': VerificationResult, o: Observation, o': Observation,
                              criteria: seq<Criterion>, k: nat, i: nat, state: bool)
    requires Truthful(r, o, criteria) && Truthful(r', o', criteria)
    requires k < |criteria| && criteria[k].rule == ElementCheckedEquals && criteria[k].expected in {"true", "false"}
    requires i < |o.elements| && Fits(o.elements[i], criteria[k].role, criteria[k].name)
    requires forall j :: 0 <= j < |o.elements| && j != i ==> !Fits(o.elements[j], criteria[k].role, criteria[k].name)
    requires o.elements[i].checked == Some(state)
    requires o'.elements == o.elements[i := o.elements[i].(checked := Some(!state))]
    ensures r'.evidence[k].passed <==> !r.evidence[k].passed
  {
    CheckedVerdicts(r, o, criteria, k);
    CheckedVerdicts(r', o', criteria, k);
    assert o'.elements[i].checked == Some(!state) && o.elements[i] in o.elements && o'.elements[i] in o'.elements;
  }

  /* ---- The programs ---- */

  method MatchingElements(o: Observation, c: Criterion) returns (candidates: seq<Element>)
    ensures forall e :: e in candidates <==> e in o.elements && Matches(e, c)
  {
    candidates := [];
    for k := 0 to |o.elements|
      invariant forall e :: e in candidates <==> e in o.elements[..k] && Matches(e, c)
    {
      if Truthy(c.role) && o.elements[k].role != c.role {
        continue;
      }
      if Truthy(c.name) && o.elements[k].name != c.name {
        continue;
      }
      candidates := candidates + [o.elements[k]];
    }
    assert o.elements[..|o.elements|] == o.elements;
  }

  /** The five rule checks; an element rule passes when some matching element has the expected state. */
  method Check(o: Observation, c: Criterion) returns (item: Evidence)
    ensures item.rule == c.rule && item.expected == c.expected && (item.passed <==> Holds(o, c))
    ensures c.rule == ElementCheckedEquals && c.expected == "true" ==>
              (item.passed <==> exists e :: e in o.elements && Fits(e, c.role, c.name) && e.checked == Some(true))
    ensures c.rule == ElementCheckedEquals && c.expected == "false" ==>
              (item.passed <==> exists e :: e in o.elements && Fits(e, c.role, c.name) && e.checked == Some(false))
  {
    var passed := false;
    if c.rule == UrlContains {
      passed := Contains(o.url, c.expected);
    } else if c.rule == VisibleTextContains {
      passed := Contains(o.visibleText, c.expected);
    } else {
      var candidates := MatchingElements(o, c);
      if c.rule == ElementTextEquals {
        passed := exists e | e in candidates :: Strip(OrEmpty(e.text)) == c.expected;
      } else if c.rule == ElementValueEquals {
        passed := exists e | e in candidates :: OrEmpty(e.value) == c.expected;
      } else {
        var expected := c.expected == "true";
        passed := exists e | e in candidates :: e.checked == Some(expected);
      }
    }
    item := Evidence(c.rule, c.expected, passed);
  }

  method Verify(o: Observation, criteria: seq<Criterion>) returns (r: VerificationResult)
    ensures Truthful(r, o, criteria)
  {
    var evidence: seq<Evidence> := [];
    if criteria == [] {
      return VerificationResult(Fail, []);
    }
    for k := 0 to |criteria|
      invariant |evidence| == k
      invariant forall j :: 0 <= j < k ==>
                evidence[j].rule == criteria[j].rule && evidence[j].expected == criteria[j].expected
                                           && (evidence[j].passed <==> Holds(o, criteria[j]))
    {
      var item := Check(o, criteria[k]);
      evidence := evidence + [item];
    }
    var passed := forall item | item in evidence :: item.passed;
    assert passed ==> forall k :: 0 <= k < |evidence| ==> evidence[k] in evidence;
    r := VerificationResult(if passed then Pass else Fail, evidence);
  }
}
