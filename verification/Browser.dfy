/** Observations of a page (webpilot/browser/observation.py), and the verifier's view of them. */
module Browser {
  import opened Common
  import Planner

  datatype Element = Element(
    ref: string,
    tag: string,
    role: Option<string>,
    name: Option<string>,
    text: Option<string>,
    placeholder: Option<string>,
    value: Option<string>,
    checked: Option<bool>,
    enabled: bool,
    visible: bool)

  datatype Observation = Observation(url: string, title: string, elements: seq<Element>, visibleText: string)

  /** Refs are minted in page order: e1, e2, ... */
  function RefName(k: nat): string {
    "e" + Planner.Decimal(k)
  }

  function Minted(raw: seq<Element>): seq<Element> {
    seq(|raw|, k requires 0 <= k < |raw| => raw[k].(ref := RefName(k + 1)))
  }

  /** A list of elements as an observation numbers them. */
  predicate IsMinted(elements: seq<Element>) {
    forall k :: 0 <= k < |elements| ==> elements[k].ref == RefName(k + 1)
  }

  /** `element_for`: refs resolve against the most recent observation only. */
  function ElementFor(elements: seq<Element>, ref: string): (e: Option<Element>)
    ensures e.Some? ==> e.value in elements && e.value.ref == ref
    ensures e.None? ==> forall x :: x in elements ==> x.ref != ref
  {
    if elements == [] then None
    else if elements[0].ref == ref then Some(elements[0])
    else ElementFor(elements[1..], ref)
  }

  lemma {:induction false} DecimalIsBlankFree(k: nat)
    ensures Planner.Decimal(k) != "" && forall i :: 0 <= i < |Planner.Decimal(k)| ==> !IsSpace(Planner.Decimal(k)[i])
  {
    if k >= 10 {
      DecimalIsBlankFree(k / 10);
    }
  }

  /** A ref that resolves is the same with and without stripping, so gate and tool mean the same element. */
  lemma ResolvedRefIsStripped(elements: seq<Element>, ref: string)
    requires IsMinted(elements) && ElementFor(elements, ref).Some?
    ensures Strip(ref) == ref && ref != ""
  {
    var k :| 0 <= k < |elements| && elements[k] == ElementFor(elements, ref).value;
    DecimalIsBlankFree(k + 1);
    assert ref == "e" + Planner.Decimal(k + 1);
    assert ref[0] == 'e';
    assert ref[|ref| - 1] == Planner.Decimal(k + 1)[|Planner.Decimal(k + 1)| - 1];
  }

  lemma LastDigit(k: nat)
    ensures Planner.Decimal(k) != "" && Planner.Decimal(k)[|Planner.Decimal(k)| - 1] == '0' + (k % 10) as char
    ensures |Planner.Decimal(k)| == 1 <==> k < 10
  {
    if k >= 10 {
      DecimalIsBlankFree(k / 10);
    }
  }

  lemma {:induction false} DecimalIsInjective(j: nat, k: nat)
    ensures Planner.Decimal(j) == Planner.Decimal(k) ==> j == k
    decreases j
  {
    if Planner.Decimal(j) == Planner.Decimal(k) {
      DecimalIsBlankFree(j / 10);
      DecimalIsBlankFree(k / 10);
      LastDigit(j);
      LastDigit(k);
      if j >= 10 && k >= 10 {
        assert Planner.Decimal(j)[..|Planner.Decimal(j)| - 1] == Planner.Decimal(j / 10);
        assert Planner.Decimal(k)[..|Planner.Decimal(k)| - 1] == Planner.Decimal(k / 10);
        DecimalIsInjective(j / 10, k / 10);
      }
    }
  }

  /** No two elements of an observation share a ref. */
  lemma RefsAreDistinct(elements: seq<Element>, i: nat, j: nat)
    requires IsMinted(elements) && i < |elements| && j < |elements| && elements[i].ref == elements[j].ref
    ensures i == j
  {
    assert elements[i].ref[1..] == Planner.Decimal(i + 1) && elements[j].ref[1..] == Planner.Decimal(j + 1);
    DecimalIsInjective(i + 1, j + 1);
  }

  /** So a ref resolves to the one element that bears it. */
  lemma RefResolves(elements: seq<Element>, e: Element)
    requires IsMinted(elements) && e in elements
    ensures ElementFor(elements, e.ref) == Some(e)
  {
    var found := ElementFor(elements, e.ref);
    var i :| 0 <= i < |elements| && elements[i] == e;
    assert found.Some?;
    var j :| 0 <= j < |elements| && elements[j] == found.value;
    RefsAreDistinct(elements, i, j);
  }
}
