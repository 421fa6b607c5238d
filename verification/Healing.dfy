/** Ranking the current elements and choosing one to heal to (webpilot/browser/locator.py). */
module Healing {
  import opened Common
  import opened Locator

  /** An observed element and what capturing its signature gave; None when capturing raised. */
  datatype Captured = Captured(ref: string, signature: Option<Signature>)

  datatype Candidate = Candidate(ref: string, score: real, reasons: seq<Reason>, signature: Signature)

  datatype HealingResult = HealingResult(
    originalRef: Option<string>,
    healedRef: string,
    score: real,
    margin: real,
    candidateCount: nat,
    reasons: seq<Reason>)

  datatype HealingError = NotFound | Ambiguous

  /** The locator's configuration; the defaults of the code are 0.55 and 0.08. */
  datatype Healer = Healer(ratio: (string, string) -> real, minScore: real, minMargin: real)

  /* ---- Candidates ---- */

  function CandidateOf(h: Healer, target: Signature, c: Captured): seq<Candidate> {
    match c.signature
    case None => []
    case Some(signature) =>
      var fs := Fields(h.ratio, target, signature);
      [Candidate(c.ref, WeightedMean(fs), Reasons(fs), signature)]
  }

  function Candidates(h: Healer, target: Signature, elements: seq<Captured>): seq<Candidate> {
    if elements == [] then []
    else Candidates(h, target, elements[..|elements| - 1]) + CandidateOf(h, target, elements[|elements| - 1])
  }

  lemma {:induction false} CandidatesConcat(h: Healer, target: Signature, xs: seq<Captured>, ys: seq<Captured>)
    ensures Candidates(h, target, xs + ys) == Candidates(h, target, xs) + Candidates(h, target, ys)
  {
    if ys == [] {
      assert xs + ys == xs;
    } else {
      assert (xs + ys)[..|xs + ys| - 1] == xs + ys[..|ys| - 1];
      CandidatesConcat(h, target, xs, ys[..|ys| - 1]);
    }
  }

  lemma CandidatesWithout(h: Healer, target: Signature, xs: seq<Captured>, k: nat)
    requires k < |xs|
    ensures multiset(Candidates(h, target, xs)) ==
            multiset(Candidates(h, target, Without(xs, k))) + multiset(CandidateOf(h, target, xs[k]))
  {
    var l, c, r := xs[..k], xs[k], xs[k + 1..];
    assert xs == l + [c] + r && [c][..0] == [];
    assert Candidates(h, target, [c]) == CandidateOf(h, target, c);
    hide Candidates, CandidateOf;
    CandidatesConcat(h, target, l + [c], r);
    CandidatesConcat(h, target, l, [c]);
    CandidatesConcat(h, target, l, r);
  }

  /** The candidates do not depend on the order of the elements, except for their own order. */
  lemma {:induction false} CandidatesPermute(h: Healer, target: Signature, xs: seq<Captured>, ys: seq<Captured>)
    requires multiset(xs) == multiset(ys)
    ensures multiset(Candidates(h, target, xs)) == multiset(Candidates(h, target, ys))
  {
    hide Candidates, CandidateOf;
    SameLength(xs, ys);
    if xs != [] {
      var j := |xs| - 1;
      assert xs[j] in multiset(xs);
      var k := PositionOf(ys, xs[j]);
      WithoutMultiset(xs, j);
      WithoutMultiset(ys, k);
      CandidatesPermute(h, target, Without(xs, j), Without(ys, k));
      CandidatesWithout(h, target, xs, j);
      CandidatesWithout(h, target, ys, k);
    } else {
      assert xs == ys;
    }
  }

  /* ---- Sorting by score, best first, equal scores in their original order ---- */

  predicate Descending(cs: seq<Candidate>) {
    forall i, j :: 0 <= i < j < |cs| ==> cs[i].score >= cs[j].score
  }

  /** Places `c` behind everything that scores at least as much. */
  function Insert(cs: seq<Candidate>, c: Candidate): seq<Candidate> {
    if cs == [] || cs[|cs| - 1].score >= c.score then cs + [c]
    else Insert(cs[..|cs| - 1], c) + [cs[|cs| - 1]]
  }

  function StableSort(cs: seq<Candidate>): seq<Candidate> {
    if cs == [] then [] else Insert(StableSort(cs[..|cs| - 1]), cs[|cs| - 1])
  }

  lemma {:induction false} InsertMembers(cs: seq<Candidate>, c: Candidate)
    ensures multiset(Insert(cs, c)) == multiset(cs) + multiset{c}
  {
    if cs != [] && cs[|cs| - 1].score < c.score {
      assert cs == cs[..|cs| - 1] + [cs[|cs| - 1]];
      InsertMembers(cs[..|cs| - 1], c);
    }
  }

  lemma {:induction false} InsertSorts(cs: seq<Candidate>, c: Candidate)
    requires Descending(cs)
    ensures Descending(Insert(cs, c))
    ensures forall i :: 0 <= i < |Insert(cs, c)| ==> Insert(cs, c)[i] == c || Insert(cs, c)[i] in cs
  {
    if cs != [] && cs[|cs| - 1].score < c.score {
      InsertSorts(cs[..|cs| - 1], c);
    }
  }

  lemma {:induction false} StableSortSorts(cs: seq<Candidate>)
    ensures Descending(StableSort(cs))
    ensures multiset(StableSort(cs)) == multiset(cs)
    ensures |StableSort(cs)| == |cs|
  {
    if cs != [] {
      StableSortSorts(cs[..|cs| - 1]);
      assert cs == cs[..|cs| - 1] + [cs[|cs| - 1]];
      InsertSorts(StableSort(cs[..|cs| - 1]), cs[|cs| - 1]);
      InsertMembers(StableSort(cs[..|cs| - 1]), cs[|cs| - 1]);
    }
    assert |multiset(StableSort(cs))| == |StableSort(cs)| && |multiset(cs)| == |cs|;
  }

  /* ---- Choosing ---- */

  /** What `heal` decides from a ranking. */
  function Choose(h: Healer, target: Signature, ranking: seq<Candidate>): Result<HealingResult, HealingError> {
    if ranking == [] then Failure(NotFound)
    else
      var best := ranking[0];
      var second := if |ranking| > 1 then ranking[1].score else 0.0;
      if best.score < h.minScore then Failure(NotFound)
      else if |ranking| > 1 && best.score - second < h.minMargin then Failure(Ambiguous)
      else Success(HealingResult(target.ref, best.ref, best.score, best.score - second, |ranking|, best.reasons))
  }

  function HealOutcome(h: Healer, target: Signature, elements: seq<Captured>): Result<HealingResult, HealingError> {
    Choose(h, target, StableSort(Candidates(h, target, elements)))
  }

  /** `cs` has a candidate with the healed ref that beats every other one by at least the margin. */
  ghost predicate Winner(h: Healer, cs: seq<Candidate>, k: nat, r: HealingResult) {
    && k < |cs|
    && cs[k].ref == r.healedRef && cs[k].score == r.score && r.score >= h.minScore
    && (forall j :: 0 <= j < |cs| && j != k ==> r.score - cs[j].score >= r.margin)
    && (|cs| > 1 ==> r.margin >= h.minMargin)
  }

  /** Everything but `xs[k]` is found among `ys` without its first element, which equals `xs[k]`. */
  lemma PermutedOthers(xs: seq<Candidate>, ys: seq<Candidate>, k: nat, j: nat) returns (m: nat)
    requires multiset(xs) == multiset(ys) && k < |xs| && j < |xs| && j != k
    requires ys != [] && xs[k] == ys[0]
    ensures 0 < m < |ys| && ys[m] == xs[j]
  {
    assert xs[j] in multiset(Without(ys, 0)) by {
      hide Without;
      WithoutMultiset(xs, k);
      WithoutMultiset(ys, 0);
      OthersStay(xs, k, j);
    }
    var n := PositionOf(Without(ys, 0), xs[j]);
    m := n + 1;
  }

  lemma SecondElsewhere(cs: seq<Candidate>, ranking: seq<Candidate>, k: nat) returns (m: nat)
    requires multiset(cs) == multiset(ranking) && |ranking| > 1 && k < |cs| && cs[k] == ranking[0]
    ensures m < |cs| && m != k && cs[m] == ranking[1]
  {
    assert ranking[1] in multiset(Without(cs, k)) by {
      hide Without;
      WithoutMultiset(ranking, 0);
      WithoutMultiset(cs, k);
      OthersStay(ranking, 0, 1);
    }
    var n := PositionOf(Without(cs, k), ranking[1]);
    m := if n < k then n else n + 1;
  }

  ghost predicate BestIsAt(cs: seq<Candidate>, ranking: seq<Candidate>, k: nat) {
    && k < |cs| && ranking != [] && ranking[0] == cs[k]
    && (forall j :: 0 <= j < |cs| ==> cs[j].score <= cs[k].score)
    && (forall j :: 0 <= j < |cs| && j != k ==> |ranking| > 1 && cs[j].score <= ranking[1].score)
  }

  lemma BestOfRanking(cs: seq<Candidate>, ranking: seq<Candidate>) returns (k: nat)
    requires multiset(cs) == multiset(ranking) && Descending(ranking) && cs != []
    ensures BestIsAt(cs, ranking, k)
  {
    SameLength(cs, ranking);
    assert ranking[0] in multiset(cs);
    k := PositionOf(cs, ranking[0]);
    forall j | 0 <= j < |cs| && j != k ensures |ranking| > 1 && cs[j].score <= ranking[1].score <= ranking[0].score {
      var m := PermutedOthers(cs, ranking, k, j);
    }
  }

  ghost predicate NoneReaches(h: Healer, cs: seq<Candidate>) {
    forall j :: 0 <= j < |cs| ==> cs[j].score < h.minScore
  }

  lemma ChooseMeaning(h: Healer, target: Signature, cs: seq<Candidate>, ranking: seq<Candidate>)
    requires multiset(cs) == multiset(ranking) && Descending(ranking)
    ensures var r := Choose(h, target, ranking);
            && (r == Failure(NotFound) <==> NoneReaches(h, cs))
            && (r.Success? ==> exists k: nat :: Winner(h, cs, k, r.value))
  {
    SameLength(cs, ranking);
    if cs != [] {
      var k := BestOfRanking(cs, ranking);
      var r := Choose(h, target, ranking);
      if r.Success? {
        assert Winner(h, cs, k, r.value);
      } else if r.error == Ambiguous {
        assert cs[k].score >= h.minScore;
      }
    }
  }

  /** A candidate that reaches the threshold and beats every other by the required margin. */
  ghost predicate Beats(h: Healer, cs: seq<Candidate>, k: nat) {
    && k < |cs| && cs[k].score >= h.minScore
    && forall j :: 0 <= j < |cs| && j != k ==> cs[k].score - cs[j].score >= h.minMargin
  }

  /** With a positive margin such a candidate is the one chosen. */
  lemma WinnerIsChosen(h: Healer, target: Signature, cs: seq<Candidate>, ranking: seq<Candidate>, k: nat)
    requires multiset(cs) == multiset(ranking) && Descending(ranking) && h.minMargin > 0.0
    requires Beats(h, cs, k)
    ensures Choose(h, target, ranking).Success? && Choose(h, target, ranking).value.healedRef == cs[k].ref
  {
    SameLength(cs, ranking);
    var b := BestOfRanking(cs, ranking);
    assert b == k;
    if |ranking| > 1 {
      var m := SecondElsewhere(cs, ranking, k);
    }
  }

  /**
    What healing means, without ranking: it is not found exactly when no candidate reaches the
    threshold; a success names a candidate that beats every other by at least the reported margin;
    and with a positive margin there is a success exactly when some candidate beats every other.
   */
  lemma HealMeaning(h: Healer, target: Signature, elements: seq<Captured>)
    ensures HealOutcome(h, target, elements) == Failure(NotFound) <==> NoneReaches(h, Candidates(h, target, elements))
    ensures var cs, r := Candidates(h, target, elements), HealOutcome(h, target, elements);
            r.Success? ==> exists k: nat :: Winner(h, cs, k, r.value)
    ensures var cs, r := Candidates(h, target, elements), HealOutcome(h, target, elements);
            h.minMargin > 0.0 ==> (r.Success? <==> exists k: nat :: Beats(h, cs, k))
  {
    hide Candidates, StableSort;
    var cs := Candidates(h, target, elements);
    var r := HealOutcome(h, target, elements);
    StableSortSorts(cs);
    ChooseMeaning(h, target, cs, StableSort(cs));
    if r.Success? {
      var k: nat :| Winner(h, cs, k, r.value);
      assert Beats(h, cs, k);
    }
    if h.minMargin > 0.0 && exists k: nat :: Beats(h, cs, k) {
      var k: nat :| Beats(h, cs, k);
      WinnerIsChosen(h, target, cs, StableSort(cs), k);
    }
  }

  /* ---- Healing, over the captured elements ---- */

  /** How like the lost element a found one is. */
  function Likeness(h: Healer, lost: Signature, found: Signature): real {
    WeightedMean(Fields(h.ratio, lost, found))
  }

  /** A candidate is a captured element, scored by how like the lost one it is. */
  lemma {:induction false} CandidateMeaning(h: Healer, target: Signature, elements: seq<Captured>, c: Candidate)
    requires c in Candidates(h, target, elements)
    ensures exists k :: 0 <= k < |elements| && elements[k].signature == Some(c.signature) && elements[k].ref == c.ref
                        && c.score == Likeness(h, target, c.signature)
  {
    hide WeightedMean, Fields, Reasons;
    var n := |elements| - 1;
    if c in Candidates(h, target, elements[..n]) {
      CandidateMeaning(h, target, elements[..n], c);
      var k :| 0 <= k < n && elements[..n][k].signature == Some(c.signature) && elements[..n][k].ref == c.ref
               && c.score == Likeness(h, target, c.signature);
      assert elements[k] == elements[..n][k];
    } else {
      assert elements[n].signature == Some(c.signature) && elements[n].ref == c.ref;
    }
  }

  /** And every captured element is one. */
  lemma {:induction false} CapturedIsCandidate(h: Healer, target: Signature, elements: seq<Captured>, k: nat)
    requires k < |elements| && elements[k].signature.Some?
    ensures exists c :: c in Candidates(h, target, elements)
                        && c.score == Likeness(h, target, elements[k].signature.value) && c.ref == elements[k].ref
  {
    hide WeightedMean, Fields, Reasons;
    var n := |elements| - 1;
    if k < n {
      CapturedIsCandidate(h, target, elements[..n], k);
      var c :| c in Candidates(h, target, elements[..n])
               && c.score == Likeness(h, target, elements[..n][k].signature.value) && c.ref == elements[..n][k].ref;
      assert c in Candidates(h, target, elements);
    } else {
      var c := CandidateOf(h, target, elements[n])[0];
      assert c in Candidates(h, target, elements);
    }
  }

  /** The lost element is not found exactly when every captured element falls below the threshold. */
  lemma NotFoundMeaning(h: Healer, target: Signature, elements: seq<Captured>)
    ensures HealOutcome(h, target, elements) == Failure(NotFound) <==>
            forall k :: 0 <= k < |elements| && elements[k].signature.Some? ==>
              Likeness(h, target, elements[k].signature.value) < h.minScore
  {
    hide Candidates, HealOutcome, Likeness;
    var cs := Candidates(h, target, elements);
    HealMeaning(h, target, elements);
    if NoneReaches(h, cs) {
      forall k | 0 <= k < |elements| && elements[k].signature.Some?
        ensures Likeness(h, target, elements[k].signature.value) < h.minScore
      {
        CapturedIsCandidate(h, target, elements, k);
        var c :| c in cs && c.score == Likeness(h, target, elements[k].signature.value) && c.ref == elements[k].ref;
        var j :| 0 <= j < |cs| && cs[j] == c;
      }
    } else {
      var j :| 0 <= j < |cs| && cs[j].score >= h.minScore;
      CandidateMeaning(h, target, elements, cs[j]);
    }
  }

  /** Element k is what the call was healed to: its ref and its likeness are the result's. */
  ghost predicate HealedTo(h: Healer, target: Signature, elements: seq<Captured>, r: HealingResult, k: nat) {
    && k < |elements| && elements[k].signature.Some? && elements[k].ref == r.healedRef
    && r.score == Likeness(h, target, elements[k].signature.value) && r.score >= h.minScore
  }

  lemma LikenessFacts(h: Healer, lost: Signature, found: Signature)
    requires IsRatio(h.ratio)
    ensures Likeness(h, lost, found) == 1.0 <==> FullMatch(lost, found) && !NothingToCompare(lost)
    ensures AllPresent(lost) && Likeness(h, lost, found) >= 0.55 ==>
              || NormalizeText(lost.role) == NormalizeText(found.role)
              || StringSimilarity(h.ratio, lost.name, found.name, true) >= 1.0 / 3.0
  {
    hide WeightedMean, Fields, FullMatch, NothingToCompare, AllPresent, StringSimilarity, NormalizeText, IsRatio;
    FullScoreMeaning(h.ratio, lost, found);
    if AllPresent(lost) && Likeness(h, lost, found) >= 0.55 {
      AcceptedMatchesRoleOrName(h.ratio, lost, found);
    }
  }

  /**
    A success is a captured element that reaches the threshold. When the lost element had all eight
    fields and the threshold is at least 0.55, it has the same role or a similar name; and its score is
    1 exactly when it matches every field the lost element had.
   */
  lemma HealedElementMeaning(h: Healer, target: Signature, elements: seq<Captured>) returns (k: nat)
    requires IsRatio(h.ratio) && HealOutcome(h, target, elements).Success?
    ensures HealedTo(h, target, elements, HealOutcome(h, target, elements).value, k)
    ensures HealOutcome(h, target, elements).value.originalRef == target.ref
    ensures AllPresent(target) && h.minScore >= 0.55 ==>
              var found := elements[k].signature.value;
              || NormalizeText(target.role) == NormalizeText(found.role)
              || StringSimilarity(h.ratio, target.name, found.name, true) >= 1.0 / 3.0
    ensures HealOutcome(h, target, elements).value.score == 1.0 <==>
            FullMatch(target, elements[k].signature.value) && !NothingToCompare(target)
  {
    hide Candidates, Likeness, FullMatch, NothingToCompare, AllPresent, StringSimilarity, NormalizeText,
         IsRatio, StableSort;
    var cs, r := Candidates(h, target, elements), HealOutcome(h, target, elements).value;
    HealMeaning(h, target, elements);
    var i: nat :| Winner(h, cs, i, r);
    CandidateMeaning(h, target, elements, cs[i]);
    k :| 0 <= k < |elements| && elements[k].signature == Some(cs[i].signature) && elements[k].ref == cs[i].ref
         && cs[i].score == Likeness(h, target, cs[i].signature);
    LikenessFacts(h, target, cs[i].signature);
  }

  lemma HealedReaches(h: Healer, target: Signature, elements: seq<Captured>)
    ensures HealOutcome(h, target, elements).Success? ==>
              HealOutcome(h, target, elements).value.score >= h.minScore
  {
    hide Candidates, StableSort;
  }

  /* ---- Order independence ---- */

  lemma DescendingWithout(xs: seq<Candidate>, k: nat)
    requires Descending(xs) && k < |xs|
    ensures Descending(Without(xs, k))
    ensures forall i :: 0 <= i < |xs| - 1 ==> Without(xs, k)[i] == if i < k then xs[i] else xs[i + 1]
  {
  }

  /** Where the last element of one ranking stands in another, only equal scores follow. */
  lemma TailIsFlat(xs: seq<Candidate>, ys: seq<Candidate>, k: nat, i: nat)
    requires multiset(xs) == multiset(ys) && Descending(xs) && Descending(ys)
    requires xs != [] && k <= i < |ys| && ys[k] == xs[|xs| - 1]
    ensures ys[i].score == ys[k].score
  {
    assert ys[i] in multiset(ys);
    var m := PositionOf(xs, ys[i]);
  }

  /** Two rankings of the same candidates have the same scores in the same places. */
  lemma {:induction false} RankingsAgree(xs: seq<Candidate>, ys: seq<Candidate>)
    requires multiset(xs) == multiset(ys) && Descending(xs) && Descending(ys)
    ensures |xs| == |ys| && forall i :: 0 <= i < |xs| ==> xs[i].score == ys[i].score
    decreases |xs|
  {
    SameLength(xs, ys);
    if xs != [] {
      var n := |xs| - 1;
      assert xs[n] in multiset(xs);
      var k := PositionOf(ys, xs[n]);
      var front, rest := Without(xs, n), Without(ys, k);
      assert multiset(front) == multiset(rest) by {
        WithoutMultiset(xs, n);
        WithoutMultiset(ys, k);
      }
      DescendingWithout(xs, n);
      DescendingWithout(ys, k);
      hide Descending, Without;
      RankingsAgree(front, rest);
      forall i | 0 <= i < |xs| ensures xs[i].score == ys[i].score {
        if i < n {
          assert front[i].score == rest[i].score;
          if k <= i {
            TailIsFlat(xs, ys, k, i);
            TailIsFlat(xs, ys, k, i + 1);
          }
        } else {
          TailIsFlat(xs, ys, k, n);
        }
      }
    }
  }

  /** Healing does not depend on the order in which the page lists its elements. */
  lemma HealIsOrderIndependent(h: Healer, target: Signature, xs: seq<Captured>, ys: seq<Captured>)
    requires multiset(xs) == multiset(ys) && h.minMargin > 0.0
    ensures HealOutcome(h, target, xs) == HealOutcome(h, target, ys)
  {
    hide Candidates, StableSort;
    CandidatesPermute(h, target, xs, ys);
    var rx := StableSort(Candidates(h, target, xs));
    var ry := StableSort(Candidates(h, target, ys));
    StableSortSorts(Candidates(h, target, xs));
    StableSortSorts(Candidates(h, target, ys));
    RankingsAgree(rx, ry);
    if Choose(h, target, rx).Success? {
      assert rx[0] in multiset(rx);
      var k := PositionOf(ry, rx[0]);
      assert k == 0;
    }
  }

  ghost predicate OrderIndependent(h: Healer) {
    forall target: Signature, xs: seq<Captured>, ys: seq<Captured> ::
      multiset(xs) == multiset(ys) ==> HealOutcome(h, target, xs) == HealOutcome(h, target, ys)
  }

  /** An element whose only text is its role. */
  const PLAIN := Signature(None, "", "b", "", "", "", "", "", "")

  lemma PlainScoresOne(ratio: (string, string) -> real)
    requires IsRatio(ratio)
    ensures WeightedMean(Fields(ratio, PLAIN, PLAIN)) == 1.0
  {
    assert CollapseSpace("") == "" && CollapseSpace("b") == "b" && Strip("b") == "b" && Strip("") == "";
    var fs := Fields(ratio, PLAIN, PLAIN);
    assert fs[0].present && fs[0].similarity == 1.0;
    assert forall k :: 0 < k < |fs| ==> !fs[k].present;
    FieldsAreProper(ratio, PLAIN, PLAIN);
    ScoreRange(fs);
  }

  lemma TwoElements(h: Healer, target: Signature, a: Captured, b: Captured)
    ensures Candidates(h, target, [a, b]) == CandidateOf(h, target, a) + CandidateOf(h, target, b)
  {
    assert [a, b][..1] == [a] && [a][..0] == [];
    assert Candidates(h, target, [a]) == CandidateOf(h, target, a);
  }

  lemma SortedPair(a: Candidate, b: Candidate)
    requires a.score == b.score
    ensures StableSort([a, b]) == [a, b]
  {
    assert [a, b][..1] == [a] && [a][..0] == [];
    assert StableSort([a]) == [a];
  }

  function Plain(ref: string): Captured {
    Captured(ref, Some(PLAIN))
  }

  /** Of two equally good elements the one listed first is chosen. */
  lemma FirstOfEquals(h: Healer, first: string, second: string)
    requires IsRatio(h.ratio) && h.minMargin <= 0.0 && h.minScore <= 1.0
    ensures var r := HealOutcome(h, PLAIN, [Plain(first), Plain(second)]); r.Success? && r.value.healedRef == first
  {
    PlainScoresOne(h.ratio);
    hide Fields, Reasons, WeightedMean, Candidates, StableSort;
    var reasons := Reasons(Fields(h.ratio, PLAIN, PLAIN));
    var a, b := Candidate(first, 1.0, reasons, PLAIN), Candidate(second, 1.0, reasons, PLAIN);
    TwoElements(h, PLAIN, Plain(first), Plain(second));
    SortedPair(a, b);
    assert [a] + [b] == [a, b];
  }

  /** Without a positive margin the order matters: two equal elements are told apart by position alone. */
  lemma MarginIsNeeded(h: Healer)
    requires IsRatio(h.ratio) && h.minMargin <= 0.0 && h.minScore <= 1.0
    ensures !OrderIndependent(h)
  {
    hide HealOutcome;
    FirstOfEquals(h, "e1", "e2");
    FirstOfEquals(h, "e2", "e1");
    assert multiset([Plain("e1"), Plain("e2")]) == multiset([Plain("e2"), Plain("e1")]);
  }

  lemma {:induction false} ScoresAtMostOne(h: Healer, target: Signature, elements: seq<Captured>)
    requires IsRatio(h.ratio)
    ensures forall c :: c in Candidates(h, target, elements) ==> c.score <= 1.0
  {
    hide Fields, WeightedMean;
    if elements != [] {
      ScoresAtMostOne(h, target, elements[..|elements| - 1]);
      var last := elements[|elements| - 1];
      if last.signature.Some? {
        FieldsAreProper(h.ratio, target, last.signature.value);
        ScoreRange(Fields(h.ratio, target, last.signature.value));
      }
    }
  }

  lemma NothingAccepted(h: Healer, target: Signature, elements: seq<Captured>)
    requires IsRatio(h.ratio) && h.minScore > 1.0
    ensures HealOutcome(h, target, elements) == Failure(NotFound)
  {
    ScoresAtMostOne(h, target, elements);
    HealMeaning(h, target, elements);
  }

  /** Healing is independent of element order exactly when the margin is positive or nothing can ever be accepted. */
  lemma OrderIndependenceExactly(h: Healer)
    requires IsRatio(h.ratio)
    ensures OrderIndependent(h) <==> h.minMargin > 0.0 || h.minScore > 1.0
  {
    hide HealOutcome;
    if h.minMargin > 0.0 || h.minScore > 1.0 {
      forall target: Signature, xs: seq<Captured>, ys: seq<Captured> | multiset(xs) == multiset(ys)
        ensures HealOutcome(h, target, xs) == HealOutcome(h, target, ys)
      {
        if h.minMargin > 0.0 {
          HealIsOrderIndependent(h, target, xs, ys);
        } else {
          NothingAccepted(h, target, xs);
          NothingAccepted(h, target, ys);
        }
      }
    } else {
      MarginIsNeeded(h);
    }
  }

  /* ---- The programs ---- */

  method RankCandidates(h: Healer, target: Signature, elements: seq<Captured>) returns (ranking: seq<Candidate>)
    requires IsRatio(h.ratio)
    ensures ranking == StableSort(Candidates(h, target, elements))
  {
    var candidates := [];
    for k := 0 to |elements|
      invariant candidates == Candidates(h, target, elements[..k])
    {
      assert elements[..k + 1][..k] == elements[..k];
      if elements[k].signature.Some? {
        var score, reasons := ScoreSignatures(h.ratio, target, elements[k].signature.value);
        candidates := candidates + [Candidate(elements[k].ref, score, reasons, elements[k].signature.value)];
      }
    }
    assert elements[..|elements|] == elements;
    ranking := StableSort(candidates);
  }

  method Heal(h: Healer, target: Signature, elements: seq<Captured>) returns (r: Result<HealingResult, HealingError>)
    requires IsRatio(h.ratio)
    ensures r == HealOutcome(h, target, elements)
  {
    hide Candidates, StableSort, WeightedMean, Fields;
    var candidates := RankCandidates(h, target, elements);
    if |candidates| == 0 {
      return Failure(NotFound);
    }
    var best := candidates[0];
    if best.score < h.minScore {
      return Failure(NotFound);
    }
    var secondScore := if |candidates| > 1 then candidates[1].score else 0.0;
    var margin := best.score - secondScore;
    if |candidates| > 1 && margin < h.minMargin {
      return Failure(Ambiguous);
    }
    r := Success(HealingResult(target.ref, best.ref, best.score, margin, |candidates|, best.reasons));
  }
}
