/** The self-healing locator (webpilot/browser/locator.py), with exact real arithmetic for scores. */
module Locator {
  import opened Common

  /* ---- Text ---- */

  /** Every run of white space becomes one blank. */
  function CollapseSpace(s: string): string {
    if s == "" then ""
    else if !IsSpace(s[0]) then [s[0]] + CollapseSpace(s[1..])
    else if |s| > 1 && IsSpace(s[1]) then CollapseSpace(s[1..])
    else " " + CollapseSpace(s[1..])
  }

  function NormalizeText(s: string): string {
    Lower(Strip(CollapseSpace(s)))
  }

  predicate IsKeyChar(c: char) {
    'a' <= c <= 'z' || '0' <= c <= '9'
  }

  function Compact(s: string): string {
    if s == "" then "" else (if IsKeyChar(s[0]) then [s[0]] else "") + Compact(s[1..])
  }

  const AUTHENTICATION_ALIASES := {"login", "logon", "signin", "signon"}
  const LOGOUT_ALIASES := {"logout", "logoff", "signout"}

  function SemanticActionKey(s: string): string {
    var text := NormalizeText(s);
    if Compact(text) in AUTHENTICATION_ALIASES then "__AUTH_LOGIN__"
    else if Compact(text) in LOGOUT_ALIASES then "__AUTH_LOGOUT__"
    else text
  }

  /** An alias key replaces only text that is there. */
  lemma KeyIsBlankWithText(s: string)
    ensures SemanticActionKey(s) == "" <==> NormalizeText(s) == ""
  {
    assert Compact("") == "";
  }

  /* ---- Text, in words ---- */

  /** Compacting keeps the letters and digits, in order, and nothing else. */
  lemma {:induction false} CompactJoins(s: string, t: string)
    ensures Compact(s + t) == Compact(s) + Compact(t)
  {
    if s == "" {
      assert s + t == t;
    } else {
      var head := if IsKeyChar(s[0]) then [s[0]] else "";
      CompactJoins(s[1..], t);
      assert (s + t)[1..] == s[1..] + t;
      assert Compact(s + t) == head + (Compact(s[1..]) + Compact(t));
    }
  }

  lemma CompactChar(c: char)
    ensures Compact([c]) == if 'a' <= c <= 'z' || '0' <= c <= '9' then [c] else ""
  {
    assert [c][1..] == "";
  }

  /** Everything but blanks, in order. */
  function Solid(s: string): string {
    if s == "" then ""
    else (if s[0] == ' ' || s[0] == '\t' || s[0] == '\n' || s[0] == '\r' then "" else [s[0]]) + Solid(s[1..])
  }

  lemma {:induction false} SolidJoins(s: string, t: string)
    ensures Solid(s + t) == Solid(s) + Solid(t)
  {
    if s == "" {
      assert s + t == t;
    } else {
      assert (s + t)[1..] == s[1..] + t;
      SolidJoins(s[1..], t);
    }
  }

  lemma {:induction false} SolidOfBlank(s: string)
    requires Blank(s)
    ensures Solid(s) == ""
  {
    if s != "" {
      SolidOfBlank(s[1..]);
    }
  }

  /** The only white space is single blanks. */
  predicate SingleBlanks(s: string) {
    && (forall i :: 0 <= i < |s| ==> s[i] != '\t' && s[i] != '\n' && s[i] != '\r')
    && (forall i :: 0 <= i < |s| - 1 ==> s[i] != ' ' || s[i + 1] != ' ')
  }

  lemma {:induction false} CollapseKeeps(s: string)
    ensures Solid(CollapseSpace(s)) == Solid(s)
    ensures SingleBlanks(CollapseSpace(s))
    ensures CollapseSpace(s) == "" <==> s == ""
    ensures s != "" ==> (CollapseSpace(s)[0] == ' ' <==> IsSpace(s[0]))
  {
    if s != "" {
      CollapseKeeps(s[1..]);
      var rest := CollapseSpace(s[1..]);
      if !IsSpace(s[0]) {
        assert CollapseSpace(s) == [s[0]] + rest;
        assert ([s[0]] + rest)[1..] == rest;
      } else if |s| == 1 || !IsSpace(s[1]) {
        assert CollapseSpace(s) == [' '] + rest;
        assert ([' '] + rest)[1..] == rest;
      }
    }
  }

  lemma LowerHead(c: char, s: string)
    ensures Lower([c] + s) == [LowerChar(c)] + Lower(s)
  {
  }

  lemma SolidHead(c: char, s: string)
    ensures Solid([c] + s) == (if IsSpace(c) then "" else [c]) + Solid(s)
  {
    assert ([c] + s)[1..] == s;
  }

  lemma {:induction false} SolidLower(s: string)
    ensures Solid(Lower(s)) == Lower(Solid(s))
  {
    hide Lower;
    if s == "" {
      LowerMeaning(s);
    } else {
      SolidLower(s[1..]);
      LowerHead(s[0], s[1..]);
      LowerHead(s[0], Solid(s[1..]));
      SolidHead(s[0], s[1..]);
      SolidHead(LowerChar(s[0]), Lower(s[1..]));
      assert s == [s[0]] + s[1..];
      assert Solid(s) == if IsSpace(s[0]) then Solid(s[1..]) else [s[0]] + Solid(s[1..]);
      assert Solid(Lower(s)) ==
             if IsSpace(s[0]) then Solid(Lower(s[1..])) else [LowerChar(s[0])] + Solid(Lower(s[1..]));
    }
  }

  lemma SolidStrip(s: string)
    ensures Solid(Strip(s)) == Solid(s)
  {
    StripMeaning(s);
    var a, b :| Blank(a) && Blank(b) && s == a + Strip(s) + b;
    SolidJoins(a + Strip(s), b);
    SolidJoins(a, Strip(s));
    SolidOfBlank(a);
    SolidOfBlank(b);
  }

  /** Normalising keeps what is not blank, in lower case and in order. */
  lemma NormalizeKeeps(s: string)
    ensures SameLetters(Solid(s), Solid(NormalizeText(s)))
  {
    CollapseKeeps(s);
    SolidStrip(CollapseSpace(s));
    SolidLower(Strip(CollapseSpace(s)));
    LowerMeaning(Solid(s));
  }

  lemma {:induction false} CollapsedAlready(s: string)
    requires SingleBlanks(s)
    ensures CollapseSpace(s) == s
  {
    if s != "" {
      CollapsedAlready(s[1..]);
      assert s == [s[0]] + s[1..];
    }
  }

  /** Text that is in lower case, with single blanks and none at the ends, is normal already. */
  lemma NormalAlready(s: string)
    requires SingleBlanks(s) && (s != "" ==> s[0] != ' ' && s[|s| - 1] != ' ')
    requires forall i :: 0 <= i < |s| ==> !('A' <= s[i] <= 'Z')
    ensures NormalizeText(s) == s
  {
    CollapsedAlready(s);
    assert SameLetters(s, s);
    LowerIsOnly(s, s);
  }

  /** The words for one action. */
  predicate IsLoginWord(s: string) {
    s == "login" || s == "logon" || s == "signin" || s == "signon"
  }

  predicate IsLogoutWord(s: string) {
    s == "logout" || s == "logoff" || s == "signout"
  }

  lemma AliasSets(s: string)
    ensures s in AUTHENTICATION_ALIASES <==> IsLoginWord(s)
    ensures s in LOGOUT_ALIASES <==> IsLogoutWord(s)
    ensures !(IsLoginWord(s) && IsLogoutWord(s))
  {
  }

  lemma NeverUpper(s: string)
    ensures forall i :: 0 <= i < |NormalizeText(s)| ==> !('A' <= NormalizeText(s)[i] <= 'Z')
  {
    LowerMeaning(Strip(CollapseSpace(s)));
  }

  /** Two texts have the same key when they are the same, or both say "log in", or both say "log out". */
  lemma KeyMeaning(s: string, t: string)
    ensures SemanticActionKey(s) == SemanticActionKey(t) <==>
            || NormalizeText(s) == NormalizeText(t)
            || (IsLoginWord(Compact(NormalizeText(s))) && IsLoginWord(Compact(NormalizeText(t))))
            || (IsLogoutWord(Compact(NormalizeText(s))) && IsLogoutWord(Compact(NormalizeText(t))))
  {
    NeverUpper(s);
    NeverUpper(t);
    hide NormalizeText, Compact;
    AliasSets(Compact(NormalizeText(s)));
    AliasSets(Compact(NormalizeText(t)));
    assert "__AUTH_LOGIN__"[2] == 'A' && "__AUTH_LOGOUT__"[2] == 'A';
    assert |"__AUTH_LOGIN__"| != |"__AUTH_LOGOUT__"|;
  }

  /* ---- Similarity ---- */

  /** A match ratio of two strings: between 0 and 1, and 1 only on equal strings. */
  ghost predicate IsRatio(ratio: (string, string) -> real) {
    forall a, b :: 0.0 <= ratio(a, b) <= 1.0 && (ratio(a, b) == 1.0 <==> a == b)
  }

  function KeyOf(s: string, semantic: bool): string {
    if semantic then SemanticActionKey(s) else NormalizeText(s)
  }

  function StringSimilarity(ratio: (string, string) -> real, left: string, right: string, semantic: bool): real {
    var l, r := KeyOf(left, semantic), KeyOf(right, semantic);
    if l == "" || r == "" then 0.0
    else if l == r then 1.0
    else ratio(l, r)
  }

  lemma SimilarityMeaning(ratio: (string, string) -> real, left: string, right: string, semantic: bool)
    requires IsRatio(ratio)
    ensures 0.0 <= StringSimilarity(ratio, left, right, semantic) <= 1.0
    ensures StringSimilarity(ratio, left, right, semantic) == 1.0 <==>
            KeyOf(left, semantic) == KeyOf(right, semantic) && NormalizeText(left) != ""
    ensures StringSimilarity(ratio, left, right, semantic) ==
            if NormalizeText(left) == "" || NormalizeText(right) == "" then 0.0
            else ratio(KeyOf(left, semantic), KeyOf(right, semantic))
  {
    KeyIsBlankWithText(right);
    KeyIsBlankWithText(left);
    assert 0.0 <= ratio(KeyOf(left, semantic), KeyOf(right, semantic)) <= 1.0;
  }

  /* ---- Scores ---- */

  datatype Signature = Signature(
    ref: Option<string>,
    tag: string,
    role: string,
    name: string,
    text: string,
    placeholder: string,
    caption: string,
    dataTestid: string,
    structure: string)

  /** One comparison: its weight, whether the old element had the field, and how well the new one matches. */
  datatype Field = Field(name: string, weight: real, present: bool, similarity: real)

  datatype Reason = Reason(field: string, similarity: real)

  function ExactMatch(left: string, right: string): real {
    if NormalizeText(left) == NormalizeText(right) then 1.0 else 0.0
  }

  /** The eight comparisons in the order they are made; `caption` is the element's label. */
  function Fields(ratio: (string, string) -> real, old_: Signature, new_: Signature): (fs: seq<Field>)
    ensures |fs| == 8
  {
    [Field("role", 0.25, NormalizeText(old_.role) != "", ExactMatch(old_.role, new_.role)),
     Field("name", 0.30, NormalizeText(old_.name) != "", StringSimilarity(ratio, old_.name, new_.name, true)),
     Field("label", 0.10, NormalizeText(old_.caption) != "", StringSimilarity(ratio, old_.caption, new_.caption, true)),
     Field("placeholder", 0.10, NormalizeText(old_.placeholder) != "",
           StringSimilarity(ratio, old_.placeholder, new_.placeholder, false)),
     Field("text", 0.10, NormalizeText(old_.text) != "", StringSimilarity(ratio, old_.text, new_.text, true)),
     Field("data_testid", 0.05, NormalizeText(old_.dataTestid) != "", ExactMatch(old_.dataTestid, new_.dataTestid)),
     Field("structure", 0.05, NormalizeText(old_.structure) != "",
           StringSimilarity(ratio, old_.structure, new_.structure, false)),
     Field("tag", 0.05, NormalizeText(old_.tag) != "", ExactMatch(old_.tag, new_.tag))]
  }

  function AvailableWeight(fs: seq<Field>): real {
    if fs == [] then 0.0
    else AvailableWeight(fs[..|fs| - 1]) + if fs[|fs| - 1].present then fs[|fs| - 1].weight else 0.0
  }

  /** What a field adds to the raw score. */
  function Term(f: Field): real {
    if f.present then f.weight * f.similarity else 0.0
  }

  function RawScore(fs: seq<Field>): real {
    if fs == [] then 0.0 else RawScore(fs[..|fs| - 1]) + Term(fs[|fs| - 1])
  }

  function Reasons(fs: seq<Field>): seq<Reason> {
    if fs == [] then []
    else
      var last := fs[|fs| - 1];
      Reasons(fs[..|fs| - 1]) +
      if last.present && last.similarity > 0.0 then [Reason(last.name, last.similarity)] else []
  }

  /** The weighted mean of the similarities of the fields the old element had. */
  function WeightedMean(fs: seq<Field>): real {
    if AvailableWeight(fs) <= 0.0 then 0.0 else RawScore(fs) / AvailableWeight(fs)
  }

  /** Field lists as `Fields` makes them. */
  ghost predicate Proper(fs: seq<Field>) {
    forall k :: 0 <= k < |fs| ==> fs[k].weight > 0.0 && 0.0 <= fs[k].similarity <= 1.0
  }

  lemma FieldsAreProper(ratio: (string, string) -> real, old_: Signature, new_: Signature)
    requires IsRatio(ratio)
    ensures Proper(Fields(ratio, old_, new_))
  {
    hide NormalizeText, StringSimilarity;
    SimilarityMeaning(ratio, old_.name, new_.name, true);
    SimilarityMeaning(ratio, old_.caption, new_.caption, true);
    SimilarityMeaning(ratio, old_.placeholder, new_.placeholder, false);
    SimilarityMeaning(ratio, old_.text, new_.text, true);
    SimilarityMeaning(ratio, old_.structure, new_.structure, false);
  }

  ghost predicate FullyMatched(fs: seq<Field>) {
    forall k :: 0 <= k < |fs| && fs[k].present ==> fs[k].similarity == 1.0
  }

  ghost predicate NonePresent(fs: seq<Field>) {
    forall k :: 0 <= k < |fs| ==> !fs[k].present
  }

  lemma TermBounds(f: Field)
    requires f.weight > 0.0 && 0.0 <= f.similarity <= 1.0
    ensures !f.present ==> Term(f) == 0.0
    ensures f.present ==> 0.0 <= Term(f) <= f.weight && (Term(f) == f.weight <==> f.similarity == 1.0)
  {
    if f.present {
      var gap := f.weight * (1.0 - f.similarity);
      assert gap == f.weight - Term(f) && gap >= 0.0;
      if gap == 0.0 {
        assert f.similarity == 1.0;
      }
    }
  }

  lemma {:induction false} RawScoreBounds(fs: seq<Field>)
    requires Proper(fs)
    ensures 0.0 <= RawScore(fs) <= AvailableWeight(fs)
  {
    hide Term;
    if fs != [] {
      assert forall k :: 0 <= k < |fs| - 1 ==> fs[..|fs| - 1][k] == fs[k];
      RawScoreBounds(fs[..|fs| - 1]);
      TermBounds(fs[|fs| - 1]);
    }
  }

  lemma FullyMatchedSnoc(fs: seq<Field>)
    requires fs != []
    ensures var front, last := fs[..|fs| - 1], fs[|fs| - 1];
            FullyMatched(fs) <==> FullyMatched(front) && (last.present ==> last.similarity == 1.0)
  {
    var front := fs[..|fs| - 1];
    assert forall k :: 0 <= k < |front| ==> front[k] == fs[k];
  }

  lemma NothingToMatch()
    ensures FullyMatched([])
  {
  }

  lemma {:induction false} FullScore(fs: seq<Field>)
    requires Proper(fs)
    ensures RawScore(fs) == AvailableWeight(fs) <==> FullyMatched(fs)
  {
    hide FullyMatched, Term;
    if fs != [] {
      var front, last := fs[..|fs| - 1], fs[|fs| - 1];
      assert Proper(front);
      FullyMatchedSnoc(fs);
      FullScore(front);
      RawScoreBounds(front);
      TermBounds(last);
    } else {
      NothingToMatch();
    }
  }

  lemma {:induction false} NoWeight(fs: seq<Field>)
    requires Proper(fs)
    ensures AvailableWeight(fs) >= 0.0 && (AvailableWeight(fs) == 0.0 <==> NonePresent(fs))
  {
    if fs != [] {
      var front, last := fs[..|fs| - 1], fs[|fs| - 1];
      assert forall k :: 0 <= k < |front| ==> front[k] == fs[k];
      assert NonePresent(fs) <==> NonePresent(front) && !last.present;
      NoWeight(front);
    }
  }

  lemma QuotientBounds(x: real, y: real)
    requires 0.0 <= x <= y && y > 0.0
    ensures 0.0 <= x / y <= 1.0 && (x / y == 1.0 <==> x == y)
  {
    var q := x / y;
    assert q * y == x;
  }

  /** The score needs no clamp, and is 1 exactly when something was there to match and all of it matches fully. */
  lemma ScoreRange(fs: seq<Field>)
    requires Proper(fs)
    ensures 0.0 <= WeightedMean(fs) <= 1.0
    ensures WeightedMean(fs) == 1.0 <==> !NonePresent(fs) && FullyMatched(fs)
  {
    RawScoreBounds(fs);
    FullScore(fs);
    NoWeight(fs);
    if AvailableWeight(fs) > 0.0 {
      QuotientBounds(RawScore(fs), AvailableWeight(fs));
    }
  }

  /** Two candidates compared with the same old element. */
  ghost predicate SameFields(fs: seq<Field>, gs: seq<Field>) {
    |fs| == |gs| && forall k :: 0 <= k < |fs| ==> gs[k].weight == fs[k].weight && gs[k].present == fs[k].present
  }

  lemma TermMonotone(f: Field, g: Field)
    requires f.weight == g.weight > 0.0 && f.present == g.present && (f.present ==> f.similarity <= g.similarity)
    ensures Term(f) <= Term(g)
  {
    if f.present {
      assert f.weight * (g.similarity - f.similarity) >= 0.0;
    }
  }

  lemma {:induction false} RawScoreMonotone(fs: seq<Field>, gs: seq<Field>)
    requires Proper(fs) && Proper(gs) && SameFields(fs, gs)
    requires forall k :: 0 <= k < |fs| && fs[k].present ==> fs[k].similarity <= gs[k].similarity
    ensures RawScore(fs) <= RawScore(gs) && AvailableWeight(fs) == AvailableWeight(gs)
  {
    hide Term;
    if fs != [] {
      var f, g := fs[|fs| - 1], gs[|gs| - 1];
      assert forall k :: 0 <= k < |fs| - 1 ==> fs[..|fs| - 1][k] == fs[k] && gs[..|gs| - 1][k] == gs[k];
      RawScoreMonotone(fs[..|fs| - 1], gs[..|gs| - 1]);
      TermMonotone(f, g);
    }
  }

  lemma NonNegativeQuotient(x: real, y: real)
    requires 0.0 <= x && y > 0.0
    ensures 0.0 <= x / y
  {
  }

  lemma QuotientMonotone(x: real, x': real, y: real)
    requires x <= x' && y > 0.0
    ensures x / y <= x' / y
  {
    assert x' / y - x / y == (x' - x) / y;
    NonNegativeQuotient(x' - x, y);
  }

  /** A candidate that matches every field of the old element at least as well scores at least as high. */
  lemma ScoreMonotone(fs: seq<Field>, gs: seq<Field>)
    requires Proper(fs) && Proper(gs) && SameFields(fs, gs)
    requires forall k :: 0 <= k < |fs| && fs[k].present ==> fs[k].similarity <= gs[k].similarity
    ensures WeightedMean(fs) <= WeightedMean(gs)
  {
    RawScoreMonotone(fs, gs);
    if AvailableWeight(fs) > 0.0 {
      QuotientMonotone(RawScore(fs), RawScore(gs), AvailableWeight(fs));
    }
  }

  /** Fields the old element did not have play no part. */
  lemma AbsentFieldsIgnored(fs: seq<Field>, gs: seq<Field>)
    requires Proper(fs) && Proper(gs) && SameFields(fs, gs)
    requires forall k :: 0 <= k < |fs| && fs[k].present ==> fs[k].similarity == gs[k].similarity
    ensures WeightedMean(fs) == WeightedMean(gs)
  {
    ScoreMonotone(fs, gs);
    ScoreMonotone(gs, fs);
  }

  lemma FoldStep(fs: seq<Field>, k: nat)
    requires k < |fs|
    ensures var f := fs[k];
            && AvailableWeight(fs[..k + 1]) == AvailableWeight(fs[..k]) + (if f.present then f.weight else 0.0)
            && RawScore(fs[..k + 1]) == RawScore(fs[..k]) + Term(f)
            && Reasons(fs[..k + 1]) == Reasons(fs[..k]) +
               if f.present && f.similarity > 0.0 then [Reason(f.name, f.similarity)] else []
  {
    hide Term;
    assert fs[..k + 1][..k] == fs[..k];
  }

  lemma NothingWeighed()
    ensures AvailableWeight([]) == 0.0 && RawScore([]) == 0.0 && Reasons([]) == []
  {
  }

  /** What a field adds to the weight available. */
  function Share(f: Field): real {
    if f.present then f.weight else 0.0
  }

  lemma FourFields(fs: seq<Field>)
    requires |fs| == 8
    ensures AvailableWeight(fs[..4]) == Share(fs[0]) + Share(fs[1]) + Share(fs[2]) + Share(fs[3])
    ensures RawScore(fs[..4]) == Term(fs[0]) + Term(fs[1]) + Term(fs[2]) + Term(fs[3])
  {
    hide Term, AvailableWeight, RawScore, Reasons;
    assert fs[..0] == [];
    NothingWeighed();
    FoldStep(fs, 0);
    FoldStep(fs, 1);
    FoldStep(fs, 2);
    FoldStep(fs, 3);
  }

  lemma EightFields(fs: seq<Field>)
    requires |fs| == 8
    ensures AvailableWeight(fs) == Share(fs[0]) + Share(fs[1]) + Share(fs[2]) + Share(fs[3])
                                   + Share(fs[4]) + Share(fs[5]) + Share(fs[6]) + Share(fs[7])
    ensures RawScore(fs) == Term(fs[0]) + Term(fs[1]) + Term(fs[2]) + Term(fs[3])
                            + Term(fs[4]) + Term(fs[5]) + Term(fs[6]) + Term(fs[7])
  {
    hide Term, AvailableWeight, RawScore, Reasons;
    assert fs[..8] == fs;
    FourFields(fs);
    FoldStep(fs, 4);
    FoldStep(fs, 5);
    FoldStep(fs, 6);
    FoldStep(fs, 7);
  }

  /** The weight of a field that the lost element has, and nothing for one that it lacks. */
  function Part(lost: string, weight: real): real {
    if NormalizeText(lost) != "" then weight else 0.0
  }

  function Same(lost: string, found: string): real {
    if NormalizeText(lost) == NormalizeText(found) then 1.0 else 0.0
  }

  lemma FieldShares(ratio: (string, string) -> real, lost: Signature, found: Signature)
    ensures var fs := Fields(ratio, lost, found);
            && Share(fs[0]) == Part(lost.role, 0.25) && Share(fs[1]) == Part(lost.name, 0.30)
            && Share(fs[2]) == Part(lost.caption, 0.10) && Share(fs[3]) == Part(lost.placeholder, 0.10)
            && Share(fs[4]) == Part(lost.text, 0.10) && Share(fs[5]) == Part(lost.dataTestid, 0.05)
            && Share(fs[6]) == Part(lost.structure, 0.05) && Share(fs[7]) == Part(lost.tag, 0.05)
  {
    hide NormalizeText, StringSimilarity, ExactMatch;
  }

  lemma FieldTerms(ratio: (string, string) -> real, lost: Signature, found: Signature)
    ensures var fs := Fields(ratio, lost, found);
            && Term(fs[0]) == Part(lost.role, 0.25) * Same(lost.role, found.role)
            && Term(fs[1]) == Part(lost.name, 0.30) * StringSimilarity(ratio, lost.name, found.name, true)
            && Term(fs[2]) == Part(lost.caption, 0.10) * StringSimilarity(ratio, lost.caption, found.caption, true)
            && Term(fs[3]) ==
               Part(lost.placeholder, 0.10) * StringSimilarity(ratio, lost.placeholder, found.placeholder, false)
            && Term(fs[4]) == Part(lost.text, 0.10) * StringSimilarity(ratio, lost.text, found.text, true)
            && Term(fs[5]) == Part(lost.dataTestid, 0.05) * Same(lost.dataTestid, found.dataTestid)
            && Term(fs[6]) ==
               Part(lost.structure, 0.05) * StringSimilarity(ratio, lost.structure, found.structure, false)
            && Term(fs[7]) == Part(lost.tag, 0.05) * Same(lost.tag, found.tag)
  {
    hide NormalizeText, StringSimilarity;
  }

  /** Fields that only the found elements differ in have no weight. */
  lemma SameTerms(ratio: (string, string) -> real, lost: Signature, found: Signature, other: Signature)
    requires NormalizeText(lost.role) != "" ==> other.role == found.role
    requires NormalizeText(lost.name) != "" ==> other.name == found.name
    requires NormalizeText(lost.caption) != "" ==> other.caption == found.caption
    requires NormalizeText(lost.placeholder) != "" ==> other.placeholder == found.placeholder
    requires NormalizeText(lost.text) != "" ==> other.text == found.text
    requires NormalizeText(lost.dataTestid) != "" ==> other.dataTestid == found.dataTestid
    requires NormalizeText(lost.structure) != "" ==> other.structure == found.structure
    requires NormalizeText(lost.tag) != "" ==> other.tag == found.tag
    ensures var fs, gs := Fields(ratio, lost, found), Fields(ratio, lost, other);
            forall k :: 0 <= k < 8 ==> Term(fs[k]) == Term(gs[k]) && Share(fs[k]) == Share(gs[k])
  {
    hide NormalizeText, StringSimilarity, ExactMatch;
  }

  /**
    The score, written out: the lost element's fields are weighed, and each counts as far as the found
    element's field of the same kind is like it.
   */
  lemma ScoreMeaning(ratio: (string, string) -> real, lost: Signature, found: Signature)
    ensures var total := Part(lost.role, 0.25) + Part(lost.name, 0.30) + Part(lost.caption, 0.10)
                         + Part(lost.placeholder, 0.10) + Part(lost.text, 0.10) + Part(lost.dataTestid, 0.05)
                         + Part(lost.structure, 0.05) + Part(lost.tag, 0.05);
            var matched := Part(lost.role, 0.25) * Same(lost.role, found.role)
                           + Part(lost.name, 0.30) * StringSimilarity(ratio, lost.name, found.name, true)
                           + Part(lost.caption, 0.10) * StringSimilarity(ratio, lost.caption, found.caption, true)
                           + Part(lost.placeholder, 0.10)
                             * StringSimilarity(ratio, lost.placeholder, found.placeholder, false)
                           + Part(lost.text, 0.10) * StringSimilarity(ratio, lost.text, found.text, true)
                           + Part(lost.dataTestid, 0.05) * Same(lost.dataTestid, found.dataTestid)
                           + Part(lost.structure, 0.05)
                             * StringSimilarity(ratio, lost.structure, found.structure, false)
                           + Part(lost.tag, 0.05) * Same(lost.tag, found.tag);
            && AvailableWeight(Fields(ratio, lost, found)) == total
            && RawScore(Fields(ratio, lost, found)) == matched
            && WeightedMean(Fields(ratio, lost, found)) == if total <= 0.0 then 0.0 else matched / total
  {
    hide NormalizeText, StringSimilarity, AvailableWeight, RawScore, Fields, Term, Share, Part, Same;
    EightFields(Fields(ratio, lost, found));
    FieldShares(ratio, lost, found);
    FieldTerms(ratio, lost, found);
  }

  /** Every field the lost element has is fully matched; names, labels and texts match by their keys. */
  predicate FullMatch(lost: Signature, found: Signature) {
    && (NormalizeText(lost.role) != "" ==> NormalizeText(lost.role) == NormalizeText(found.role))
    && (NormalizeText(lost.name) != "" ==> SemanticActionKey(lost.name) == SemanticActionKey(found.name))
    && (NormalizeText(lost.caption) != "" ==> SemanticActionKey(lost.caption) == SemanticActionKey(found.caption))
    && (NormalizeText(lost.placeholder) != "" ==> NormalizeText(lost.placeholder) == NormalizeText(found.placeholder))
    && (NormalizeText(lost.text) != "" ==> SemanticActionKey(lost.text) == SemanticActionKey(found.text))
    && (NormalizeText(lost.dataTestid) != "" ==> NormalizeText(lost.dataTestid) == NormalizeText(found.dataTestid))
    && (NormalizeText(lost.structure) != "" ==> NormalizeText(lost.structure) == NormalizeText(found.structure))
    && (NormalizeText(lost.tag) != "" ==> NormalizeText(lost.tag) == NormalizeText(found.tag))
  }

  predicate NothingToCompare(s: Signature) {
    && NormalizeText(s.role) == "" && NormalizeText(s.name) == "" && NormalizeText(s.caption) == ""
    && NormalizeText(s.placeholder) == "" && NormalizeText(s.text) == "" && NormalizeText(s.dataTestid) == ""
    && NormalizeText(s.structure) == "" && NormalizeText(s.tag) == ""
  }

  lemma ByIndex(fs: seq<Field>)
    requires |fs| == 8
    ensures FullyMatched(fs) <==>
            && (fs[0].present ==> fs[0].similarity == 1.0) && (fs[1].present ==> fs[1].similarity == 1.0)
            && (fs[2].present ==> fs[2].similarity == 1.0) && (fs[3].present ==> fs[3].similarity == 1.0)
            && (fs[4].present ==> fs[4].similarity == 1.0) && (fs[5].present ==> fs[5].similarity == 1.0)
            && (fs[6].present ==> fs[6].similarity == 1.0) && (fs[7].present ==> fs[7].similarity == 1.0)
    ensures NonePresent(fs) <==>
            && !fs[0].present && !fs[1].present && !fs[2].present && !fs[3].present
            && !fs[4].present && !fs[5].present && !fs[6].present && !fs[7].present
  {
  }

  lemma SimilarityOne(ratio: (string, string) -> real, lost: Signature, found: Signature)
    requires IsRatio(ratio)
    ensures var fs := Fields(ratio, lost, found);
            && (FullyMatched(fs) <==> FullMatch(lost, found)) && (NonePresent(fs) <==> NothingToCompare(lost))
  {
    hide NormalizeText, StringSimilarity, SemanticActionKey, IsRatio;
    SimilarityMeaning(ratio, lost.name, found.name, true);
    SimilarityMeaning(ratio, lost.caption, found.caption, true);
    SimilarityMeaning(ratio, lost.placeholder, found.placeholder, false);
    SimilarityMeaning(ratio, lost.text, found.text, true);
    SimilarityMeaning(ratio, lost.structure, found.structure, false);
    ByIndex(Fields(ratio, lost, found));
  }

  /** A score of 1 is a full match of everything there was to match. */
  lemma FullScoreMeaning(ratio: (string, string) -> real, lost: Signature, found: Signature)
    requires IsRatio(ratio)
    ensures WeightedMean(Fields(ratio, lost, found)) == 1.0 <==> FullMatch(lost, found) && !NothingToCompare(lost)
  {
    hide Fields, WeightedMean, FullMatch, NothingToCompare, FullyMatched, NonePresent, IsRatio;
    FieldsAreProper(ratio, lost, found);
    ScoreRange(Fields(ratio, lost, found));
    SimilarityOne(ratio, lost, found);
  }

  /** What the lost element did not have cannot help or harm: only its own fields are compared. */
  lemma NewFieldsPlayNoPart(ratio: (string, string) -> real, lost: Signature, found: Signature, other: Signature)
    requires NormalizeText(lost.role) != "" ==> other.role == found.role
    requires NormalizeText(lost.name) != "" ==> other.name == found.name
    requires NormalizeText(lost.caption) != "" ==> other.caption == found.caption
    requires NormalizeText(lost.placeholder) != "" ==> other.placeholder == found.placeholder
    requires NormalizeText(lost.text) != "" ==> other.text == found.text
    requires NormalizeText(lost.dataTestid) != "" ==> other.dataTestid == found.dataTestid
    requires NormalizeText(lost.structure) != "" ==> other.structure == found.structure
    requires NormalizeText(lost.tag) != "" ==> other.tag == found.tag
    ensures WeightedMean(Fields(ratio, lost, found)) == WeightedMean(Fields(ratio, lost, other))
  {
    hide NormalizeText, StringSimilarity, AvailableWeight, RawScore, ExactMatch, Fields;
    EightFields(Fields(ratio, lost, found));
    EightFields(Fields(ratio, lost, other));
    SameTerms(ratio, lost, found, other);
  }

  lemma RawOfQuotient(raw: real, available: real)
    requires available == 1.0
    ensures raw / available == raw
  {
  }

  lemma AcceptedFields(fs: seq<Field>)
    requires |fs| == 8 && Proper(fs) && forall k :: 0 <= k < 8 ==> fs[k].present
    requires fs[0].weight == 0.25 && fs[1].weight == 0.30 && fs[2].weight == 0.10 && fs[3].weight == 0.10
    requires fs[4].weight == 0.10 && fs[5].weight == 0.05 && fs[6].weight == 0.05 && fs[7].weight == 0.05
    requires WeightedMean(fs) >= 0.55
    ensures fs[0].similarity == 0.0 ==> fs[1].similarity >= 1.0 / 3.0
  {
    EightFields(fs);
    assert forall k :: 0 <= k < 8 ==> Share(fs[k]) == fs[k].weight;
    RawOfQuotient(RawScore(fs), AvailableWeight(fs));
    if fs[0].similarity == 0.0 {
      assert Term(fs[0]) == 0.0;
      assert Term(fs[1]) == 0.30 * fs[1].similarity;
      hide Term;
      TermBounds(fs[2]);
      TermBounds(fs[3]);
      TermBounds(fs[4]);
      TermBounds(fs[5]);
      TermBounds(fs[6]);
      TermBounds(fs[7]);
    }
  }

  /** Every field that is compared is there on the old element. */
  predicate AllPresent(s: Signature) {
    && NormalizeText(s.role) != "" && NormalizeText(s.name) != "" && NormalizeText(s.caption) != ""
    && NormalizeText(s.placeholder) != "" && NormalizeText(s.text) != "" && NormalizeText(s.dataTestid) != ""
    && NormalizeText(s.structure) != "" && NormalizeText(s.tag) != ""
  }

  /** What the threshold needs to know of the fields. */
  lemma FieldWeights(ratio: (string, string) -> real, old_: Signature, new_: Signature)
    ensures var fs := Fields(ratio, old_, new_);
            && |fs| == 8
            && fs[0].weight == 0.25 && fs[1].weight == 0.30 && fs[2].weight == 0.10 && fs[3].weight == 0.10
            && fs[4].weight == 0.10 && fs[5].weight == 0.05 && fs[6].weight == 0.05 && fs[7].weight == 0.05
            && fs[0].similarity == ExactMatch(old_.role, new_.role)
            && fs[1].similarity == StringSimilarity(ratio, old_.name, new_.name, true)
            && (AllPresent(old_) ==> forall k :: 0 <= k < 8 ==> fs[k].present)
  {
    hide NormalizeText, StringSimilarity, ExactMatch;
  }

  /**
    With all eight fields present and the default threshold 0.55, an accepted candidate has the same role
    or a similar name.
   */
  lemma AcceptedMatchesRoleOrName(ratio: (string, string) -> real, old_: Signature, new_: Signature)
    requires IsRatio(ratio) && AllPresent(old_)
    requires WeightedMean(Fields(ratio, old_, new_)) >= 0.55
    ensures NormalizeText(old_.role) == NormalizeText(new_.role)
            || StringSimilarity(ratio, old_.name, new_.name, true) >= 1.0 / 3.0
  {
    hide NormalizeText, StringSimilarity, Fields, WeightedMean, Proper, AllPresent, IsRatio;
    FieldsAreProper(ratio, old_, new_);
    FieldWeights(ratio, old_, new_);
    AcceptedFields(Fields(ratio, old_, new_));
  }

  /** One block of the scoring code: a field the old element lacks changes nothing. */
  method Accumulate(ghost fs: seq<Field>, ghost k: nat, raw: real, available: real, reasons: seq<Reason>,
                    name: string, weight: real, oldText: string, similarity: real)
    returns (raw': real, available': real, reasons': seq<Reason>)
    requires k < |fs| && fs[k] == Field(name, weight, NormalizeText(oldText) != "", similarity)
    requires raw == RawScore(fs[..k]) && available == AvailableWeight(fs[..k]) && reasons == Reasons(fs[..k])
    ensures raw' == RawScore(fs[..k + 1]) && available' == AvailableWeight(fs[..k + 1])
              && reasons' == Reasons(fs[..k + 1])
  {
    FoldStep(fs, k);
    raw', available', reasons' := raw, available, reasons;
    if NormalizeText(oldText) != "" {
      available' := available + weight;
      raw' := raw + weight * similarity;
      if similarity > 0.0 {
        reasons' := reasons + [Reason(name, similarity)];
      }
    }
  }

  /** The final division, clamp included. */
  method Average(ghost fs: seq<Field>, raw: real, available: real) returns (score: real)
    requires Proper(fs) && raw == RawScore(fs) && available == AvailableWeight(fs)
    ensures score == WeightedMean(fs)
  {
    if available <= 0.0 {
      return 0.0;
    }
    score := raw / available;
    ScoreRange(fs);
    score := if score < 0.0 then 0.0 else score;
    score := if score > 1.0 then 1.0 else score;
  }

  /** The first four blocks: role, name, label and placeholder. */
  method ScoreIdentity(ratio: (string, string) -> real, old_: Signature, new_: Signature)
    returns (raw: real, available: real, reasons: seq<Reason>)
    ensures var fs := Fields(ratio, old_, new_);
            raw == RawScore(fs[..4]) && available == AvailableWeight(fs[..4]) && reasons == Reasons(fs[..4])
  {
    hide NormalizeText, ExactMatch, StringSimilarity, RawScore, AvailableWeight, Reasons, Term;
    ghost var fs := Fields(ratio, old_, new_);
    NothingWeighed();
    assert fs[..0] == [];
    raw, available, reasons := Accumulate(fs, 0, 0.0, 0.0, [], "role", 0.25, old_.role,
                                          ExactMatch(old_.role, new_.role));
    raw, available, reasons := Accumulate(fs, 1, raw, available, reasons, "name", 0.30, old_.name,
                                          StringSimilarity(ratio, old_.name, new_.name, true));
    raw, available, reasons := Accumulate(fs, 2, raw, available, reasons, "label", 0.10, old_.caption,
                                          StringSimilarity(ratio, old_.caption, new_.caption, true));
    raw, available, reasons := Accumulate(fs, 3, raw, available, reasons, "placeholder", 0.10, old_.placeholder,
                                          StringSimilarity(ratio, old_.placeholder, new_.placeholder, false));
  }

  /** The last four: text, test id, structure and tag. */
  method ScoreContent(ratio: (string, string) -> real, old_: Signature, new_: Signature,
                      raw0: real, available0: real, reasons0: seq<Reason>)
    returns (raw: real, available: real, reasons: seq<Reason>)
    requires var fs := Fields(ratio, old_, new_);
             raw0 == RawScore(fs[..4]) && available0 == AvailableWeight(fs[..4]) && reasons0 == Reasons(fs[..4])
    ensures var fs := Fields(ratio, old_, new_);
            raw == RawScore(fs) && available == AvailableWeight(fs) && reasons == Reasons(fs)
  {
    hide NormalizeText, ExactMatch, StringSimilarity, RawScore, AvailableWeight, Reasons, Term;
    ghost var fs := Fields(ratio, old_, new_);
    assert fs[..8] == fs;
    raw, available, reasons := Accumulate(fs, 4, raw0, available0, reasons0, "text", 0.10, old_.text,
                                          StringSimilarity(ratio, old_.text, new_.text, true));
    raw, available, reasons := Accumulate(fs, 5, raw, available, reasons, "data_testid", 0.05, old_.dataTestid,
                                          ExactMatch(old_.dataTestid, new_.dataTestid));
    raw, available, reasons := Accumulate(fs, 6, raw, available, reasons, "structure", 0.05, old_.structure,
                                          StringSimilarity(ratio, old_.structure, new_.structure, false));
    raw, available, reasons := Accumulate(fs, 7, raw, available, reasons, "tag", 0.05, old_.tag,
                                          ExactMatch(old_.tag, new_.tag));
  }

  /** The accumulating computation. */
  method ScoreSignatures(ratio: (string, string) -> real, old_: Signature, new_: Signature)
    returns (score: real, reasons: seq<Reason>)
    requires IsRatio(ratio)
    ensures score == WeightedMean(Fields(ratio, old_, new_))
    ensures reasons == Reasons(Fields(ratio, old_, new_))
  {
    hide Fields, RawScore, AvailableWeight, Reasons, Proper, WeightedMean;
    FieldsAreProper(ratio, old_, new_);
    var raw, available;
    raw, available, reasons := ScoreIdentity(ratio, old_, new_);
    raw, available, reasons := ScoreContent(ratio, old_, new_, raw, available, reasons);
    score := Average(Fields(ratio, old_, new_), raw, available);
  }
}
