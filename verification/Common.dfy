/** Result types and the string operations the rest of the model is phrased in. */
module Common {

  datatype Option<+T> = None | Some(value: T)

  datatype Result<+T, +E> = Success(value: T) | Failure(error: E)

  predicate OccursAt(haystack: string, needle: string, i: nat) {
    i + |needle| <= |haystack| && haystack[i..i + |needle|] == needle
  }

  /** Python's `needle in haystack` on strings. */
  predicate Contains(haystack: string, needle: string) {
    exists i | 0 <= i <= |haystack| :: OccursAt(haystack, needle, i)
  }

  predicate ContainsAny(haystack: string, needles: seq<string>) {
    exists k | 0 <= k < |needles| :: Contains(haystack, needles[k])
  }

  function LowerChar(c: char): char {
    if 'A' <= c <= 'Z' then c - 'A' + 'a' else c
  }

  /** `str.lower`, on ASCII letters. */
  function Lower(s: string): string {
    seq(|s|, i requires 0 <= i < |s| => LowerChar(s[i]))
  }

  predicate IsSpace(c: char) {
    c == ' ' || c == '\t' || c == '\n' || c == '\r'
  }

  /** `str.strip`. */
  function Strip(s: string): string {
    if s == "" then ""
    else if IsSpace(s[0]) then Strip(s[1..])
    else if IsSpace(s[|s| - 1]) then Strip(s[..|s| - 1])
    else s
  }

  /* ---- What these mean, character by character ---- */

  /** An occurrence splits the text around it. */
  lemma ContainsMeaning(haystack: string, needle: string)
    ensures Contains(haystack, needle) <==> exists a, b :: haystack == a + needle + b
  {
    if Contains(haystack, needle) {
      var i :| 0 <= i <= |haystack| && OccursAt(haystack, needle, i);
      assert haystack == haystack[..i] + needle + haystack[i + |needle|..];
    } else if exists a, b :: haystack == a + needle + b {
      var a, b :| haystack == a + needle + b;
      assert OccursAt(haystack, needle, |a|);
    }
  }

  /** The same text, up to the case of the letters in `s`; `t` is in lower case where it has letters. */
  predicate SameLetters(s: string, t: string) {
    |s| == |t| &&
    forall i :: 0 <= i < |s| ==>
      if 'A' <= s[i] <= 'Z' then t[i] as int == s[i] as int + 32 else t[i] == s[i]
  }

  /** The word occurs in the text, in any letter case. */
  ghost predicate Mentions(text: string, word: string) {
    exists a, w, b :: text == a + w + b && SameLetters(w, word)
  }

  ghost predicate MentionsOne(text: string, words: seq<string>) {
    exists word :: word in words && Mentions(text, word)
  }

  lemma LowerMeaning(s: string)
    ensures SameLetters(s, Lower(s))
  {
  }

  lemma LowerIsOnly(s: string, t: string)
    requires SameLetters(s, t)
    ensures t == Lower(s)
  {
  }

  /** Looking a word up in lower-cased text is looking for it in any letter case. */
  lemma LowerSlice(text: string, i: nat, j: nat)
    requires i <= j <= |text|
    ensures Lower(text)[i..j] == Lower(text[i..j])
  {
  }

  lemma LowerMentions(text: string, word: string)
    ensures Contains(Lower(text), word) <==> Mentions(text, word)
  {
    hide Lower, SameLetters;
    LowerMeaning(text);
    if Contains(Lower(text), word) {
      var i :| 0 <= i <= |Lower(text)| && OccursAt(Lower(text), word, i);
      var a, w, b := text[..i], text[i..i + |word|], text[i + |word|..];
      LowerSlice(text, i, i + |word|);
      LowerMeaning(w);
      assert text == a + w + b;
    }
    if Mentions(text, word) {
      var a, w, b :| text == a + w + b && SameLetters(w, word);
      LowerIsOnly(w, word);
      assert text[|a|..|a| + |w|] == w;
      LowerSlice(text, |a|, |a| + |w|);
      assert OccursAt(Lower(text), word, |a|);
    }
  }

  lemma LowerMentionsOne(text: string, words: seq<string>)
    ensures ContainsAny(Lower(text), words) <==> MentionsOne(text, words)
  {
    forall word ensures Contains(Lower(text), word) <==> Mentions(text, word) {
      LowerMentions(text, word);
    }
    if ContainsAny(Lower(text), words) {
      var k :| 0 <= k < |words| && Contains(Lower(text), words[k]);
      assert words[k] in words;
    }
  }

  predicate MentionedAt(text: string, word: string, i: nat) {
    i + |word| <= |text| && SameLetters(text[i..i + |word|], word)
  }

  lemma MentionsIsPosition(text: string, word: string)
    ensures Mentions(text, word) <==> exists i: nat :: MentionedAt(text, word, i)
  {
    if Mentions(text, word) {
      var a, w, b :| text == a + w + b && SameLetters(w, word);
      assert text[|a|..|a| + |word|] == w;
      assert MentionedAt(text, word, |a|);
    } else if exists i: nat :: MentionedAt(text, word, i) {
      var i: nat :| MentionedAt(text, word, i);
      assert text == text[..i] + text[i..i + |word|] + text[i + |word|..];
    }
  }

  lemma MentionedChar(text: string, word: string, i: nat, k: nat)
    requires MentionedAt(text, word, i) && i <= k < i + |word| && text[k] == ' '
    ensures word[k - i] == ' '
  {
    assert text[i..i + |word|][k - i] == text[k];
  }

  /** A word without blanks occurs on one side of the blank. */
  lemma OnOneSide(left: string, right: string, word: string, i: nat)
    requires forall k :: 0 <= k < |word| ==> word[k] != ' '
    requires MentionedAt(left + " " + right, word, i)
    ensures i + |word| <= |left| || i > |left|
  {
    if i <= |left| < i + |word| {
      MentionedChar(left + " " + right, word, i, |left|);
    }
  }

  lemma FoundOnOneSide(left: string, right: string, word: string, i: nat)
    requires forall k :: 0 <= k < |word| ==> word[k] != ' '
    requires MentionedAt(left + " " + right, word, i)
    ensures if i + |word| <= |left| then MentionedAt(left, word, i)
            else i > |left| && MentionedAt(right, word, i - |left| - 1)
  {
    var text, n := left + " " + right, |word|;
    OnOneSide(left, right, word, i);
    if i + n <= |left| {
      assert text[i..i + n] == left[i..i + n];
    } else {
      var k := i - |left| - 1;
      assert text[i..i + n] == right[k..k + n];
    }
  }

  lemma FoundInWhole(left: string, right: string, word: string, i: nat)
    ensures MentionedAt(left, word, i) ==> MentionedAt(left + " " + right, word, i)
    ensures MentionedAt(right, word, i) ==> MentionedAt(left + " " + right, word, |left| + 1 + i)
  {
    var text, n, k := left + " " + right, |word|, |left| + 1 + i;
    if i + n <= |left| {
      assert text[i..i + n] == left[i..i + n];
    }
    if i + n <= |right| {
      assert text[k..k + n] == right[i..i + n];
    }
  }

  /** A word without blanks cannot straddle the blank between two texts. */
  lemma MentionsEither(left: string, right: string, word: string)
    requires forall i :: 0 <= i < |word| ==> word[i] != ' '
    ensures Mentions(left + " " + right, word) <==> Mentions(left, word) || Mentions(right, word)
  {
    hide Mentions, MentionedAt;
    MentionsIsPosition(left + " " + right, word);
    MentionsIsPosition(left, word);
    MentionsIsPosition(right, word);
    if Mentions(left, word) {
      var i: nat :| MentionedAt(left, word, i);
      FoundInWhole(left, right, word, i);
    }
    if Mentions(right, word) {
      var i: nat :| MentionedAt(right, word, i);
      FoundInWhole(left, right, word, i);
    }
    if Mentions(left + " " + right, word) {
      var i: nat :| MentionedAt(left + " " + right, word, i);
      FoundOnOneSide(left, right, word, i);
    }
  }

  lemma MentionsOneEither(left: string, right: string, words: seq<string>)
    requires forall word :: word in words ==> forall i :: 0 <= i < |word| ==> word[i] != ' '
    ensures MentionsOne(left + " " + right, words) <==> MentionsOne(left, words) || MentionsOne(right, words)
  {
    hide Mentions;
    forall word | word in words
      ensures Mentions(left + " " + right, word) <==> Mentions(left, word) || Mentions(right, word)
    {
      MentionsEither(left, right, word);
    }
  }

  /** Nothing but blanks, tabs and line ends. */
  predicate Blank(s: string) {
    forall i :: 0 <= i < |s| ==> s[i] == ' ' || s[i] == '\t' || s[i] == '\n' || s[i] == '\r'
  }

  /** `s` is `core` with blanks around it. */
  ghost predicate Padded(s: string, core: string) {
    exists a, b :: Blank(a) && Blank(b) && s == a + core + b
  }

  lemma PaddedBy(s: string, a: string, core: string, b: string)
    requires Blank(a) && Blank(b) && s == a + core + b
    ensures Padded(s, core)
  {
  }

  lemma PaddedBefore(c: char, s: string, core: string)
    requires Padded(s, core) && Blank([c])
    ensures Padded([c] + s, core)
  {
    var a, b :| Blank(a) && Blank(b) && s == a + core + b;
    PaddedBy([c] + s, [c] + a, core, b);
  }

  lemma PaddedAfter(s: string, c: char, core: string)
    requires Padded(s, core) && Blank([c])
    ensures Padded(s + [c], core)
  {
    var a, b :| Blank(a) && Blank(b) && s == a + core + b;
    PaddedBy(s + [c], a, core, b + [c]);
  }

  lemma PaddedSelf(s: string)
    ensures Padded(s, s)
  {
    assert s == "" + s + "";
    PaddedBy(s, "", s, "");
  }

  /** Stripping removes the blanks at both ends and nothing else. */
  lemma {:induction false} StripMeaning(s: string)
    ensures Padded(s, Strip(s))
    ensures Strip(s) != "" ==> !Blank(Strip(s)[..1]) && !Blank(Strip(s)[|Strip(s)| - 1..])
  {
    hide Padded;
    PaddedSelf(s);
    if s != "" {
      var n := |s| - 1;
      if IsSpace(s[0]) {
        StripMeaning(s[1..]);
        PaddedBefore(s[0], s[1..], Strip(s));
        assert s == [s[0]] + s[1..];
      } else if IsSpace(s[n]) {
        StripMeaning(s[..n]);
        PaddedAfter(s[..n], s[n], Strip(s));
        assert s == s[..n] + [s[n]];
      } else {
        assert s[..1][0] == s[0] && s[n..][0] == s[n];
      }
    }
  }

  /* ---- Sequences ---- */

  predicate NoDuplicates<T(==)>(s: seq<T>) {
    forall i, j :: 0 <= i < j < |s| ==> s[i] != s[j]
  }

  lemma PrefixHasNoDuplicates<T>(s: seq<T>, k: nat)
    requires NoDuplicates(s) && k < |s|
    ensures NoDuplicates(s[..k]) && s[k] !in s[..k]
  {
  }

  function Without<T>(s: seq<T>, k: nat): seq<T>
    requires k < |s|
  {
    s[..k] + s[k + 1..]
  }

  lemma PartsMultiset<T>(front: seq<T>, x: T, back: seq<T>)
    ensures multiset(front + ([x] + back)) == multiset(front) + multiset{x} + multiset(back)
    ensures multiset(front + back) == multiset(front) + multiset(back)
  {
  }

  lemma HeadMultiset<T>(s: seq<T>)
    requires s != []
    ensures multiset(s[1..]) == multiset(s) - multiset{s[0]}
  {
    assert s == [] + ([s[0]] + s[1..]);
    PartsMultiset([], s[0], s[1..]);
  }

  lemma WithoutMultiset<T>(s: seq<T>, k: nat)
    requires k < |s|
    ensures multiset(Without(s, k)) == multiset(s) - multiset{s[k]}
    ensures multiset(s) == multiset(Without(s, k)) + multiset{s[k]}
  {
    assert s == s[..k] + ([s[k]] + s[k + 1..]);
    PartsMultiset(s[..k], s[k], s[k + 1..]);
  }

  /** Removing one element leaves the others. */
  lemma OthersStay<T>(s: seq<T>, k: nat, j: nat)
    requires k < |s| && j < |s| && j != k
    ensures s[j] in multiset(Without(s, k))
  {
    assert Without(s, k)[if j < k then j else j - 1] == s[j];
  }

  lemma PositionOf<T>(s: seq<T>, x: T) returns (k: nat)
    requires x in multiset(s)
    ensures k < |s| && s[k] == x
  {
    k :| 0 <= k < |s| && s[k] == x;
  }

  lemma SameLength<T>(s: seq<T>, t: seq<T>)
    requires multiset(s) == multiset(t)
    ensures |s| == |t|
  {
    assert |multiset(s)| == |s| && |multiset(t)| == |t|;
  }
}
