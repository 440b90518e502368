/**
 * `sentenceToKanaChunkWords`: splits a block of text into lines and each line into
 * vocabulary tokens (keys of the kana and symbol tables) or single characters.
 *
 * The source builds one regular expression that alternates the table keys in table order
 * and surrounds every match with tabs; at each position the FIRST alternative that matches
 * wins, whatever its length. `MarkMatches` is that replacement written out with literal
 * keys; the rest splits on line breaks and tabs exactly as the source does.
 */
module Tokenizer {
  import opened Wrappers
  import opened Text
  import opened Tables

  /** The first alternative, in order, that is a non-empty prefix of `s`. */
  function FirstMatch(alts: seq<string>, s: string): (r: Option<string>)
    ensures r.Some? ==> r.value in alts && r.value != "" && StartsWith(s, r.value)
    ensures r.Some? ==> exists i :: 0 <= i < |alts| && alts[i] == r.value &&
                          forall j :: 0 <= j < i ==> alts[j] == "" || !StartsWith(s, alts[j])
    ensures r.None? ==> forall k :: k in alts && k != "" ==> !StartsWith(s, k)
  {
    if alts == [] then None
    else if alts[0] != "" && StartsWith(s, alts[0]) then Some(alts[0])
    else FirstMatch(alts[1..], s)
  }

  /** `s.replace(/(k1|k2|...)/g, "\t$1\t")` with the keys taken literally. */
  function MarkMatches(alts: seq<string>, s: string): string
    decreases |s|
  {
    if s == [] then ""
    else match FirstMatch(alts, s)
      case Some(k) => "\t" + k + "\t" + MarkMatches(alts, s[|k|..])
      case None => [s[0]] + MarkMatches(alts, s[1..])
  }

  /** `line.split("\t").filter((word) => word !== "")`. */
  function NonEmpty(segments: seq<string>): (r: seq<string>)
    ensures forall i :: 0 <= i < |r| ==> r[i] != ""
    ensures |r| <= |segments|
    ensures forall w :: w in r <==> w in segments && w != ""
    ensures forall w :: w != "" ==> multiset(r)[w] == multiset(segments)[w]
  {
    if segments == [] then []
    else
      assert segments == [segments[0]] + segments[1..];
      (if segments[0] == "" then [] else [segments[0]]) + NonEmpty(segments[1..])
  }

  /**
   * The filter keeps order: the kept segments of `a + b` are those of `a` followed by those
   * of `b`, so with `NonEmpty([w])` (`w` alone when it is not empty) this fixes the result.
   */
  lemma {:induction false} NonEmptyAppend(a: seq<string>, b: seq<string>)
    ensures NonEmpty(a + b) == NonEmpty(a) + NonEmpty(b)
  {
    if a == [] {
      assert a + b == b;
    } else {
      var head := if a[0] == "" then [] else [a[0]];
      assert (a + b)[0] == a[0] && (a + b)[1..] == a[1..] + b;
      NonEmptyAppend(a[1..], b);
      calc {
        NonEmpty(a + b);
        head + NonEmpty(a[1..] + b);
        head + (NonEmpty(a[1..]) + NonEmpty(b));
        (head + NonEmpty(a[1..])) + NonEmpty(b);
      }
    }
  }

  /** One string per character of `w` (`for (const char of word)`). */
  function Chars(w: string): (r: seq<string>)
    ensures |r| == |w|
    ensures forall i :: 0 <= i < |w| ==> r[i] == [w[i]]
  {
    seq(|w|, i requires 0 <= i < |w| => [w[i]])
  }

  /** The tokens one segment contributes: itself if it is a table key, else its characters. */
  function SegmentTokensOf(t: Tables, w: string): seq<string> {
    if InVocabulary(t, w) then [w] else Chars(w)
  }

  /** The tokens of a list of segments, in order. */
  function SegmentTokens(t: Tables, segments: seq<string>): seq<string> {
    if segments == [] then []
    else SegmentTokens(t, segments[..|segments| - 1]) + SegmentTokensOf(t, segments[|segments| - 1])
  }

  /** One more segment of a prefix adds its own tokens at the end. */
  lemma SegmentTokensPrefix(t: Tables, segments: seq<string>, i: nat)
    requires i < |segments|
    ensures SegmentTokens(t, segments[..i + 1]) == SegmentTokens(t, segments[..i]) + SegmentTokensOf(t, segments[i])
  {
    assert segments[..i + 1][..i] == segments[..i];
  }

  /** One more character of a prefix adds its own token at the end. */
  lemma CharsPrefix(w: string, j: nat)
    requires j < |w|
    ensures Chars(w[..j + 1]) == Chars(w[..j]) + [[w[j]]]
  {
  }

  /** The tokens of one line of the tab-marked text. */
  function LineTokens(t: Tables, markedLine: string): seq<string> {
    SegmentTokens(t, NonEmpty(Split(markedLine, '\t')))
  }

  /** `sentenceToKanaChunkWords(sentence)`: one token list per line of the marked text. */
  function SentenceToKanaChunkWords(t: Tables, sentence: string): seq<seq<string>> {
    var lines := Split(MarkMatches(Vocabulary(t), sentence), '\n');
    seq(|lines|, i requires 0 <= i < |lines| => LineTokens(t, lines[i]))
  }

  /** The tokens of one raw line (no line break in it). */
  function TokenizeLine(t: Tables, line: string): seq<string> {
    LineTokens(t, MarkMatches(Vocabulary(t), line))
  }

  /**
   * The per-line callback of `sentenceToKanaChunkWords`: splits a marked line on tabs,
   * drops empty pieces and pushes each piece, or each of its characters, onto `result`.
   */
  method LineToTokens(t: Tables, markedLine: string) returns (result: seq<string>)
    ensures result == LineTokens(t, markedLine)
  {
    var splitLine := NonEmpty(Split(markedLine, '\t'));
    result := [];
    for i := 0 to |splitLine|
      invariant result == SegmentTokens(t, splitLine[..i])
    {
      var word := splitLine[i];
      SegmentTokensPrefix(t, splitLine, i);
      if InVocabulary(t, word) {
        result := result + [word];
      } else {
        ghost var before := result;
        for j := 0 to |word|
          invariant result == before + Chars(word[..j])
        {
          CharsPrefix(word, j);
          result := result + [[word[j]]];
        }
        assert word[..|word|] == word;
      }
    }
    assert splitLine[..|splitLine|] == splitLine;
  }

  // ---------------------------------------------------------------------------------------
  // Lines: marking commutes with splitting into lines when no key spans a line break.

  predicate NoNewlineKeys(alts: seq<string>) {
    forall k :: k in alts ==> '\n' !in k
  }

  lemma {:induction false} FirstMatchWithinLine(alts: seq<string>, a: string, b: string)
    requires NoNewlineKeys(alts) && '\n' !in a
    ensures FirstMatch(alts, a + "\n" + b) == FirstMatch(alts, a)
  {
    if alts != [] {
      var k := alts[0];
      var s := a + "\n" + b;
      if k != "" {
        if |k| > |a| {
          assert k in alts;
          if |k| <= |s| {
            assert s[..|k|][|a|] == '\n' != k[|a|];
          }
          assert !StartsWith(s, k);
        }
        if StartsWith(a, k) {
          assert s[..|k|] == a[..|k|];
        }
        if StartsWith(s, k) {
          assert a[..|k|] == s[..|k|];
        }
      }
      FirstMatchWithinLine(alts[1..], a, b);
    }
  }

  lemma {:induction false} MarkMatchesLine(alts: seq<string>, a: string, b: string)
    requires NoNewlineKeys(alts) && '\n' !in a
    ensures MarkMatches(alts, a + "\n" + b) == MarkMatches(alts, a) + "\n" + MarkMatches(alts, b)
    decreases |a|
  {
    var s := a + "\n" + b;
    FirstMatchWithinLine(alts, a, b);
    if a == [] {
      assert s == "\n" + b;
      assert s[1..] == b;
    } else {
      match FirstMatch(alts, a)
      case Some(k) =>
        assert s[|k|..] == a[|k|..] + "\n" + b;
        MarkMatchesLine(alts, a[|k|..], b);
        JoinAfter("\t" + k + "\t", MarkMatches(alts, a[|k|..]), MarkMatches(alts, b));
      case None =>
        assert s[1..] == a[1..] + "\n" + b;
        MarkMatchesLine(alts, a[1..], b);
        JoinAfter([a[0]], MarkMatches(alts, a[1..]), MarkMatches(alts, b));
    }
  }

  lemma JoinAfter(p: string, x: string, y: string)
    ensures p + (x + "\n" + y) == (p + x) + "\n" + y
  {
  }

  lemma {:induction false} MarkMatchesNoNewline(alts: seq<string>, a: string)
    requires NoNewlineKeys(alts) && '\n' !in a
    ensures '\n' !in MarkMatches(alts, a)
    decreases |a|
  {
    if a != [] {
      match FirstMatch(alts, a)
      case Some(k) =>
        MarkMatchesNoNewline(alts, a[|k|..]);
      case None =>
        MarkMatchesNoNewline(alts, a[1..]);
    }
  }

  lemma {:induction false} SplitWithout(a: string, sep: char)
    requires sep !in a
    ensures Split(a, sep) == [a]
  {
    if a != [] {
      SplitWithout(a[1..], sep);
      assert [a[0]] + a[1..] == a;
    }
  }

  lemma {:induction false} SplitAfterFirst(a: string, b: string, sep: char)
    requires sep !in a
    ensures Split(a + [sep] + b, sep) == [a] + Split(b, sep)
  {
    if a == [] {
      assert a + [sep] + b == [sep] + b;
      assert ([sep] + b)[1..] == b;
    } else {
      var s := a + [sep] + b;
      assert s[0] == a[0] != sep;
      assert s[1..] == a[1..] + [sep] + b;
      SplitAfterFirst(a[1..], b, sep);
      assert [a[0]] + a[1..] == a;
    }
  }

  /** Marking the whole text and then cutting it into lines is marking each line. */
  lemma {:induction false} MarkedLines(alts: seq<string>, s: string)
    requires NoNewlineKeys(alts)
    ensures |Split(MarkMatches(alts, s), '\n')| == |Split(s, '\n')|
    ensures forall i :: 0 <= i < |Split(s, '\n')| ==>
              Split(MarkMatches(alts, s), '\n')[i] == MarkMatches(alts, Split(s, '\n')[i])
    decreases |s|
  {
    if '\n' !in s {
      SplitWithout(s, '\n');
      MarkMatchesNoNewline(alts, s);
      SplitWithout(MarkMatches(alts, s), '\n');
    } else {
      var n := FirstNewline(s);
      var a, b := s[..n], s[n + 1..];
      assert s == a + "\n" + b;
      MarkedLines(alts, b);
      MarkedLinesStep(alts, a, b);
    }
  }

  /** `MarkedLines` for a first line followed by lines it already holds for. */
  lemma MarkedLinesStep(alts: seq<string>, a: string, b: string)
    requires NoNewlineKeys(alts) && '\n' !in a
    requires |Split(MarkMatches(alts, b), '\n')| == |Split(b, '\n')|
    requires forall i :: 0 <= i < |Split(b, '\n')| ==>
               Split(MarkMatches(alts, b), '\n')[i] == MarkMatches(alts, Split(b, '\n')[i])
    ensures |Split(MarkMatches(alts, a + "\n" + b), '\n')| == |Split(a + "\n" + b, '\n')|
    ensures forall i :: 0 <= i < |Split(a + "\n" + b, '\n')| ==>
              Split(MarkMatches(alts, a + "\n" + b), '\n')[i] == MarkMatches(alts, Split(a + "\n" + b, '\n')[i])
  {
    MarkMatchesLine(alts, a, b);
    MarkMatchesNoNewline(alts, a);
    SplitAfterFirst(MarkMatches(alts, a), MarkMatches(alts, b), '\n');
    SplitAfterFirst(a, b, '\n');
  }

  /** The position of the first line break of a text that has one. */
  lemma {:induction false} FirstNewline(s: string) returns (n: nat)
    requires '\n' in s
    ensures n < |s| && s[n] == '\n' && '\n' !in s[..n]
    decreases |s|
  {
    if s[0] == '\n' {
      n := 0;
    } else {
      var m := FirstNewline(s[1..]);
      n := m + 1;
      assert s[..n] == [s[0]] + s[1..][..m];
    }
  }


  /** One token list per line of the input, each the tokens of that line. */
  lemma SentenceLines(t: Tables, sentence: string)
    requires PlainVocabulary(t)
    ensures |SentenceToKanaChunkWords(t, sentence)| == |Split(sentence, '\n')|
    ensures forall i :: 0 <= i < |Split(sentence, '\n')| ==>
              SentenceToKanaChunkWords(t, sentence)[i] == TokenizeLine(t, Split(sentence, '\n')[i])
  {
    MarkedLines(Vocabulary(t), sentence);
  }

  /** The number of token lists is one more than the number of line breaks. */
  lemma SentenceLineCount(t: Tables, sentence: string)
    requires PlainVocabulary(t)
    ensures |SentenceToKanaChunkWords(t, sentence)| == Count(sentence, '\n') + 1
  {
    SentenceLines(t, sentence);
    SplitLength(sentence, '\n');
  }

  // ---------------------------------------------------------------------------------------
  // Tokens: never empty, each a key or one character, and together they spell the line.

  /** A leading segment that is a table key is the first token. */
  lemma {:induction false} SegmentTokensFirst(t: Tables, segments: seq<string>)
    requires segments != [] && InVocabulary(t, segments[0])
    ensures |SegmentTokens(t, segments)| > 0 && SegmentTokens(t, segments)[0] == segments[0]
    decreases |segments|
  {
    var init := segments[..|segments| - 1];
    if init == [] {
      assert SegmentTokens(t, segments) == [] + [segments[0]];
    } else {
      assert init[0] == segments[0];
      SegmentTokensFirst(t, init);
    }
  }

  lemma {:induction false} SegmentTokensShape(t: Tables, segments: seq<string>)
    requires forall i :: 0 <= i < |segments| ==> segments[i] != ""
    ensures forall i :: 0 <= i < |SegmentTokens(t, segments)| ==>
              SegmentTokens(t, segments)[i] != "" &&
              (InVocabulary(t, SegmentTokens(t, segments)[i]) || |SegmentTokens(t, segments)[i]| == 1)
  {
    if segments != [] {
      SegmentTokensShape(t, segments[..|segments| - 1]);
    }
  }

  /** Every token of every line is non-empty, and is a table key or a single character. */
  lemma TokensAreKeysOrCharacters(t: Tables, sentence: string)
    ensures forall i, j :: 0 <= i < |SentenceToKanaChunkWords(t, sentence)| &&
                           0 <= j < |SentenceToKanaChunkWords(t, sentence)[i]| ==>
              SentenceToKanaChunkWords(t, sentence)[i][j] != "" &&
              (InVocabulary(t, SentenceToKanaChunkWords(t, sentence)[i][j]) ||
               |SentenceToKanaChunkWords(t, sentence)[i][j]| == 1)
  {
    var lines := Split(MarkMatches(Vocabulary(t), sentence), '\n');
    forall i | 0 <= i < |lines|
      ensures forall j :: 0 <= j < |LineTokens(t, lines[i])| ==>
                LineTokens(t, lines[i])[j] != "" &&
                (InVocabulary(t, LineTokens(t, lines[i])[j]) || |LineTokens(t, lines[i])[j]| == 1)
    {
      SegmentTokensShape(t, NonEmpty(Split(lines[i], '\t')));
    }
  }

  /** An empty line has no tokens. */
  lemma EmptyLineNoTokens(t: Tables)
    ensures TokenizeLine(t, "") == []
  {
    assert MarkMatches(Vocabulary(t), "") == "";
    assert Split("", '\t') == [""];
    assert NonEmpty([""]) == [];
  }

  lemma {:induction false} ConcatChars(w: string)
    ensures Concat(Chars(w)) == w
  {
    if w != [] {
      assert Chars(w) == [[w[0]]] + Chars(w[1..]);
      ConcatChars(w[1..]);
    }
  }

  lemma {:induction false} ConcatSegmentTokens(t: Tables, segments: seq<string>)
    ensures Concat(SegmentTokens(t, segments)) == Concat(segments)
    decreases |segments|
  {
    if segments != [] {
      var init, last := segments[..|segments| - 1], segments[|segments| - 1];
      ConcatSegmentTokens(t, init);
      ConcatSegmentTokensOf(t, last);
      assert init + [last] == segments;
      assert SegmentTokens(t, segments) == SegmentTokens(t, init) + SegmentTokensOf(t, last);
      ConcatBoth(SegmentTokens(t, init), SegmentTokensOf(t, last), init, [last]);
    }
  }

  /** Lists that spell the same text, glued, spell the same text. */
  lemma ConcatBoth(a: seq<string>, b: seq<string>, x: seq<string>, y: seq<string>)
    requires Concat(a) == Concat(x) && Concat(b) == Concat(y)
    ensures Concat(a + b) == Concat(x + y)
  {
    ConcatAppend(a, b);
    ConcatAppend(x, y);
  }

  lemma ConcatSegmentTokensOf(t: Tables, w: string)
    ensures Concat(SegmentTokensOf(t, w)) == Concat([w])
  {
    assert Concat([w]) == w + Concat([]);
    if !InVocabulary(t, w) {
      ConcatChars(w);
    }
  }

  lemma {:induction false} ConcatNonEmpty(segments: seq<string>)
    ensures Concat(NonEmpty(segments)) == Concat(segments)
  {
    if segments != [] {
      ConcatNonEmpty(segments[1..]);
      ConcatAppend(if segments[0] == "" then [] else [segments[0]], NonEmpty(segments[1..]));
    }
  }

  lemma {:induction false} RemoveTabsOfMarked(alts: seq<string>, s: string)
    requires forall k :: k in alts ==> '\t' !in k
    ensures RemoveAll(MarkMatches(alts, s), '\t') == RemoveAll(s, '\t')
    decreases |s|
  {
    if s != [] {
      match FirstMatch(alts, s)
      case Some(k) =>
        RemoveTabsOfMarked(alts, s[|k|..]);
        RemoveTabsAroundKey(k, MarkMatches(alts, s[|k|..]));
        RemoveTabsOfKeyPrefix(k, s);
      case None =>
        RemoveTabsOfMarked(alts, s[1..]);
        RemoveAllAppend([s[0]], MarkMatches(alts, s[1..]), '\t');
    }
  }

  /** Dropping the tabs around a tab-free key leaves the key. */
  lemma RemoveTabsAroundKey(k: string, rest: string)
    requires '\t' !in k
    ensures RemoveAll("\t" + k + "\t" + rest, '\t') == k + RemoveAll(rest, '\t')
  {
    var tab := "\t";
    assert RemoveAll(tab, '\t') == "" by {
      assert tab[1..] == "";
    }
    assert RemoveAll(tab + k, '\t') == k by {
      RemoveAllAppend(tab, k, '\t');
      RemoveAllAbsent(k, '\t');
    }
    assert RemoveAll(tab + k + tab, '\t') == k by {
      RemoveAllAppend(tab + k, tab, '\t');
    }
    RemoveAllAppend(tab + k + tab, rest, '\t');
  }

  /** Dropping the tabs of a string that starts with a tab-free key keeps the key. */
  lemma RemoveTabsOfKeyPrefix(k: string, s: string)
    requires '\t' !in k && |k| <= |s| && s[..|k|] == k
    ensures RemoveAll(s, '\t') == k + RemoveAll(s[|k|..], '\t')
  {
    assert s == k + s[|k|..];
    RemoveAllAppend(k, s[|k|..], '\t');
    RemoveAllAbsent(k, '\t');
  }

  /** The tokens of a line, glued together, are the line without its tab characters. */
  lemma TokensSpellLine(t: Tables, line: string)
    requires PlainVocabulary(t)
    ensures Concat(TokenizeLine(t, line)) == RemoveAll(line, '\t')
  {
    var marked := MarkMatches(Vocabulary(t), line);
    ConcatSegmentTokens(t, NonEmpty(Split(marked, '\t')));
    ConcatNonEmpty(Split(marked, '\t'));
    ConcatSplit(marked, '\t');
    RemoveTabsOfMarked(Vocabulary(t), line);
  }

  /**
   * The first alternative wins: when the first key in table order that starts a tab-free
   * line is `k`, the line's first token is `k`, even if a later key is a longer match.
   */
  lemma FirstAlternativeWins(t: Tables, line: string, k: string)
    requires PlainVocabulary(t) && '\t' !in line
    requires FirstMatch(Vocabulary(t), line) == Some(k)
    ensures |TokenizeLine(t, line)| > 0 && TokenizeLine(t, line)[0] == k
  {
    var rest := MarkMatches(Vocabulary(t), line[|k|..]);
    assert MarkMatches(Vocabulary(t), line) == "\t" + k + "\t" + rest;
    SplitMarkedHead(k, rest);
    SegmentTokensFirst(t, [k] + NonEmpty(Split(rest, '\t')));
  }

  /** Splitting a marked match on tabs gives the match, then the pieces after it. */
  lemma SplitMarkedHead(k: string, rest: string)
    requires k != "" && '\t' !in k
    ensures NonEmpty(Split("\t" + k + "\t" + rest, '\t')) == [k] + NonEmpty(Split(rest, '\t'))
  {
    SplitAfterFirst("", k + "\t" + rest, '\t');
    assert "" + "\t" + (k + "\t" + rest) == "\t" + k + "\t" + rest;
    SplitAfterFirst(k, rest, '\t');
    assert Split("\t" + k + "\t" + rest, '\t') == ["", k] + Split(rest, '\t');
    assert (["", k] + Split(rest, '\t'))[1..] == [k] + Split(rest, '\t');
    assert ([k] + Split(rest, '\t'))[1..] == Split(rest, '\t');
  }
}
