/**
 * What one kana keystroke does, proved on the value-level step `KanaStep` (which the
 * matcher on objects is proved to follow).
 */
module KanaProperties {
  import opened Wrappers
  import opened Text
  import opened Chunks
  import opened Tables
  import opened Session
  import opened LineWords
  import opened KanaInput

  predicate IsMark(c: char) {
    c == '゛' || c == '゜'
  }

  /** Whether a keystroke with these candidates is accepted on this chunk. */
  predicate Accepts(keys: seq<string>, next: Chunk) {
    var e := ExpectedKey(next.kana);
    next.kana != "" && e in keys && ((e != "゛" && e != "゜") || next.originalDakuChar.Some?)
  }

  /** The key a non-empty chunk waits for is one character. */
  lemma ExpectedKeyLength(kana: string)
    requires kana != ""
    ensures |ExpectedKey(kana)| == 1
    ensures !IsDakuHandaku(kana[0]) ==> ExpectedKey(kana) == [LowerChar(kana[0])]
  {
  }

  /**
   * A keystroke is accepted exactly when one of its candidates is the key the chunk waits
   * for (the unvoiced base of a voiced first kana, else the first kana lowercased) and,
   * when that key is a mark, the chunk remembers the voiced kana it stands for. A rejected
   * keystroke changes nothing, reports `""` as accepted and, as rejected, the key itself
   * for a keyboard character and the first candidate for a kana.
   */
  lemma KanaAcceptance(t: Tables, k: TypingKey, ln: Line)
    ensures var r := KanaStep(t, k, ln);
            (r.successKey != Some("") <==> Accepts(k.keys, ln.next)) &&
            (Accepts(k.keys, ln.next) ==> r.successKey == Some(ExpectedKey(ln.next.kana)) && r.failKey.None?) &&
            (!Accepts(k.keys, ln.next) ==>
               r.line == ln && r.callerNext == ln.next && !r.isUpdatePoint &&
               r.failKey == (if SliceTo(ln.next.kana, 1) in t.keyboardChars then Some(k.key)
                             else if k.keys == [] then None else Some(k.keys[0])))
  {
    if ln.next.kana != "" {
      ExpectedKeyLength(ln.next.kana);
    }
  }

  /**
   * The first stroke of a voiced kana: its unvoiced base is typed and the chunk, in the
   * caller's object too, now waits for the mark (followed by the chunk's second kana, if
   * any), remembering the voiced kana; nothing is committed and nothing is scored.
   */
  lemma KanaVoicedFirstStroke(t: Tables, k: TypingKey, ln: Line)
    requires ln.next.kana != "" && IsDakuHandaku(ln.next.kana[0])
    requires [ParseDakuHandaku(ln.next.kana[0]).normalizedKana] in k.keys
    ensures var r := KanaStep(t, k, ln);
            var kana := ln.next.kana;
            var d := ParseDakuHandaku(kana[0]);
            r.line == Line(ln.correct, r.callerNext, ln.rest) && !r.isUpdatePoint &&
            r.successKey == Some([d.normalizedKana]) && r.failKey.None? &&
            r.callerNext == ln.next.(kana := [d.mark] + (if |kana| >= 2 then [kana[1]] else ""),
                                     originalDakuChar := Some(kana[0]))
  {
    NormalizedIsUnvoiced(ln.next.kana[0]);
  }

  /**
   * The mark finishes a voiced kana: what is committed to the typed kana is the voiced kana
   * the chunk remembers, not the mark.
   */
  lemma KanaMarkTypesVoiced(t: Tables, k: TypingKey, ln: Line, c: char)
    requires ln.next.kana != "" && IsMark(ln.next.kana[0]) && [ln.next.kana[0]] in k.keys
    requires ln.next.originalDakuChar == Some(c)
    ensures var r := KanaStep(t, k, ln);
            r.successKey == Some([ln.next.kana[0]]) &&
            r.line.correct.kana == ln.correct.kana + [c] &&
            (|ln.next.kana| >= 2 ==> r.line.next.kana == ln.next.kana[1..] && !r.isUpdatePoint) &&
            (|ln.next.kana| == 1 ==> r.isUpdatePoint)
  {
    ExpectedKeyLength(ln.next.kana);
  }

  /**
   * A chunk of several kana whose first is not voiced: the typed kana is committed, the
   * chunk (in the caller's object too) drops it and stays current, and nothing is scored.
   */
  lemma KanaMultiKanaAdvance(t: Tables, k: TypingKey, ln: Line)
    requires |ln.next.kana| >= 2 && !IsDakuHandaku(ln.next.kana[0]) && !IsMark(ln.next.kana[0])
    requires [LowerChar(ln.next.kana[0])] in k.keys
    ensures var r := KanaStep(t, k, ln);
            r.line.correct == ln.correct.(kana := ln.correct.kana + [LowerChar(ln.next.kana[0])]) &&
            r.line.next == ln.next.(kana := ln.next.kana[1..]) && r.callerNext == r.line.next &&
            r.line.rest == ln.rest && !r.isUpdatePoint
  {
    ExpectedKeyLength(ln.next.kana);
  }

  /**
   * The last kana of a chunk: the typed kana and the chunk's first romaji spelling (the
   * text "undefined" when it has none) are committed, the next chunk (or the sentinel)
   * becomes current, the score is due and the caller's chunk object is left alone.
   */
  lemma KanaCompletesChunk(t: Tables, k: TypingKey, ln: Line)
    requires |ln.next.kana| == 1 && !IsDakuHandaku(ln.next.kana[0]) && Accepts(k.keys, ln.next)
    ensures var r := KanaStep(t, k, ln);
            var typed := if IsMark(ln.next.kana[0]) then [ln.next.originalDakuChar.value] else [LowerChar(ln.next.kana[0])];
            var rp := ln.next.romaPatterns;
            r.isUpdatePoint && r.callerNext == ln.next &&
            r.line.correct == KanaRoma(ln.correct.kana + typed,
                                       ln.correct.roma + (if rp != [] then rp[0] else "undefined")) &&
            (ln.rest == [] ==> r.line.next == EMPTY_WORD_CHUNK && r.line.rest == []) &&
            (ln.rest != [] ==> r.line.next == ln.rest[0] && r.line.rest == ln.rest[1..])
  {
    ExpectedKeyLength(ln.next.kana);
  }

  /** The kana a chunk still stands for: a leading mark stands for the voiced kana it finishes. */
  function Pending(c: Chunk): string {
    if c.kana != "" && IsMark(c.kana[0]) && c.originalDakuChar.Some? then [c.originalDakuChar.value] + c.kana[1..]
    else c.kana
  }

  /** All the kana of a line as the kana keyboard sees it: typed, pending, to come. */
  function KanaText(ln: Line): string {
    ln.correct.kana + Pending(ln.next) + Concat(Kanas(ln.rest))
  }

  /** The chunks to come have not been started: none remembers a voiced kana. */
  predicate Unstarted(rest: seq<Chunk>) {
    forall i :: 0 <= i < |rest| ==> rest[i].originalDakuChar.None?
  }

  /**
   * Every kana keystroke keeps the line's text: what is typed, what the current chunk still
   * stands for and what is to come spell the same kana before and after. This needs the
   * current chunk not to start with an upper-case letter (the typed key is lowercased) and
   * a voiced first kana to be followed by at most one more (the first stroke keeps only
   * the second kana), and no mark after its first kana.
   */
  lemma KanaKeepsText(t: Tables, k: TypingKey, ln: Line)
    requires Unstarted(ln.rest)
    requires ln.next.kana == "" || !('A' <= ln.next.kana[0] <= 'Z')
    requires ln.next.kana != "" && IsDakuHandaku(ln.next.kana[0]) ==> |ln.next.kana| <= 2
    requires forall i :: 1 <= i < |ln.next.kana| ==> !IsMark(ln.next.kana[i])
    ensures var r := KanaStep(t, k, ln);
            KanaText(r.line) == KanaText(ln) && Unstarted(r.line.rest)
  {
    var kana := ln.next.kana;
    KanaAcceptance(t, k, ln);
    if Accepts(k.keys, ln.next) {
      ExpectedKeyLength(kana);
      if IsDakuHandaku(kana[0]) {
        VoicedKeepsText(t, k, ln);
      } else if |kana| >= 2 {
        AdvanceKeepsText(t, k, ln);
      } else {
        CompleteKeepsText(t, k, ln);
      }
    }
  }

  /** `KanaKeepsText` for the first stroke of a voiced kana. */
  lemma VoicedKeepsText(t: Tables, k: TypingKey, ln: Line)
    requires ln.next.kana != "" && IsDakuHandaku(ln.next.kana[0]) && |ln.next.kana| <= 2
    requires Accepts(k.keys, ln.next)
    ensures KanaText(KanaStep(t, k, ln).line) == KanaText(ln)
    ensures KanaStep(t, k, ln).line.rest == ln.rest
  {
    var kana := ln.next.kana;
    KanaVoicedFirstStroke(t, k, ln);
    var d := ParseDakuHandaku(kana[0]);
    assert IsMark(d.mark);
    PendingAfterMark(ln.next, d.mark);
  }

  /** A chunk showing a mark and remembering its voiced kana is still pending that kana. */
  lemma PendingAfterMark(c: Chunk, m: char)
    requires c.kana != "" && |c.kana| <= 2 && IsMark(m)
    ensures Pending(c.(kana := [m] + (if |c.kana| >= 2 then [c.kana[1]] else ""),
                       originalDakuChar := Some(c.kana[0]))) == c.kana
  {
    assert c.kana == [c.kana[0]] + c.kana[1..];
  }

  /** `KanaKeepsText` for a chunk of several kana whose first is not voiced. */
  lemma AdvanceKeepsText(t: Tables, k: TypingKey, ln: Line)
    requires |ln.next.kana| >= 2 && !IsDakuHandaku(ln.next.kana[0]) && !('A' <= ln.next.kana[0] <= 'Z')
    requires !IsMark(ln.next.kana[1])
    requires Accepts(k.keys, ln.next)
    ensures KanaText(KanaStep(t, k, ln).line) == KanaText(ln)
    ensures KanaStep(t, k, ln).line.rest == ln.rest
  {
    var kana := ln.next.kana;
    AdvanceStep(t, k, ln);
    AdvanceText(ln, if IsMark(kana[0]) then [ln.next.originalDakuChar.value] else [kana[0]]);
  }

  /** Committing the kana the current chunk stands for first, and dropping it, keeps the text. */
  lemma AdvanceText(ln: Line, typed: string)
    requires |ln.next.kana| >= 2 && !IsMark(ln.next.kana[1])
    requires IsMark(ln.next.kana[0]) ==> ln.next.originalDakuChar.Some?
    requires typed == if IsMark(ln.next.kana[0]) then [ln.next.originalDakuChar.value] else [ln.next.kana[0]]
    ensures KanaText(Line(ln.correct.(kana := ln.correct.kana + typed), ln.next.(kana := ln.next.kana[1..]), ln.rest))
            == KanaText(ln)
  {
    var kana := ln.next.kana;
    assert Pending(ln.next) == typed + kana[1..];
    assert Pending(ln.next.(kana := kana[1..])) == kana[1..];
  }

  /** The line after a stroke on a chunk of several kana whose first is not voiced. */
  lemma AdvanceStep(t: Tables, k: TypingKey, ln: Line)
    requires |ln.next.kana| >= 2 && !IsDakuHandaku(ln.next.kana[0]) && !('A' <= ln.next.kana[0] <= 'Z')
    requires Accepts(k.keys, ln.next)
    ensures var kana := ln.next.kana;
            var typed := if IsMark(kana[0]) then [ln.next.originalDakuChar.value] else [kana[0]];
            KanaStep(t, k, ln).line ==
              Line(ln.correct.(kana := ln.correct.kana + typed), ln.next.(kana := kana[1..]), ln.rest)
  {
    ExpectedKeyLength(ln.next.kana);
  }

  /** `KanaKeepsText` for the last kana of a chunk. */
  lemma CompleteKeepsText(t: Tables, k: TypingKey, ln: Line)
    requires |ln.next.kana| == 1 && !IsDakuHandaku(ln.next.kana[0]) && !('A' <= ln.next.kana[0] <= 'Z')
    requires Accepts(k.keys, ln.next) && Unstarted(ln.rest)
    ensures KanaText(KanaStep(t, k, ln).line) == KanaText(ln)
    ensures Unstarted(KanaStep(t, k, ln).line.rest)
  {
    var kana := ln.next.kana;
    KanaCompletesChunk(t, k, ln);
    var r := KanaStep(t, k, ln);
    var typed := if IsMark(kana[0]) then [ln.next.originalDakuChar.value] else [kana[0]];
    assert Pending(ln.next) == typed by {
      assert kana[1..] == "";
    }
    assert Pending(r.line.next) == r.line.next.kana;
    AdvanceKeepsTyped(ln.correct.kana, typed, ln.rest);
  }

  /** The caller's chunk object keeps its score and its character class whatever is typed. */
  lemma KanaKeepsCallerScore(t: Tables, k: TypingKey, ln: Line)
    ensures KanaStep(t, k, ln).callerNext.point == ln.next.point
    ensures KanaStep(t, k, ln).callerNext.kind == ln.next.kind
  {
  }
}
