/**
 * Typing sessions built from a line's chunks: `createTypingWord`, the older
 * `createWordState`, `recreateTypingWord` (rebuild what is left of a word after the chunk
 * tables change) and `createDisplayWord` (the strings a player sees).
 *
 * These functions only build fresh records, so they are modelled on values: a copied
 * pattern array is simply an equal sequence, and no later update can reach the input.
 */
module Session {
  import opened Wrappers
  import opened Text
  import opened Chunks
  import opened Tables
  import opened ChunkBuilder

  /** `{ kana, roma }`: what has been typed, or a pair of display strings. */
  datatype KanaRoma = KanaRoma(kana: string, roma: string)

  const EMPTY_CORRECT: KanaRoma := KanaRoma("", "")

  /** The `nextChunk` of a session over no chunks: no kana, no spellings, no score. */
  const NO_CHUNK: Chunk := Chunk("", [], 0, NoType, None, None)

  /**
   * `TypingWord`: the typed text, the current chunk, the line's chunks and the index of
   * the first chunk after the current one. `originalDakutenChar` is the optional field of
   * the same name on the current chunk, the one `recreateTypingWord` reads; it is not the
   * kana matcher's `orginalDakuChar`, which is the chunk's `originalDakuChar`.
   */
  datatype TypingWord = TypingWord(correct: KanaRoma, nextChunk: Chunk, wordChunks: seq<Chunk>, wordChunksIndex: int,
                                   originalDakutenChar: Option<char>)

  /** `TypingWordState`: the older session record, whose list holds only the chunks still to come. */
  datatype WordState = WordState(correct: KanaRoma, nextChunk: Chunk, wordChunks: seq<Chunk>)

  /** `createTypingWord(builtMapLine, correct?, wordChunksIndex?)`. */
  function CreateTypingWord(wordChunks: seq<Chunk>, correct: Option<KanaRoma>, wordChunksIndex: Option<int>): (r: TypingWord)
    ensures r.correct == correct.GetOr(EMPTY_CORRECT)
    ensures wordChunks == [] ==> r.nextChunk == NO_CHUNK && r.wordChunks == [] && r.wordChunksIndex == 0
    ensures wordChunks != [] ==>
              r.nextChunk == wordChunks[0] && r.wordChunks == wordChunks &&
              r.wordChunksIndex == wordChunksIndex.GetOr(1)
    ensures r.originalDakutenChar.None?
  {
    var c := correct.GetOr(EMPTY_CORRECT);
    if wordChunks == [] then TypingWord(c, NO_CHUNK, [], 0, None)
    else TypingWord(c, wordChunks[0], wordChunks, wordChunksIndex.GetOr(1), None)
  }

  /** `createWordState(mapLine)`. */
  function CreateWordState(wordChunks: seq<Chunk>): (r: WordState)
    ensures r.correct == EMPTY_CORRECT
    ensures wordChunks == [] ==> r.nextChunk == NO_CHUNK && r.wordChunks == []
    ensures wordChunks != [] ==> r.nextChunk == wordChunks[0] && r.wordChunks == wordChunks[1..]
  {
    if wordChunks == [] then WordState(EMPTY_CORRECT, NO_CHUNK, [])
    else WordState(EMPTY_CORRECT, wordChunks[0], wordChunks[1..])
  }

  /** The chunks of a `TypingWord` that are still to come after the current one. */
  function Remaining(tw: TypingWord): seq<Chunk> {
    SliceFrom(tw.wordChunks, tw.wordChunksIndex)
  }

  /**
   * The two constructors agree: a fresh `TypingWord` seen through its index is the
   * `TypingWordState` of the same chunks.
   */
  lemma CreateWordStateAgrees(wordChunks: seq<Chunk>)
    ensures var tw := CreateTypingWord(wordChunks, None, None);
            CreateWordState(wordChunks) == WordState(tw.correct, tw.nextChunk, Remaining(tw))
  {
  }

  /**
   * A fresh session spells its line: the current chunk followed by the chunks still to
   * come is the whole chunk list, and the session's list has exactly the input's chunks.
   */
  lemma CreateTypingWordSpellsLine(wordChunks: seq<Chunk>, correct: Option<KanaRoma>)
    requires wordChunks != []
    ensures var tw := CreateTypingWord(wordChunks, correct, None);
            [tw.nextChunk] + Remaining(tw) == wordChunks &&
            Concat(Kanas([tw.nextChunk] + Remaining(tw))) == Concat(Kanas(wordChunks)) &&
            |tw.wordChunks| == |wordChunks|
  {
    var tw := CreateTypingWord(wordChunks, correct, None);
    assert Remaining(tw) == wordChunks[1..];
    assert [wordChunks[0]] + wordChunks[1..] == wordChunks;
  }

  /** The older state has one chunk fewer than the line, the first being current. */
  lemma CreateWordStateSpellsLine(wordChunks: seq<Chunk>)
    requires wordChunks != []
    ensures var ws := CreateWordState(wordChunks);
            |ws.wordChunks| == |wordChunks| - 1 &&
            Concat(Kanas([ws.nextChunk] + ws.wordChunks)) == Concat(Kanas(wordChunks))
  {
    assert [wordChunks[0]] + wordChunks[1..] == wordChunks;
  }

  // ---------------------------------------------------------------------------------------
  // recreateTypingWord
  // ---------------------------------------------------------------------------------------

  /**
   * The word `recreateTypingWord` rebuilds: the current chunk's `originalDakutenChar` (or,
   * without one, its kana), then the kana of the chunks from `wordChunksIndex` on.
   */
  function RebuiltWord(tw: TypingWord): string {
    (match tw.originalDakutenChar
     case Some(c) => [c]
     case None => tw.nextChunk.kana)
    + Concat(Kanas(SliceFrom(tw.wordChunks, tw.wordChunksIndex)))
  }

  /** `parseKanaChunks(word)[0] || []`: the tokens of the first line, or none. */
  function FirstLineTokens(lines: seq<seq<string>>): seq<string> {
    if |lines| > 0 then lines[0] else []
  }

  /**
   * `recreateTypingWord`. The tokenizer it calls (`parseKanaChunks`) is a parameter
   * `parse`, and the score per keystroke it derives from the first chunk by floating-point
   * division is the parameter `charPoint`.
   */
  function RecreateTypingWord(t: Tables, parse: string -> seq<seq<string>>, tw: TypingWord, charPoint: int): (r: TypingWord)
    ensures tw.nextChunk.kana == "" || tw.wordChunks == [] ==> r == tw
  {
    if tw.nextChunk.kana == "" || tw.wordChunks == [] then tw
    else
      var wordChunks := ParseKanaChunks(t, Current, FirstLineTokens(parse(RebuiltWord(tw))), charPoint);
      var made := CreateTypingWord(wordChunks, Some(tw.correct), None);
      made.(nextChunk := made.nextChunk.(point := tw.nextChunk.point))
  }

  /**
   * What a rebuild keeps and what it replaces: the typed text and the current score stay,
   * the chunks are those the current builder makes of the rebuilt word, and the session
   * starts again at its first chunk.
   */
  lemma RecreateKeepsProgress(t: Tables, parse: string -> seq<seq<string>>, tw: TypingWord, charPoint: int)
    requires tw.nextChunk.kana != "" && tw.wordChunks != []
    ensures var r := RecreateTypingWord(t, parse, tw, charPoint);
            var cs := ParseKanaChunks(t, Current, FirstLineTokens(parse(RebuiltWord(tw))), charPoint);
            r.correct == tw.correct &&
            r.nextChunk.point == tw.nextChunk.point &&
            r.wordChunks == cs &&
            (cs != [] ==> r.nextChunk == cs[0].(point := tw.nextChunk.point) && r.wordChunksIndex == 1) &&
            (cs == [] ==> r.nextChunk == NO_CHUNK.(point := tw.nextChunk.point) && r.wordChunksIndex == 0) &&
            r.originalDakutenChar.None?
  {
  }

  /** The rebuilt word starts with what is left of the current chunk and is never empty. */
  lemma RebuiltWordStart(tw: TypingWord)
    requires tw.nextChunk.kana != ""
    ensures RebuiltWord(tw) != ""
    ensures tw.originalDakutenChar.None? ==>
              StartsWith(RebuiltWord(tw), tw.nextChunk.kana)
    ensures tw.originalDakutenChar.Some? ==>
              RebuiltWord(tw)[0] == tw.originalDakutenChar.value
  {
    var w := RebuiltWord(tw);
    var tail := Concat(Kanas(SliceFrom(tw.wordChunks, tw.wordChunksIndex)));
    if tw.originalDakutenChar.None? {
      assert w == tw.nextChunk.kana + tail;
      assert w[..|tw.nextChunk.kana|] == tw.nextChunk.kana;
    }
  }

  // ---------------------------------------------------------------------------------------
  // createDisplayWord
  // ---------------------------------------------------------------------------------------

  const LOW_MACRON: char := '\U{02CD}'
  const THREE_PER_EM_SPACE: char := '\U{2004}'

  /** `replaceAllSpaceWithLowMacron`: every ASCII space shown as a low macron. */
  function ReplaceAllSpaceWithLowMacron(text: string): (r: string)
    ensures |r| == |text| && ' ' !in r
    ensures forall i :: 0 <= i < |text| && text[i] != ' ' ==> r[i] == text[i]
    ensures forall i :: 0 <= i < |text| && text[i] == ' ' ==> r[i] == LOW_MACRON
  {
    ReplaceAll(text, ' ', LOW_MACRON)
  }

  /** `replaceAllSpaceWithThreePerEmSpace`: every ASCII space shown as a three-per-em space. */
  function ReplaceAllSpaceWithThreePerEmSpace(text: string): (r: string)
    ensures |r| == |text| && ' ' !in r
    ensures forall i :: 0 <= i < |text| && text[i] != ' ' ==> r[i] == text[i]
    ensures forall i :: 0 <= i < |text| && text[i] == ' ' ==> r[i] == THREE_PER_EM_SPACE
  {
    ReplaceAll(text, ' ', THREE_PER_EM_SPACE)
  }

  /** Replacing the stand-in back gives the original text when the text had no stand-in. */
  lemma SpaceReplacementRoundTrip(text: string)
    requires LOW_MACRON !in text && THREE_PER_EM_SPACE !in text
    ensures ReplaceAll(ReplaceAllSpaceWithLowMacron(text), LOW_MACRON, ' ') == text
    ensures ReplaceAll(ReplaceAllSpaceWithThreePerEmSpace(text), THREE_PER_EM_SPACE, ' ') == text
  {
    var a := ReplaceAll(ReplaceAllSpaceWithLowMacron(text), LOW_MACRON, ' ');
    var b := ReplaceAll(ReplaceAllSpaceWithThreePerEmSpace(text), THREE_PER_EM_SPACE, ' ');
    assert forall i :: 0 <= i < |text| ==> a[i] == text[i];
    assert forall i :: 0 <= i < |text| ==> b[i] == text[i];
  }

  /** `maxLength ? s.slice(0, maxLength) : s`: an absent or zero length means no cut. */
  function Truncate(s: string, maxLength: Option<int>): (r: string)
    ensures maxLength.None? || maxLength == Some(0) ==> r == s
    ensures maxLength.Some? && maxLength.value > 0 ==>
              |r| == (if maxLength.value < |s| then maxLength.value else |s|) && r == s[..|r|]
  {
    if maxLength.Some? && maxLength.value != 0 then SliceTo(s, maxLength.value) else s
  }

  /** What `createDisplayWord` returns. */
  datatype DisplayWord = DisplayWord(correct: KanaRoma, nextChar: KanaRoma, remainWord: KanaRoma)

  /** `createDisplayWord(typingWord, { remainWord: { maxLength } })`. */
  function CreateDisplayWord(tw: TypingWord, maxLength: Option<int>): (r: DisplayWord)
    ensures r.correct.kana == ReplaceAllSpaceWithLowMacron(tw.correct.kana)
    ensures r.correct.roma == ReplaceAllSpaceWithLowMacron(tw.correct.roma)
    ensures r.nextChar.kana == ReplaceAllSpaceWithThreePerEmSpace(tw.nextChunk.kana)
    ensures r.nextChar.roma == ReplaceAllSpaceWithThreePerEmSpace(FirstPattern(tw.nextChunk))
  {
    var remainKana := Concat(Kanas(tw.wordChunks));
    var remainRoma := Concat(FirstPatterns(tw.wordChunks));
    DisplayWord(
      KanaRoma(ReplaceAllSpaceWithLowMacron(tw.correct.kana), ReplaceAllSpaceWithLowMacron(tw.correct.roma)),
      KanaRoma(ReplaceAllSpaceWithThreePerEmSpace(tw.nextChunk.kana),
               ReplaceAllSpaceWithThreePerEmSpace(FirstPattern(tw.nextChunk))),
      KanaRoma(ReplaceAllSpaceWithThreePerEmSpace(Truncate(remainKana, maxLength)),
               ReplaceAllSpaceWithThreePerEmSpace(Truncate(remainRoma, maxLength))))
  }

  /**
   * The remaining word on display: the kana and first spellings of all of `wordChunks`
   * (the index is not consulted), cut to `maxLength` characters when that is positive,
   * with spaces shown as three-per-em spaces.
   */
  lemma DisplayRemainWord(tw: TypingWord, maxLength: Option<int>)
    ensures var r := CreateDisplayWord(tw, maxLength);
            var kana, roma := Concat(Kanas(tw.wordChunks)), Concat(FirstPatterns(tw.wordChunks));
            ' ' !in r.remainWord.kana && ' ' !in r.remainWord.roma &&
            (maxLength.None? || maxLength == Some(0) ==>
               r.remainWord.kana == ReplaceAllSpaceWithThreePerEmSpace(kana) &&
               r.remainWord.roma == ReplaceAllSpaceWithThreePerEmSpace(roma)) &&
            (maxLength.Some? && maxLength.value > 0 ==>
               |r.remainWord.kana| <= maxLength.value && |r.remainWord.roma| <= maxLength.value &&
               r.remainWord.kana == ReplaceAllSpaceWithThreePerEmSpace(kana[..|r.remainWord.kana|]) &&
               r.remainWord.roma == ReplaceAllSpaceWithThreePerEmSpace(roma[..|r.remainWord.roma|]))
  {
  }

  /** No display string contains an ASCII space. */
  lemma DisplayHasNoSpaces(tw: TypingWord, maxLength: Option<int>)
    ensures var r := CreateDisplayWord(tw, maxLength);
            ' ' !in r.correct.kana && ' ' !in r.correct.roma &&
            ' ' !in r.nextChar.kana && ' ' !in r.nextChar.roma
  {
  }
}
