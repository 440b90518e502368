/**
 * The session rebuild composed with the tokenizer and the chunk builder: when the word
 * splitter is the line tokenizer, the rebuilt chunks spell exactly the rebuilt word.
 */
module SessionProperties {
  import opened Text
  import opened Chunks
  import opened Tables
  import opened Tokenizer
  import opened ChunkBuilder
  import opened BuilderProperties
  import opened Session

  /**
   * With the line tokenizer as the splitter, a word free of line breaks and tabs whose
   * tokens can all be emitted is rebuilt into chunks that spell it, and the session starts
   * at the chunk after the first, keeping the typed text and the current score.
   */
  lemma RecreateSpellsRebuiltWord(t: Tables, tw: TypingWord, charPoint: int)
    requires PlainVocabulary(t)
    requires tw.nextChunk.kana != "" && tw.wordChunks != []
    requires '\n' !in RebuiltWord(tw) && '\t' !in RebuiltWord(tw)
    requires forall k :: k in TokenizeLine(t, RebuiltWord(tw)) ==> Emittable(t, k)
    ensures var r := RecreateTypingWord(t, s => SentenceToKanaChunkWords(t, s), tw, charPoint);
            Concat(Kanas(r.wordChunks)) == RebuiltWord(tw) &&
            r.wordChunksIndex == 1 && r.correct == tw.correct && r.nextChunk.point == tw.nextChunk.point
  {
    var w := RebuiltWord(tw);
    var parse := s => SentenceToKanaChunkWords(t, s);
    RebuiltWordStart(tw);
    SentenceLines(t, w);
    SplitWithout(w, '\n');
    var tokens := TokenizeLine(t, w);
    assert FirstLineTokens(parse(w)) == tokens;
    TokensSpellLine(t, w);
    RemoveAllAbsent(w, '\t');
    assert Concat(tokens) == w;
    assert tokens != [];
    TokensAreKeysOrCharacters(t, w);
    assert forall j :: 0 <= j < |tokens| ==> tokens[j] == SentenceToKanaChunkWords(t, w)[0][j];
    ParseSpellsTokens(t, Current, tokens, charPoint);
    RecreateKeepsProgress(t, parse, tw, charPoint);
  }
}
