/**
 * `buildTypingMap`: a chart's lines, each with a time, lyrics and a kana reading, become
 * the lines the engine types. The readings are tokenized together; every line gets its
 * tokens, its kana word and its typing chunks, and a line that can be typed (it has
 * tokens, is not the closing "end" line and has a line after it) also gets its note
 * counts, its keystrokes per minute and its number among such lines.
 */
module TypingMap {
  import opened Wrappers
  import opened Text
  import opened Chunks
  import opened Tables
  import opened Utils
  import opened Tokenizer

  /** `MapJsonLine`: one line of the chart; `time` is the line's start, already a number. */
  datatype MapJsonLine<O> = MapJsonLine(time: real, lyrics: string, word: string, options: O)

  /** A kana / romaji pair of counts (`notes` and `kpm`). */
  datatype Notes = Notes(kana: int, roma: int)

  /** One built line; `lineCount` is present on the lines that are typed. */
  datatype BuiltLine<O> = BuiltLine(
    time: real,
    lyrics: string,
    kanaWord: string,
    options: O,
    word: seq<Chunk>,
    kpm: Notes,
    notes: Notes,
    lineCount: Option<nat>)

  /** `calcLineNotes`: kana notes count a voiced kana twice; romaji notes follow the first spellings. */
  function CalcLineNotes(word: seq<Chunk>): (r: Notes)
    ensures |Concat(Kanas(word))| <= r.kana <= 2 * |Concat(Kanas(word))|
    ensures r.kana == |Concat(Kanas(word))| <==> forall i :: 0 <= i < |Concat(Kanas(word))| ==> Concat(Kanas(word))[i] !in DAKUON_CHARS
  {
    CountKanaBounds(Concat(Kanas(word)));
    Notes(CountKanaWordWithDakuonSplit(Concat(Kanas(word))), |Concat(FirstPatterns(word))|)
  }

  /** `mapJson.map(line => line.word).join("\n")`. */
  function JoinWords<O>(mapJson: seq<MapJsonLine<O>>): string {
    if mapJson == [] then "" else Join(Words(mapJson), '\n')
  }

  function Words<O>(mapJson: seq<MapJsonLine<O>>): (r: seq<string>)
    ensures |r| == |mapJson|
    ensures forall i :: 0 <= i < |mapJson| ==> r[i] == mapJson[i].word
  {
    seq(|mapJson|, i requires 0 <= i < |mapJson| => mapJson[i].word)
  }

  /** Whether line `i` is typed: it has tokens, it is not "end", and a line follows it. */
  predicate Scored<O>(mapJson: seq<MapJsonLine<O>>, tokens: seq<seq<string>>, i: nat)
    requires i < |mapJson| && i < |tokens|
  {
    |tokens[i]| > 0 && mapJson[i].lyrics != "end" && i + 1 < |mapJson|
  }

  /** How many of the first `n` lines are typed. */
  function ScoredCount<O>(mapJson: seq<MapJsonLine<O>>, tokens: seq<seq<string>>, n: nat): (r: nat)
    requires n <= |mapJson| && n <= |tokens|
    ensures r <= n
  {
    if n == 0 then 0
    else ScoredCount(mapJson, tokens, n - 1) + (if Scored(mapJson, tokens, n - 1) then 1 else 0)
  }

  /** The built form of line `i`, given the tokens of every line. */
  function LineEntry<O>(mapJson: seq<MapJsonLine<O>>, tokens: seq<seq<string>>, i: nat, charPoint: int,
                        generate: (seq<string>, int) -> seq<Chunk>, lineKpm: (Notes, real) -> Notes): BuiltLine<O>
    requires i < |mapJson| && i < |tokens|
  {
    var ml := mapJson[i];
    var word := generate(tokens[i], charPoint);
    if Scored(mapJson, tokens, i) then
      var notes := CalcLineNotes(word);
      BuiltLine(ml.time, ml.lyrics, Concat(tokens[i]), ml.options, word,
                lineKpm(notes, mapJson[i + 1].time - ml.time), notes, Some(ScoredCount(mapJson, tokens, i + 1)))
    else
      BuiltLine(ml.time, ml.lyrics, Concat(tokens[i]), ml.options, word, Notes(0, 0), Notes(0, 0), None)
  }

  /** The entries of the built map, given every line's tokens. */
  predicate BuiltFrom<O(==)>(wordsData: seq<BuiltLine<O>>, mapJson: seq<MapJsonLine<O>>, tokens: seq<seq<string>>,
                         charPoint: int, generate: (seq<string>, int) -> seq<Chunk>, lineKpm: (Notes, real) -> Notes)
  {
    |wordsData| == |Zip(mapJson, tokens)| &&
    forall i :: 0 <= i < |wordsData| ==> wordsData[i] == LineEntry(mapJson, tokens, i, charPoint, generate, lineKpm)
  }

  /** The loop of `buildTypingMap` over the chart lines paired with their tokens. */
  method BuildLines<O(==)>(mapJson: seq<MapJsonLine<O>>, kanaChunkWords: seq<seq<string>>, charPoint: int,
                       generate: (seq<string>, int) -> seq<Chunk>, lineKpm: (Notes, real) -> Notes)
    returns (wordsData: seq<BuiltLine<O>>)
    ensures BuiltFrom(wordsData, mapJson, kanaChunkWords, charPoint, generate, lineKpm)
  {
    wordsData := [];
    var lineLength := 0;
    var pairs := Zip(mapJson, kanaChunkWords);
    var i := 0;
    while i < |pairs|
      invariant i <= |pairs| && |wordsData| == i
      invariant lineLength == ScoredCount(mapJson, kanaChunkWords, i)
      invariant forall j :: 0 <= j < i ==> wordsData[j] == LineEntry(mapJson, kanaChunkWords, j, charPoint, generate, lineKpm)
    {
      var (mapLine, kanaChunkWord) := pairs[i];
      assert mapLine == mapJson[i] && kanaChunkWord == kanaChunkWords[i];
      var word := generate(kanaChunkWord, charPoint);
      var hasWord := |kanaChunkWord| > 0;
      var line;
      if hasWord && mapLine.lyrics != "end" && i + 1 < |mapJson| {
        lineLength := lineLength + 1;
        var notes := CalcLineNotes(word);
        var kpm := lineKpm(notes, mapJson[i + 1].time - mapLine.time);
        line := BuiltLine(mapLine.time, mapLine.lyrics, Concat(kanaChunkWord), mapLine.options,
                          word, kpm, notes, Some(lineLength));
        assert Scored(mapJson, kanaChunkWords, i);
      } else {
        line := BuiltLine(mapLine.time, mapLine.lyrics, Concat(kanaChunkWord), mapLine.options,
                          word, Notes(0, 0), Notes(0, 0), None);
        assert !Scored(mapJson, kanaChunkWords, i);
      }
      assert line == LineEntry(mapJson, kanaChunkWords, i, charPoint, generate, lineKpm);
      EntriesSnoc(wordsData, line, mapJson, kanaChunkWords, charPoint, generate, lineKpm);
      wordsData := wordsData + [line];
      i := i + 1;
    }
  }

  /** Appending the entry of the next line keeps every entry the entry of its line. */
  lemma EntriesSnoc<O>(wordsData: seq<BuiltLine<O>>, line: BuiltLine<O>, mapJson: seq<MapJsonLine<O>>,
                       tokens: seq<seq<string>>, charPoint: int, generate: (seq<string>, int) -> seq<Chunk>,
                       lineKpm: (Notes, real) -> Notes)
    requires |wordsData| < |mapJson| && |wordsData| < |tokens|
    requires forall j :: 0 <= j < |wordsData| ==> wordsData[j] == LineEntry(mapJson, tokens, j, charPoint, generate, lineKpm)
    requires line == LineEntry(mapJson, tokens, |wordsData|, charPoint, generate, lineKpm)
    ensures forall j :: 0 <= j < |wordsData| + 1 ==>
              (wordsData + [line])[j] == LineEntry(mapJson, tokens, j, charPoint, generate, lineKpm)
  {
  }

  /**
   * `buildTypingMap`. Building a line's chunks (`generateTypingWord`) and its keystrokes
   * per minute (`calcLineKpm`, floating point) are parameters.
   */
  method BuildTypingMap<O(==)>(t: Tables, mapJson: seq<MapJsonLine<O>>, charPoint: int,
                           generate: (seq<string>, int) -> seq<Chunk>, lineKpm: (Notes, real) -> Notes)
    returns (wordsData: seq<BuiltLine<O>>)
    ensures BuiltFrom(wordsData, mapJson, SentenceToKanaChunkWords(t, JoinWords(mapJson)), charPoint, generate, lineKpm)
  {
    var kanaChunkWords := SentenceToKanaChunkWords(t, JoinWords(mapJson));
    wordsData := BuildLines(mapJson, kanaChunkWords, charPoint, generate, lineKpm);
  }

  // ---------------------------------------------------------------------------------------
  // Properties
  // ---------------------------------------------------------------------------------------

  /** Joining lines that hold no line break and splitting at line breaks gives the lines back. */
  lemma {:induction false} SplitJoin(parts: seq<string>)
    requires |parts| >= 1 && forall i :: 0 <= i < |parts| ==> '\n' !in parts[i]
    ensures Split(Join(parts, '\n'), '\n') == parts
  {
    if |parts| == 1 {
      SplitWithout(parts[0], '\n');
    } else {
      SplitJoin(parts[1..]);
      SplitAfterFirst(parts[0], Join(parts[1..], '\n'), '\n');
    }
  }

  /**
   * When no reading holds a line break, every line of the chart is built, in order, and
   * its kana word is its reading with the tab characters removed.
   */
  lemma BuiltLinePerChartLine<O>(t: Tables, mapJson: seq<MapJsonLine<O>>)
    requires PlainVocabulary(t)
    requires forall i :: 0 <= i < |mapJson| ==> '\n' !in mapJson[i].word
    ensures var tokens := SentenceToKanaChunkWords(t, JoinWords(mapJson));
            |Zip(mapJson, tokens)| == |mapJson| &&
            forall i :: 0 <= i < |mapJson| ==> Concat(tokens[i]) == RemoveAll(mapJson[i].word, '\t')
  {
    var tokens := SentenceToKanaChunkWords(t, JoinWords(mapJson));
    if mapJson != [] {
      var words := Words(mapJson);
      SplitJoin(words);
      SentenceLines(t, JoinWords(mapJson));
      forall i | 0 <= i < |mapJson|
        ensures Concat(tokens[i]) == RemoveAll(mapJson[i].word, '\t')
      {
        TokensSpellLine(t, words[i]);
      }
    }
  }

  /** No line between `i` and `j` is typed, so the count does not move. */
  lemma {:induction false} ScoredCountFlat<O>(mapJson: seq<MapJsonLine<O>>, tokens: seq<seq<string>>, i: nat, j: nat)
    requires i <= j <= |mapJson| && j <= |tokens|
    requires forall m :: i <= m < j ==> !Scored(mapJson, tokens, m)
    ensures ScoredCount(mapJson, tokens, j) == ScoredCount(mapJson, tokens, i)
  {
    if i < j {
      ScoredCountFlat(mapJson, tokens, i, j - 1);
    }
  }

  /** The count never goes down. */
  lemma {:induction false} ScoredCountMonotone<O>(mapJson: seq<MapJsonLine<O>>, tokens: seq<seq<string>>, i: nat, j: nat)
    requires i <= j <= |mapJson| && j <= |tokens|
    ensures ScoredCount(mapJson, tokens, i) <= ScoredCount(mapJson, tokens, j)
  {
    if i < j {
      ScoredCountMonotone(mapJson, tokens, i, j - 1);
    }
  }

  /** A typed line counts one more than every line before it. */
  lemma ScoredCountStrict<O>(mapJson: seq<MapJsonLine<O>>, tokens: seq<seq<string>>, i: nat, j: nat)
    requires i < j < |mapJson| && j < |tokens| && Scored(mapJson, tokens, j)
    ensures ScoredCount(mapJson, tokens, i + 1) < ScoredCount(mapJson, tokens, j + 1)
  {
    ScoredCountMonotone(mapJson, tokens, i + 1, j);
    assert ScoredCount(mapJson, tokens, j + 1) == ScoredCount(mapJson, tokens, j) + 1;
  }

  /** What one built entry says about its line being typed. */
  lemma EntryCount<O>(wordsData: seq<BuiltLine<O>>, mapJson: seq<MapJsonLine<O>>, tokens: seq<seq<string>>,
                      charPoint: int, generate: (seq<string>, int) -> seq<Chunk>, lineKpm: (Notes, real) -> Notes, i: nat)
    requires BuiltFrom(wordsData, mapJson, tokens, charPoint, generate, lineKpm)
    requires i < |wordsData|
    ensures i < |mapJson| && i < |tokens|
    ensures Scored(mapJson, tokens, i) <==> wordsData[i].lineCount.Some?
    ensures Scored(mapJson, tokens, i) ==> wordsData[i].lineCount.value == ScoredCount(mapJson, tokens, i + 1)
    ensures !Scored(mapJson, tokens, i) ==> wordsData[i].notes == Notes(0, 0) && wordsData[i].kpm == Notes(0, 0)
  {
    assert wordsData[i] == LineEntry(mapJson, tokens, i, charPoint, generate, lineKpm);
  }

  /** A line is numbered exactly when it is typed; a line not typed has no notes and no keystroke rate. */
  lemma UntypedLinesScoreNothing<O>(wordsData: seq<BuiltLine<O>>, mapJson: seq<MapJsonLine<O>>, tokens: seq<seq<string>>,
                                    charPoint: int, generate: (seq<string>, int) -> seq<Chunk>, lineKpm: (Notes, real) -> Notes)
    requires BuiltFrom(wordsData, mapJson, tokens, charPoint, generate, lineKpm)
    ensures forall i :: 0 <= i < |wordsData| ==>
              i < |mapJson| && i < |tokens| &&
              (Scored(mapJson, tokens, i) <==> wordsData[i].lineCount.Some?) &&
              (!Scored(mapJson, tokens, i) ==> wordsData[i].notes == Notes(0, 0) && wordsData[i].kpm == Notes(0, 0))
  {
    forall i | 0 <= i < |wordsData|
      ensures i < |mapJson| && i < |tokens| &&
              (Scored(mapJson, tokens, i) <==> wordsData[i].lineCount.Some?) &&
              (!Scored(mapJson, tokens, i) ==> wordsData[i].notes == Notes(0, 0) && wordsData[i].kpm == Notes(0, 0))
    {
      EntryCount(wordsData, mapJson, tokens, charPoint, generate, lineKpm, i);
    }
  }

  /** The first typed line is line 1. */
  lemma FirstTypedLineIsOne<O>(wordsData: seq<BuiltLine<O>>, mapJson: seq<MapJsonLine<O>>, tokens: seq<seq<string>>,
                               charPoint: int, generate: (seq<string>, int) -> seq<Chunk>, lineKpm: (Notes, real) -> Notes)
    requires BuiltFrom(wordsData, mapJson, tokens, charPoint, generate, lineKpm)
    ensures forall j :: (0 <= j < |wordsData| && wordsData[j].lineCount.Some? &&
                         (forall m :: 0 <= m < j ==> wordsData[m].lineCount.None?)) ==>
              wordsData[j].lineCount == Some(1)
  {
    forall j | 0 <= j < |wordsData| && wordsData[j].lineCount.Some? &&
               (forall m :: 0 <= m < j ==> wordsData[m].lineCount.None?)
      ensures wordsData[j].lineCount == Some(1)
    {
      EntryCount(wordsData, mapJson, tokens, charPoint, generate, lineKpm, j);
      forall m | 0 <= m < j
        ensures !Scored(mapJson, tokens, m)
      {
        EntryCount(wordsData, mapJson, tokens, charPoint, generate, lineKpm, m);
      }
      ScoredCountFlat(mapJson, tokens, 0, j);
    }
  }

  /** Each typed line is numbered one more than the typed line before it. */
  lemma TypedLinesConsecutive<O>(wordsData: seq<BuiltLine<O>>, mapJson: seq<MapJsonLine<O>>, tokens: seq<seq<string>>,
                                 charPoint: int, generate: (seq<string>, int) -> seq<Chunk>, lineKpm: (Notes, real) -> Notes)
    requires BuiltFrom(wordsData, mapJson, tokens, charPoint, generate, lineKpm)
    ensures forall i, j :: (0 <= i < j < |wordsData| && wordsData[i].lineCount.Some? && wordsData[j].lineCount.Some? &&
                            (forall m :: i < m < j ==> wordsData[m].lineCount.None?)) ==>
              wordsData[j].lineCount.value == wordsData[i].lineCount.value + 1
  {
    forall i, j | 0 <= i < j < |wordsData| && wordsData[i].lineCount.Some? && wordsData[j].lineCount.Some? &&
                  (forall m :: i < m < j ==> wordsData[m].lineCount.None?)
      ensures wordsData[j].lineCount.value == wordsData[i].lineCount.value + 1
    {
      ConsecutivePair(wordsData, mapJson, tokens, charPoint, generate, lineKpm, i, j);
    }
  }

  /** `TypedLinesConsecutive` for one pair of typed lines with only untyped lines between. */
  lemma ConsecutivePair<O>(wordsData: seq<BuiltLine<O>>, mapJson: seq<MapJsonLine<O>>, tokens: seq<seq<string>>,
                           charPoint: int, generate: (seq<string>, int) -> seq<Chunk>, lineKpm: (Notes, real) -> Notes,
                           i: nat, j: nat)
    requires BuiltFrom(wordsData, mapJson, tokens, charPoint, generate, lineKpm)
    requires i < j < |wordsData| && wordsData[i].lineCount.Some? && wordsData[j].lineCount.Some?
    requires forall m :: i < m < j ==> wordsData[m].lineCount.None?
    ensures wordsData[j].lineCount.value == wordsData[i].lineCount.value + 1
  {
    EntryCount(wordsData, mapJson, tokens, charPoint, generate, lineKpm, i);
    EntryCount(wordsData, mapJson, tokens, charPoint, generate, lineKpm, j);
    forall m | i < m < j
      ensures !Scored(mapJson, tokens, m)
    {
      EntryCount(wordsData, mapJson, tokens, charPoint, generate, lineKpm, m);
    }
    ScoredCountFlat(mapJson, tokens, i + 1, j);
  }

  /** Later typed lines have larger numbers. */
  lemma TypedLinesIncreasing<O>(wordsData: seq<BuiltLine<O>>, mapJson: seq<MapJsonLine<O>>, tokens: seq<seq<string>>,
                                charPoint: int, generate: (seq<string>, int) -> seq<Chunk>, lineKpm: (Notes, real) -> Notes)
    requires BuiltFrom(wordsData, mapJson, tokens, charPoint, generate, lineKpm)
    ensures forall i, j :: 0 <= i < j < |wordsData| && wordsData[i].lineCount.Some? && wordsData[j].lineCount.Some? ==>
              wordsData[i].lineCount.value < wordsData[j].lineCount.value
  {
    forall i, j | 0 <= i < j < |wordsData| && wordsData[i].lineCount.Some? && wordsData[j].lineCount.Some?
      ensures wordsData[i].lineCount.value < wordsData[j].lineCount.value
    {
      EntryCount(wordsData, mapJson, tokens, charPoint, generate, lineKpm, i);
      EntryCount(wordsData, mapJson, tokens, charPoint, generate, lineKpm, j);
      ScoredCountStrict(mapJson, tokens, i, j);
    }
  }
}
