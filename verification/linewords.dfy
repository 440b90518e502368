/**
 * The mutable state the keystroke matchers work on (`LineWord`): the typed text, the
 * current chunk and the list of chunks still to come, each an object of its own.
 *
 * The matchers copy a `LineWord` only shallowly (`{ ...lineWord }`), so a copy shares its
 * three objects with the caller's record: appending to the typed text, shifting the list
 * or rewriting the current chunk changes what the caller sees too. The classes below keep
 * that sharing. A chunk inside the list is referenced by nothing but the list, so the
 * list holds chunk values; the current chunk is an object, since the caller's record and
 * a copy can hold the same one.
 */
module LineWords {
  import opened Wrappers
  import opened Text
  import opened Chunks
  import opened Session

  /** `TypingKey`: the candidate characters of a keystroke, the key, its code and Shift. */
  datatype TypingKey = TypingKey(keys: seq<string>, key: string, code: string, shift: bool)

  /** The fields of a `KeyboardEvent` the engine reads. */
  datatype KeyEvent = KeyEvent(key: string, code: string, shiftKey: bool, keyCode: int, ctrlKey: bool, altKey: bool)

  /** `correct`: the kana and the romaji typed so far on the line. */
  class CorrectText {
    var kana: string
    var roma: string

    constructor (kana: string, roma: string)
      ensures this.kana == kana && this.roma == roma
    {
      this.kana := kana;
      this.roma := roma;
    }
  }

  /** The current chunk (`nextChunk`, `nextChar` in the roma matcher) as an object. */
  class ChunkCell {
    var kana: string
    var romaPatterns: seq<string>
    var point: int
    var kind: CharType
    var unsupportedSymbol: Option<string>
    var originalDakuChar: Option<char>

    constructor (c: Chunk)
      ensures Value() == c
    {
      kana := c.kana;
      romaPatterns := c.romaPatterns;
      point := c.point;
      kind := c.kind;
      unsupportedSymbol := c.unsupportedSymbol;
      originalDakuChar := c.originalDakuChar;
    }

    /** The chunk this object holds now. */
    function Value(): Chunk
      reads this
    {
      Chunk(kana, romaPatterns, point, kind, unsupportedSymbol, originalDakuChar)
    }
  }

  /** The chunks still to come (`wordChunks`, `word` in the roma matcher). */
  class ChunkList {
    var items: seq<Chunk>

    constructor (items: seq<Chunk>)
      ensures this.items == items
    {
      this.items := items;
    }

    /** `shift()`: the first chunk, removed, or `undefined` when there is none. */
    method Shift() returns (first: Option<Chunk>)
      modifies this
      ensures old(items) == [] ==> first.None? && items == []
      ensures old(items) != [] ==> first == Some(old(items)[0]) && items == old(items)[1..]
    {
      if items == [] {
        first := None;
      } else {
        first := Some(items[0]);
        items := items[1..];
      }
    }

    /** `splice(0, n)`: drop the first `n` chunks, or all of them when there are fewer. */
    method RemoveFirst(n: nat)
      modifies this
      ensures items == old(items)[if n < |old(items)| then n else |old(items)|..]
    {
      items := items[if n < |items| then n else |items|..];
    }

    /** `list[0].romaPatterns = patterns`. */
    method SetFirstPatterns(patterns: seq<string>)
      requires items != []
      modifies this
      ensures items == old(items)[0 := old(items)[0].(romaPatterns := patterns)]
    {
      items := items[0 := items[0].(romaPatterns := patterns)];
    }
  }

  /** The state of a line being typed, as the three objects it refers to. */
  class LineWord {
    const correct: CorrectText
    var nextChunk: ChunkCell
    const wordChunks: ChunkList

    /** `{ correct, nextChunk, wordChunks }`, also the shallow copy `{ ...lineWord }`. */
    constructor (correct: CorrectText, nextChunk: ChunkCell, wordChunks: ChunkList)
      ensures this.correct == correct && this.nextChunk == nextChunk && this.wordChunks == wordChunks
    {
      this.correct := correct;
      this.nextChunk := nextChunk;
      this.wordChunks := wordChunks;
    }

    /** The line this record shows now. */
    function Snapshot(): Line
      reads this, correct, nextChunk, wordChunks
    {
      Line(KanaRoma(correct.kana, correct.roma), nextChunk.Value(), wordChunks.items)
    }
  }

  /** A `LineWord` as a value: typed text, current chunk, chunks to come. */
  datatype Line = Line(correct: KanaRoma, next: Chunk, rest: seq<Chunk>)

  /**
   * What a matcher returns, on values: the returned line, what the caller's own current
   * chunk object holds afterwards (it may have been rewritten through the shared
   * reference), the accepted key, the rejected key and whether the chunk's score is due.
   */
  datatype Outcome = Outcome(
    line: Line,
    callerNext: Chunk,
    successKey: Option<string>,
    failKey: Option<string>,
    isUpdatePoint: bool)

  /** All the kana of a line, typed or not: typed text, current chunk, chunks to come. */
  function Typed(ln: Line): string {
    ln.correct.kana + ln.next.kana + Concat(Kanas(ln.rest))
  }

  /** Moving to the next chunk keeps `Typed`, whether one is left or the sentinel comes. */
  lemma {:induction false} AdvanceKeepsTyped(typed: string, kana: string, rest: seq<Chunk>)
    ensures var next := if |rest| > 0 then rest[0] else EMPTY_WORD_CHUNK;
            var tail := if |rest| > 0 then rest[1..] else [];
            (typed + kana) + next.kana + Concat(Kanas(tail)) == typed + kana + Concat(Kanas(rest))
  {
    if |rest| > 0 {
      assert Kanas(rest) == [rest[0].kana] + Kanas(rest[1..]);
    } else {
      assert Kanas(rest) == [];
    }
  }
}
