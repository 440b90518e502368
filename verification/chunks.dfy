/**
 * The typeable unit the engine works with (`WordChunk`), shared by the builders, the
 * session constructors and the keystroke matchers.
 */
module Chunks {
  import opened Wrappers

  /** `WordChunk["type"]`; `NoType` stands for `undefined`. */
  datatype CharType = Kana | Alphabet | Num | Space | Symbol | NoType

  /**
   * One chunk: the kana it spells, the romaji spellings that type it (the first is the
   * one shown), its score, its character class, the arrow symbol it carries when the kana
   * keyboard cannot type it, and, while a voiced kana is half typed on the kana keyboard,
   * the voiced kana itself (the kana matcher's `orginalDakuChar`; the `originalDakutenChar`
   * that a rebuild reads is a different field, kept on `TypingWord`).
   */
  datatype Chunk = Chunk(
    kana: string,
    romaPatterns: seq<string>,
    point: int,
    kind: CharType,
    unsupportedSymbol: Option<string>,
    originalDakuChar: Option<char>)

  /** The chunk a builder returns for an empty token list. */
  const EMPTY_WORD_CHUNK: Chunk := Chunk("", [""], 0, NoType, None, None)

  /** `romaPatterns[0] ?? ""`. */
  function FirstPattern(c: Chunk): (r: string)
    ensures |c.romaPatterns| > 0 ==> r == c.romaPatterns[0]
    ensures |c.romaPatterns| == 0 ==> r == ""
  {
    if |c.romaPatterns| > 0 then c.romaPatterns[0] else ""
  }

  /** The kana of each chunk, in order. */
  function Kanas(cs: seq<Chunk>): (r: seq<string>)
    ensures |r| == |cs|
    ensures forall i :: 0 <= i < |cs| ==> r[i] == cs[i].kana
  {
    seq(|cs|, i requires 0 <= i < |cs| => cs[i].kana)
  }

  /** The first romaji pattern of each chunk, in order. */
  function FirstPatterns(cs: seq<Chunk>): (r: seq<string>)
    ensures |r| == |cs|
    ensures forall i :: 0 <= i < |cs| ==> r[i] == FirstPattern(cs[i])
  {
    seq(|cs|, i requires 0 <= i < |cs| => FirstPattern(cs[i]))
  }
}
