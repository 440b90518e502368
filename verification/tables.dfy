/**
 * The static lookup tables the engine consumes (kana to romaji, symbol to romaji, the
 * alphabet and digit lists, the keyboard code/key to kana maps, the keyboard characters).
 * Their contents live outside the modelled code, so the model takes them as a parameter:
 * a property holds for every choice of tables unless its lemma states a requirement on them.
 * A JavaScript `Map` keeps insertion order, so each map is an ordered association list.
 */
module Tables {
  import opened Wrappers

  type Entry = (string, seq<string>)

  /** The keys of an association list, in insertion order (`Array.from(map.keys())`). */
  function Keys(m: seq<Entry>): (r: seq<string>)
    ensures |r| == |m|
    ensures forall i :: 0 <= i < |m| ==> r[i] == m[i].0
  {
    seq(|m|, i requires 0 <= i < |m| => m[i].0)
  }

  /**
   * `map.get(k)`. A `Map` built from a list of entries keeps, for a repeated key, the value
   * of the last entry with that key.
   */
  function Get(m: seq<Entry>, k: string): (r: Option<seq<string>>)
    ensures r.Some? <==> k in Keys(m)
    ensures r.Some? ==> exists i :: 0 <= i < |m| && m[i] == (k, r.value) && k !in Keys(m[i + 1..])
  {
    if m == [] then None
    else
      var r := Get(m[1..], k);
      KeysCons(m);
      if r.Some? then
        var i :| 0 <= i < |m[1..]| && m[1..][i] == (k, r.value) && k !in Keys(m[1..][i + 1..]);
        LaterInTail(m, i);
        r
      else if m[0].0 == k then Some(m[0].1)
      else None
  }

  /** Entry `i` of the tail is entry `i + 1` of the list, and what follows it is the same. */
  lemma LaterInTail(m: seq<Entry>, i: nat)
    requires i < |m| - 1
    ensures m[1..][i] == m[i + 1] && Keys(m[1..][i + 1..]) == Keys(m[i + 2..])
  {
    assert m[1..][i + 1..] == m[i + 2..];
  }

  /** The keys of a non-empty list: its first key, then the keys of the rest. */
  lemma KeysCons(m: seq<Entry>)
    requires m != []
    ensures Keys(m) == [m[0].0] + Keys(m[1..])
  {
  }

  datatype Tables = Tables(
    romaMap: seq<Entry>,        // ROMA_MAP: kana spelling -> romaji patterns
    symbolMap: seq<Entry>,      // SYMBOL_TO_ROMA_MAP: symbol -> romaji patterns
    alphabetList: seq<string>,  // ALPHABET_LIST
    numList: seq<string>,       // NUM_LIST
    codeToKana: seq<Entry>,     // CODE_TO_KANA: KeyboardEvent.code -> kana
    keyToKana: seq<Entry>,      // KEY_TO_KANA: KeyboardEvent.key -> kana
    keyboardChars: seq<string>  // KEYBOARD_CHARS
  )

  /** The tokenizer's alternatives, in the order the pattern lists them. */
  function Vocabulary(t: Tables): seq<string> {
    Keys(t.romaMap) + Keys(t.symbolMap)
  }

  /** `ROMA_MAP.has(k) || SYMBOL_TO_ROMA_MAP.has(k)`. */
  predicate InVocabulary(t: Tables, k: string) {
    k in Keys(t.romaMap) || k in Keys(t.symbolMap)
  }

  /**
   * What the tokenizer relies on of its vocabulary: no key is empty and no key spans a
   * tab or a line break (the characters it uses as delimiters).
   */
  predicate PlainVocabulary(t: Tables) {
    forall k :: k in Vocabulary(t) ==> k != "" && '\t' !in k && '\n' !in k
  }
}
