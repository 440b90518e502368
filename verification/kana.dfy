/**
 * The kana keystroke matcher (`kanaMakeInput`, `kanaInput` and its helpers). On a kana
 * keyboard a keystroke stands for one kana; a voiced kana (が, ぱ, …) takes two strokes,
 * its unvoiced base and then the mark ゛ or ゜. The value-level step `KanaStep` says what
 * one keystroke does to a line; the method `KanaInput` does it on the shared objects of a
 * `LineWord` and is proved to agree with it.
 */
module KanaInput {
  import opened Wrappers
  import opened Text
  import opened Chunks
  import opened Tables
  import opened Session
  import opened LineWords

  // ---------------------------------------------------------------------------------------
  // Building the candidate keys
  // ---------------------------------------------------------------------------------------

  /**
   * The full-width form of a character (`String.fromCharCode(code + 0xFEE0)`, wrapping at
   * 16 bits). A value in the surrogate range, which a `char` cannot hold, becomes U+FFFD.
   */
  function FullWidthChar(c: char): (r: char)
    ensures '!' <= c <= '~' ==> r as int == c as int + 0xFEE0
  {
    var v := (c as int + 0xFEE0) % 0x1_0000;
    if 0xD800 <= v < 0xE000 then '\U{FFFD}' else v as char
  }

  /**
   * `s.replace(s, ch => fullWidth(ch))`: the whole of `s` is replaced by the full-width
   * form of its first character; on the empty string the code is `NaN`, which gives NUL.
   */
  function FullWidth(s: string): (r: string)
    ensures |r| == 1
    ensures s != "" ==> r == [FullWidthChar(s[0])]
  {
    if s == "" then "\0" else [FullWidthChar(s[0])]
  }

  /** `keys[0] = v` on a JavaScript array: an empty array gets its first element. */
  function SetFirst(keys: seq<string>, v: string): (r: seq<string>)
    ensures |r| == if keys == [] then 1 else |keys|
    ensures r[0] == v && r[1..] == SliceFrom(keys, 1)
  {
    if keys == [] then [v] else keys[0 := v]
  }

  /** The keys the keyboard maps give: by code first (an empty entry counts), else by key, else `[""]`. */
  function MappedKeys(t: Tables, e: KeyEvent): (r: seq<string>)
    ensures e.code in Keys(t.codeToKana) ==> Get(t.codeToKana, e.code) == Some(r)
    ensures e.code !in Keys(t.codeToKana) && e.key in Keys(t.keyToKana) ==> Get(t.keyToKana, e.key) == Some(r)
    ensures e.code !in Keys(t.codeToKana) && e.key !in Keys(t.keyToKana) ==> r == [""]
  {
    match Get(t.codeToKana, e.code)
    case Some(ks) => ks
    case None => Get(t.keyToKana, e.key).GetOr([""])
  }

  /** What a key of the keyboard-character list adds: its lowercase and full-width forms. */
  function KeyboardExtras(t: Tables, key: string): (r: seq<string>)
    ensures key in t.keyboardChars ==> r == [Lower(key), FullWidth(Lower(key))]
    ensures key !in t.keyboardChars ==> r == []
  {
    if key in t.keyboardChars then [Lower(key), FullWidth(Lower(key))] else []
  }

  /** What Shift adds on the ATOK layout: the wi, we, small ka, small ke and small wa kana. */
  function ShiftAdditions(code: string): seq<string> {
    if code == "KeyV" then ["ゐ", "ヰ"]
    else if code == "Equal" then ["ゑ", "ヱ"]
    else if code == "KeyT" then ["ヵ"]
    else if code == "Quote" then ["ヶ"]
    else if code == "KeyF" then ["ゎ"]
    else []
  }

  /** Shift with E or Z: the small i or the small tsu replaces the first candidate. */
  function ShiftedFirst(code: string, base: seq<string>): seq<string> {
    if code == "KeyE" then SetFirst(base, "ぃ")
    else if code == "KeyZ" then SetFirst(base, "っ")
    else base
  }

  /** The candidates of a shifted keystroke. */
  function ShiftedKeys(code: string, base: seq<string>): seq<string> {
    if code == "Digit0" then ["を"]
    else ShiftedFirst(code, base) + ShiftAdditions(code)
  }

  /** The candidate kana `kanaMakeInput` builds for a keystroke. */
  function KanaKeys(t: Tables, e: KeyEvent): seq<string> {
    var base := MappedKeys(t, e);
    (if e.keyCode == 0 then ["ー", "￥", "\\"] else if e.shiftKey then ShiftedKeys(e.code, base) else base)
      + KeyboardExtras(t, e.key)
  }

  /**
   * The candidates, case by case: key code 0 gives the long-vowel mark and the two yen
   * signs; Shift with E or Z puts the small i or the small tsu first, Shift with 0 gives
   * only wo, Shift with V, =, T, ' or F appends its extra kana; without these the keyboard
   * maps decide; a keyboard character then adds its lowercase and full-width forms.
   */
  lemma KanaKeysCases(t: Tables, e: KeyEvent)
    ensures var keys := KanaKeys(t, e);
            var base := MappedKeys(t, e);
            var extras := KeyboardExtras(t, e.key);
            (e.keyCode == 0 ==> keys == ["ー", "￥", "\\"] + extras) &&
            (e.keyCode != 0 && !e.shiftKey ==> keys == base + extras) &&
            (e.keyCode != 0 && e.shiftKey ==>
               (e.code == "Digit0" ==> keys == ["を"] + extras) &&
               (e.code == "KeyE" ==> keys[0] == "ぃ" && keys[1..] == SliceFrom(base, 1) + extras) &&
               (e.code == "KeyZ" ==> keys[0] == "っ" && keys[1..] == SliceFrom(base, 1) + extras) &&
               (e.code == "KeyV" ==> keys == base + ["ゐ", "ヰ"] + extras) &&
               (e.code == "Equal" ==> keys == base + ["ゑ", "ヱ"] + extras) &&
               (e.code == "KeyT" ==> keys == base + ["ヵ"] + extras) &&
               (e.code == "Quote" ==> keys == base + ["ヶ"] + extras) &&
               (e.code == "KeyF" ==> keys == base + ["ゎ"] + extras) &&
               (e.code !in {"Digit0", "KeyE", "KeyZ", "KeyV", "Equal", "KeyT", "Quote", "KeyF"} ==>
                  keys == base + extras))
  {
    if e.keyCode != 0 && e.shiftKey {
      if e.code in {"Digit0", "KeyE", "KeyZ"} {
        ShiftedKeysCases(e.code, MappedKeys(t, e), KeyboardExtras(t, e.key));
      } else {
        ShiftedAtokCases(e.code, MappedKeys(t, e), KeyboardExtras(t, e.key));
      }
    }
  }

  /** `KanaKeysCases` for a shifted keystroke with 0, E or Z, whatever the mapped keys and the extras. */
  lemma ShiftedKeysCases(code: string, base: seq<string>, extras: seq<string>)
    ensures var keys := ShiftedKeys(code, base) + extras;
            (code == "Digit0" ==> keys == ["を"] + extras) &&
            (code == "KeyE" ==> keys[0] == "ぃ" && keys[1..] == SliceFrom(base, 1) + extras) &&
            (code == "KeyZ" ==> keys[0] == "っ" && keys[1..] == SliceFrom(base, 1) + extras)
  {
    if code == "KeyE" || code == "KeyZ" {
      var v := if code == "KeyE" then "ぃ" else "っ";
      assert ShiftAdditions(code) == [];
      assert ShiftedKeys(code, base) == SetFirst(base, v) + [];
      SetFirstThen(base, v, extras);
    }
  }

  /** Extras appended after `keys[0] = v` leave `v` first and follow the rest of `base`. */
  lemma SetFirstThen(base: seq<string>, v: string, extras: seq<string>)
    ensures var keys := SetFirst(base, v) + extras;
            keys[0] == v && keys[1..] == SliceFrom(base, 1) + extras
  {
    var first := SetFirst(base, v);
    assert (first + extras)[1..] == first[1..] + extras;
  }

  /** `KanaKeysCases` for a shifted keystroke with any other code. */
  lemma ShiftedAtokCases(code: string, base: seq<string>, extras: seq<string>)
    requires code !in {"Digit0", "KeyE", "KeyZ"}
    ensures var keys := ShiftedKeys(code, base) + extras;
            (code == "KeyV" ==> keys == base + ["ゐ", "ヰ"] + extras) &&
            (code == "Equal" ==> keys == base + ["ゑ", "ヱ"] + extras) &&
            (code == "KeyT" ==> keys == base + ["ヵ"] + extras) &&
            (code == "Quote" ==> keys == base + ["ヶ"] + extras) &&
            (code == "KeyF" ==> keys == base + ["ゎ"] + extras) &&
            (code !in {"KeyV", "Equal", "KeyT", "Quote", "KeyF"} ==> keys == base + extras)
  {
    assert ShiftedKeys(code, base) == base + ShiftAdditions(code);
    AdditionsCases(code);
  }

  /** Which codes `ShiftAdditions` extends, one by one. */
  lemma AdditionsCases(code: string)
    ensures code == "KeyV" ==> ShiftAdditions(code) == ["ゐ", "ヰ"]
    ensures code == "Equal" ==> ShiftAdditions(code) == ["ゑ", "ヱ"]
    ensures code == "KeyT" ==> ShiftAdditions(code) == ["ヵ"]
    ensures code == "Quote" ==> ShiftAdditions(code) == ["ヶ"]
    ensures code == "KeyF" ==> ShiftAdditions(code) == ["ゎ"]
    ensures code !in {"KeyV", "Equal", "KeyT", "Quote", "KeyF"} ==> ShiftAdditions(code) == []
  {
  }

  /** `kanaMakeInput`: the candidate kana of a keystroke on a kana keyboard. */
  method KanaMakeInput(t: Tables, e: KeyEvent) returns (r: TypingKey)
    ensures r == TypingKey(KanaKeys(t, e), Lower(e.key), e.code, e.shiftKey)
  {
    var keys := MappedKeys(t, e);
    if e.keyCode == 0 {
      keys := ["ー", "￥", "\\"];
    } else if e.shiftKey {
      keys := ShiftFirst(e.code, keys);
      keys := AtokAdditions(e.code, keys);
      if e.code == "Digit0" {
        keys := ["を"];
      }
    }
    if e.key in t.keyboardChars {
      keys := keys + [Lower(e.key), FullWidth(Lower(e.key))];
    }
    r := TypingKey(keys, Lower(e.key), e.code, e.shiftKey);
  }

  /** The first two tests of a shifted keystroke in `kanaMakeInput` (E and Z). */
  method ShiftFirst(code: string, keys: seq<string>) returns (r: seq<string>)
    ensures r == ShiftedFirst(code, keys)
  {
    r := keys;
    if code == "KeyE" {
      r := SetFirst(r, "ぃ");
    }
    if code == "KeyZ" {
      r := SetFirst(r, "っ");
    }
  }

  /** The ATOK additions of a shifted keystroke in `kanaMakeInput` (V, =, T, ' and F). */
  method AtokAdditions(code: string, keys: seq<string>) returns (r: seq<string>)
    ensures r == keys + ShiftAdditions(code)
  {
    r := keys;
    if code == "KeyV" {
      r := r + ["ゐ", "ヰ"];
    }
    if code == "Equal" {
      r := r + ["ゑ", "ヱ"];
    }
    if code == "KeyT" {
      r := r + ["ヵ"];
    }
    if code == "Quote" {
      r := r + ["ヶ"];
    }
    if code == "KeyF" {
      r := r + ["ゎ"];
    }
  }

  // ---------------------------------------------------------------------------------------
  // Voiced kana
  // ---------------------------------------------------------------------------------------

  /** `DAKU_LIST`: the kana written with ゛. */
  predicate InDakuList(c: char) {
    match c
    case 'ゔ' | 'が' | 'ぎ' | 'ぐ' | 'げ' | 'ご' | 'ざ' | 'じ' | 'ず' | 'ぜ' | 'ぞ'
       | 'だ' | 'ぢ' | 'づ' | 'で' | 'ど' | 'ば' | 'び' | 'ぶ' | 'べ' | 'ぼ' => true
    case _ => false
  }

  /** `HANDAKU_LIST`: the kana written with ゜. */
  predicate InHandakuList(c: char) {
    match c
    case 'ぱ' | 'ぴ' | 'ぷ' | 'ぺ' | 'ぽ' => true
    case _ => false
  }

  /** The first character of the canonical decomposition (NFD) of a voiced kana. */
  function NfdBase(c: char): char {
    match c
    case 'ゔ' => 'う'
    case 'が' => 'か' case 'ぎ' => 'き' case 'ぐ' => 'く' case 'げ' => 'け' case 'ご' => 'こ'
    case 'ざ' => 'さ' case 'じ' => 'し' case 'ず' => 'す' case 'ぜ' => 'せ' case 'ぞ' => 'そ'
    case 'だ' => 'た' case 'ぢ' => 'ち' case 'づ' => 'つ' case 'で' => 'て' case 'ど' => 'と'
    case 'ば' => 'は' case 'び' => 'ひ' case 'ぶ' => 'ふ' case 'べ' => 'へ' case 'ぼ' => 'ほ'
    case 'ぱ' => 'は' case 'ぴ' => 'ひ' case 'ぷ' => 'ふ' case 'ぺ' => 'へ' case 'ぽ' => 'ほ'
    case _ => c
  }

  /** `DAKU_HANDAKU_LIST.some(c => c === ch)`. */
  predicate IsDakuHandaku(c: char) {
    InDakuList(c) || InHandakuList(c)
  }

  /** `parseDakuHandaku`: the mark a voiced kana is finished with, its unvoiced base, the kana itself. */
  datatype DakuHandakuData = DakuHandakuData(mark: char, normalizedKana: char, originalKana: char)

  function ParseDakuHandaku(c: char): (r: DakuHandakuData)
    requires IsDakuHandaku(c)
    ensures r.originalKana == c
    ensures r.mark == '゛' <==> InDakuList(c)
    ensures r.mark == '゜' <==> InHandakuList(c)
  {
    DakuHandakuData(if InDakuList(c) then '゛' else '゜', NfdBase(c), c)
  }

  /**
   * The key a voiced kana is started with is its unvoiced base: one code point below for
   * ゛, two for ゜ (ゔ, outside that block, decomposes to う), and never itself voiced.
   */
  lemma NormalizedIsUnvoiced(c: char)
    requires IsDakuHandaku(c)
    ensures var r := ParseDakuHandaku(c);
            !IsDakuHandaku(r.normalizedKana) &&
            (c != 'ゔ' ==> c as int == r.normalizedKana as int + (if r.mark == '゛' then 1 else 2)) &&
            (c == 'ゔ' ==> r.normalizedKana == 'う')
  {
  }

  // ---------------------------------------------------------------------------------------
  // The keystroke on values
  // ---------------------------------------------------------------------------------------

  /** `keys.indexOf(x)`: the first position holding `x`, or -1. */
  function IndexOf(keys: seq<string>, x: string): (r: int)
    ensures -1 <= r < |keys|
    ensures r >= 0 ==> keys[r] == x && forall j :: 0 <= j < r ==> keys[j] != x
    ensures r < 0 <==> x !in keys
  {
    if keys == [] then -1
    else if keys[0] == x then 0
    else
      var i := IndexOf(keys[1..], x);
      if i < 0 then -1 else i + 1
  }

  /** The key a chunk waits for: the base of a voiced first kana, else the first character lowercased. */
  function ExpectedKey(kana: string): string {
    if |kana| > 0 && IsDakuHandaku(kana[0]) then [ParseDakuHandaku(kana[0]).normalizedKana]
    else Lower(SliceTo(kana, 1))
  }

  /** The text a matched key types: a mark stands for the voiced kana the chunk remembers. */
  function TypedKey(keys: seq<string>, index: int, remembered: Option<char>): (r: Option<string>)
    requires index < |keys|
    ensures r.Some? ==> 0 <= index
  {
    if index < 0 then None
    else if keys[index] == "゛" || keys[index] == "゜" then
      if remembered.Some? then Some([remembered.value]) else None
    else Some(keys[index])
  }

  /** `wordUpdate`: the typed key and the chunk's first spelling are appended, the next chunk comes up. */
  function KanaWordUpdated(typingKey: string, ln: Line): Line {
    var rp := ln.next.romaPatterns;
    Line(KanaRoma(ln.correct.kana + typingKey, ln.correct.roma + (if |rp| > 0 then rp[0] else "undefined")),
         if |ln.rest| > 0 then ln.rest[0] else EMPTY_WORD_CHUNK,
         if |ln.rest| > 0 then ln.rest[1..] else [])
  }

  /** `kanaInput` on values. */
  function KanaStep(t: Tables, k: TypingKey, ln: Line): Outcome {
    var kana := ln.next.kana;
    var first := SliceTo(kana, 1);
    var index := if first != "" then IndexOf(k.keys, ExpectedKey(kana)) else -1;
    var typingKey := TypedKey(k.keys, index, ln.next.originalDakuChar);
    if typingKey.None? || typingKey.value == "" then
      var failKey := if first in t.keyboardChars then Some(k.key)
                     else if |k.keys| > 0 then Some(k.keys[0]) else None;
      Outcome(ln, ln.next, Some(""), failKey, false)
    else if IsDakuHandaku(kana[0]) then
      var d := ParseDakuHandaku(kana[0]);
      var yoon := if |kana| >= 2 then [kana[1]] else "";
      var next := ln.next.(kana := [d.mark] + yoon, originalDakuChar := Some(d.originalKana));
      Outcome(Line(ln.correct, next, ln.rest), next, Some(k.keys[index]), None, false)
    else if |kana| >= 2 then
      var next := ln.next.(kana := kana[1..]);
      Outcome(Line(ln.correct.(kana := ln.correct.kana + typingKey.value), next, ln.rest),
              next, Some(k.keys[index]), None, false)
    else
      Outcome(KanaWordUpdated(typingKey.value, ln), ln.next, Some(k.keys[index]), None, true)
  }

  // ---------------------------------------------------------------------------------------
  // The keystroke on the shared objects
  // ---------------------------------------------------------------------------------------

  /** `wordUpdate`, on the line's own objects; the current chunk is replaced, never rewritten. */
  method WordUpdate(typingKey: string, lineWord: LineWord)
    modifies lineWord, lineWord.correct, lineWord.wordChunks
    ensures fresh(lineWord.nextChunk)
    ensures lineWord.Snapshot() == KanaWordUpdated(typingKey, old(lineWord.Snapshot()))
  {
    var romaPattern := lineWord.nextChunk.romaPatterns;
    lineWord.correct.kana := lineWord.correct.kana + typingKey;
    lineWord.correct.roma := lineWord.correct.roma + (if |romaPattern| > 0 then romaPattern[0] else "undefined");
    var first := lineWord.wordChunks.Shift();
    lineWord.nextChunk := new ChunkCell(first.GetOr(EMPTY_WORD_CHUNK));
  }

  /** `kanaInput`: one keystroke on the kana keyboard. */
  method KanaInput(t: Tables, k: TypingKey, lineWord: LineWord)
    returns (newLineWord: LineWord, successKey: Option<string>, failKey: Option<string>, isUpdatePoint: bool)
    modifies lineWord.correct, lineWord.nextChunk, lineWord.wordChunks
    ensures fresh(newLineWord)
    ensures newLineWord.correct == lineWord.correct && newLineWord.wordChunks == lineWord.wordChunks
    ensures var r := KanaStep(t, k, old(lineWord.Snapshot()));
            newLineWord.Snapshot() == r.line && lineWord.nextChunk.Value() == r.callerNext &&
            successKey == r.successKey && failKey == r.failKey && isUpdatePoint == r.isUpdatePoint
  {
    newLineWord := new LineWord(lineWord.correct, lineWord.nextChunk, lineWord.wordChunks);
    var nextKana := lineWord.nextChunk.kana;
    var firstKanaChar := SliceTo(nextKana, 1);
    var keys := k.keys;
    var successIndex := if firstKanaChar != "" then IndexOf(keys, ExpectedKey(nextKana)) else -1;
    var typingKey := TypedKey(keys, successIndex, newLineWord.nextChunk.originalDakuChar);
    if typingKey.None? || typingKey.value == "" {
      var isKanaInArray := firstKanaChar !in t.keyboardChars;
      failKey := if !isKanaInArray then Some(k.key) else if |keys| > 0 then Some(keys[0]) else None;
      return newLineWord, Some(""), failKey, false;
    }
    successKey, failKey := Some(keys[successIndex]), None;
    if IsDakuHandaku(nextKana[0]) {
      var d := ParseDakuHandaku(nextKana[0]);
      var yoon := if |nextKana| >= 2 then [nextKana[1]] else "";
      newLineWord.nextChunk.kana := [d.mark] + yoon;
      newLineWord.nextChunk.originalDakuChar := Some(d.originalKana);
      isUpdatePoint := false;
    } else if |nextKana| >= 2 {
      newLineWord.correct.kana := newLineWord.correct.kana + typingKey.value;
      newLineWord.nextChunk.kana := newLineWord.nextChunk.kana[1..];
      isUpdatePoint := false;
    } else {
      WordUpdate(typingKey.value, newLineWord);
      isUpdatePoint := true;
    }
  }
}
