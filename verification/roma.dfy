/**
 * The romaji keystroke matcher (`romaInput` and its helpers). The value-level step
 * `RomaStep` says what one keystroke does to a line; the methods do it on the shared
 * objects of a `LineWord` and are proved to agree with it.
 */
module RomaInput {
  import opened Wrappers
  import opened Text
  import opened Chunks
  import opened Session
  import opened LineWords

  /** `romaMakeInput`: the lowercased key is the only candidate. */
  function RomaMakeInput(e: KeyEvent): (r: TypingKey)
    ensures r.keys == [Lower(e.key)] && r.key == Lower(e.key)
    ensures r.code == e.code && r.shift == e.shiftKey
  {
    TypingKey([Lower(e.key)], Lower(e.key), e.code, e.shiftKey)
  }

  /** The chunk the Z shortcut puts in place of two or three periods. */
  function ZChunk(kana: string, patterns: seq<string>, point: int): Chunk {
    Chunk(kana, patterns, point, Symbol, None, None)
  }

  // ---------------------------------------------------------------------------------------
  // Pure helpers
  // ---------------------------------------------------------------------------------------

  /** A pattern whose first character, lowercased, is the key. */
  predicate KeyMatches(pattern: string, key: string) {
    |pattern| > 0 && [LowerChar(pattern[0])] == key
  }

  /** `patterns.some(p => p[0] && p[0].toLowerCase() === key)`. */
  predicate IsSuccess(patterns: seq<string>, key: string) {
    exists i :: 0 <= i < |patterns| && KeyMatches(patterns[i], key)
  }

  /** `updateNextRomaPattern`: the tails of the patterns that start with the key, empty tails dropped. */
  function UpdateNextRomaPattern(key: string, patterns: seq<string>): (r: seq<string>)
    ensures |r| <= |patterns|
    ensures forall i :: 0 <= i < |r| ==> r[i] != ""
  {
    if patterns == [] then []
    else
      var p := patterns[0];
      (if StartsWith(p, key) && |p| > 1 then [p[1..]] else []) + UpdateNextRomaPattern(key, patterns[1..])
  }

  /** The characters at which a JavaScript regular expression's `.` stops. */
  const LINE_TERMINATORS: set<char> := {'\n', '\r', '\U{2028}', '\U{2029}'}

  /** `/^(?!(n|')).*$/` matches: no leading n or apostrophe, and no line terminator. */
  predicate KeptAfterX(p: string) {
    (p == "" || (p[0] != 'n' && p[0] != '\'')) && forall i :: 0 <= i < |p| ==> p[i] !in LINE_TERMINATORS
  }

  /** `patterns.filter(KeptAfterX)`. */
  function FilterKeptAfterX(patterns: seq<string>): (r: seq<string>)
    ensures |r| <= |patterns|
  {
    if patterns == [] then []
    else (if KeptAfterX(patterns[0]) then [patterns[0]] else []) + FilterKeptAfterX(patterns[1..])
  }

  /**
   * `nextNNFilter`: after x is typed on ん, the following chunk loses its spellings that
   * start with n or an apostrophe, unless its first spelling starts with n or N.
   */
  function NextNNFilter(key: string, nextToNextChar: seq<string>): seq<string> {
    var isXN := key == "x" && |nextToNextChar| > 0 && nextToNextChar[0] != "" &&
                nextToNextChar[0][0] != 'n' && nextToNextChar[0][0] != 'N';
    if isXN then FilterKeptAfterX(nextToNextChar) else nextToNextChar
  }

  // ---------------------------------------------------------------------------------------
  // The keystroke on values
  // ---------------------------------------------------------------------------------------

  /** The line after the shortcut keys, whether the current chunk object is still the caller's, and the score flag. */
  datatype Processed = Processed(line: Line, sameNext: bool, isUpdatePoint: bool)

  /** `processedLineWord`: the X/W shortcut after a lone n on ん, and the Z shortcut on periods. */
  function ProcessLine(k: TypingKey, ln: Line): Processed {
    if k.code == "KeyX" || k.code == "KeyW" then
      var expected := if k.code == "KeyX" then "ん" else "う";
      var isNNRoute := ln.next.kana == "ん" && EndsWith(ln.correct.roma, 'n') &&
                       |ln.next.romaPatterns| > 0 && ln.next.romaPatterns[0] == "n";
      var isNext := |ln.rest| > 0 && ln.rest[0].kana == expected;
      if isNNRoute && isNext then
        Processed(Line(ln.correct.(kana := ln.correct.kana + "ん"), ln.rest[0], ln.rest[1..]), false, true)
      else Processed(ln, true, false)
    else if k.code == "KeyZ" && !k.shift then
      if ln.next.kana == "." && |ln.rest| > 0 && ln.rest[0].kana == "." then
        if |ln.rest| > 1 && ln.rest[1].kana == "." then
          Processed(Line(ln.correct, ZChunk("...", ["z.", "z,."], ln.next.point * 3), ln.rest[2..]), false, false)
        else
          Processed(Line(ln.correct, ZChunk("..", ["z,"], ln.next.point * 2), ln.rest[1..]), false, false)
      else Processed(ln, true, false)
    else Processed(ln, true, false)
  }

  /**
   * `kanaFilter`'s test on the chunk's kana, the key and the trimmed spellings: a sokuon
   * typed with u or its doubled consonant, or another kana whose spelling goes on with x or l.
   */
  predicate MovesFirstKana(kana: string, key: string, rp: seq<string>) {
    |kana| >= 2 && |rp| > 0 && rp[0] != "" &&
    ((kana[0] == 'っ' && (key == "u" || [rp[0][0]] == key)) ||
     (kana[0] != 'っ' && (rp[0][0] == 'x' || rp[0][0] == 'l')))
  }

  /** `kanaFilter`: a sokuon or a small-kana spelling moves the chunk's first kana to the typed text. */
  function KanaFiltered(kana: string, key: string, ln: Line): Line {
    if MovesFirstKana(kana, key, ln.next.romaPatterns) then
      Line(ln.correct.(kana := ln.correct.kana + SliceTo(ln.next.kana, 1)),
           ln.next.(kana := SliceFrom(ln.next.kana, 1)), ln.rest)
    else ln
  }

  /** The chunks to come after the ん look-ahead: on ん, the next chunk's spellings pass `NextNNFilter`. */
  function LookAhead(kana: string, key: string, rest: seq<Chunk>): (r: seq<Chunk>)
    ensures |r| == |rest| && Kanas(r) == Kanas(rest)
    ensures forall i :: 0 <= i < |rest| ==> r[i].point == rest[i].point && r[i].kind == rest[i].kind
    ensures kana != "ん" ==> r == rest
  {
    if kana == "ん" && |rest| > 0
    then rest[0 := rest[0].(romaPatterns := NextNNFilter(key, rest[0].romaPatterns))]
    else rest
  }

  /** `wordUpdate`: a chunk with no spelling left is typed; the key is appended to the romaji. */
  function WordUpdated(key: string, ln: Line, isUpdatePoint: bool): (Line, bool) {
    if |ln.next.romaPatterns| == 0 then
      var next := if |ln.rest| > 0 then ln.rest[0] else EMPTY_WORD_CHUNK;
      var rest := if |ln.rest| > 0 then ln.rest[1..] else [];
      (Line(KanaRoma(ln.correct.kana + ln.next.kana, ln.correct.roma + key), next, rest), true)
    else
      (Line(ln.correct.(roma := ln.correct.roma + key), ln.next, ln.rest), isUpdatePoint)
  }

  /** What an accepted key leaves: the line, the current chunk before `wordUpdate`, the score flag. */
  datatype Applied = Applied(line: Line, next: Chunk, isUpdatePoint: bool)

  /**
   * An accepted key on the line after the shortcuts: the ん look-ahead filter, the
   * pattern trim, `kanaFilter` and `wordUpdate`, in that order.
   */
  function ApplyKey(kana: string, key: string, ln: Line, isUpdatePoint: bool): Applied {
    var rest := LookAhead(kana, key, ln.rest);
    var next := ln.next.(romaPatterns := UpdateNextRomaPattern(key, ln.next.romaPatterns));
    var filtered := KanaFiltered(kana, key, Line(ln.correct, next, rest));
    var (line, upd) := WordUpdated(key, filtered, isUpdatePoint);
    Applied(line, filtered.next, upd)
  }

  /** `romaInput` on values. */
  function RomaStep(k: TypingKey, ln: Line): Outcome {
    var p := ProcessLine(k, ln);
    if |k.keys| == 0 || k.keys[0] == "" || !IsSuccess(p.line.next.romaPatterns, k.keys[0]) then
      Outcome(p.line, ln.next, None, Some(k.key), false)
    else
      var a := ApplyKey(ln.next.kana, k.keys[0], p.line, p.isUpdatePoint);
      Outcome(a.line, if p.sameNext then a.next else ln.next, Some(k.keys[0]), None, a.isUpdatePoint)
  }

  // ---------------------------------------------------------------------------------------
  // The keystroke on the shared objects
  // ---------------------------------------------------------------------------------------

  /** The X/W shortcut: ん is typed and the following chunk becomes current. */
  method ProcessNNRouteKey(lineWord: LineWord) returns (newLineWord: LineWord, isUpdatePoint: bool)
    modifies lineWord.correct, lineWord.wordChunks
    ensures newLineWord == lineWord || fresh(newLineWord)
    ensures newLineWord.correct == lineWord.correct && newLineWord.wordChunks == lineWord.wordChunks
    ensures old(lineWord.wordChunks.items) == [] ==>
              newLineWord == lineWord && !isUpdatePoint && lineWord.Snapshot() == old(lineWord.Snapshot())
    ensures old(lineWord.wordChunks.items) != [] ==>
              var ln := old(lineWord.Snapshot());
              fresh(newLineWord.nextChunk) && isUpdatePoint &&
              newLineWord.Snapshot() == Line(ln.correct.(kana := ln.correct.kana + "ん"), ln.rest[0], ln.rest[1..])
  {
    newLineWord := new LineWord(lineWord.correct, lineWord.nextChunk, lineWord.wordChunks);
    if newLineWord.wordChunks.items == [] {
      return lineWord, false;
    }
    newLineWord.correct.kana := newLineWord.correct.kana + "ん";
    newLineWord.nextChunk := new ChunkCell(newLineWord.wordChunks.items[0]);
    newLineWord.wordChunks.RemoveFirst(1);
    isUpdatePoint := true;
  }

  /** The Z shortcut: `..` or `...` typed as one chunk scored two or three times the first. */
  method ZCommand(lineWord: LineWord) returns (newLineWord: LineWord)
    modifies lineWord.wordChunks
    ensures fresh(newLineWord)
    ensures newLineWord.correct == lineWord.correct && newLineWord.wordChunks == lineWord.wordChunks
    ensures newLineWord.nextChunk == lineWord.nextChunk || fresh(newLineWord.nextChunk)
    ensures var p := ProcessLine(TypingKey([], "", "KeyZ", false), old(lineWord.Snapshot()));
            newLineWord.Snapshot() == p.line && (p.sameNext <==> newLineWord.nextChunk == lineWord.nextChunk)
  {
    newLineWord := new LineWord(lineWord.correct, lineWord.nextChunk, lineWord.wordChunks);
    var items := newLineWord.wordChunks.items;
    var doublePeriod := newLineWord.nextChunk.kana == "." && |items| > 0 && items[0].kana == ".";
    var charPoint := newLineWord.nextChunk.point;
    if doublePeriod {
      var triplePeriod := |items| > 1 && items[1].kana == ".";
      if triplePeriod {
        newLineWord.nextChunk := new ChunkCell(ZChunk("...", ["z.", "z,."], charPoint * 3));
        newLineWord.wordChunks.RemoveFirst(2);
      } else {
        newLineWord.nextChunk := new ChunkCell(ZChunk("..", ["z,"], charPoint * 2));
        newLineWord.wordChunks.RemoveFirst(1);
      }
    }
  }

  /** `processedLineWord`. */
  method ProcessedLineWord(k: TypingKey, lineWord: LineWord) returns (newLineWord: LineWord, isUpdatePoint: bool)
    modifies lineWord.correct, lineWord.wordChunks
    ensures newLineWord == lineWord || fresh(newLineWord)
    ensures newLineWord.correct == lineWord.correct && newLineWord.wordChunks == lineWord.wordChunks
    ensures var p := ProcessLine(k, old(lineWord.Snapshot()));
            newLineWord.Snapshot() == p.line && isUpdatePoint == p.isUpdatePoint &&
            (p.sameNext ==> newLineWord.nextChunk == lineWord.nextChunk) &&
            (!p.sameNext ==> fresh(newLineWord.nextChunk))
  {
    if k.code == "KeyX" || k.code == "KeyW" {
      var expected := if k.code == "KeyX" then "ん" else "う";
      var next := lineWord.nextChunk;
      var isNNRoute := next.kana == "ん" && EndsWith(lineWord.correct.roma, 'n') &&
                       |next.romaPatterns| > 0 && next.romaPatterns[0] == "n";
      var items := lineWord.wordChunks.items;
      var isNext := |items| > 0 && items[0].kana == expected;
      if isNNRoute && isNext {
        newLineWord, isUpdatePoint := ProcessNNRouteKey(lineWord);
        return;
      }
      return lineWord, false;
    }
    if k.code == "KeyZ" && !k.shift {
      newLineWord := ZCommand(lineWord);
      return newLineWord, false;
    }
    return lineWord, false;
  }

  /** `kanaFilter`, on the line's own objects. */
  method KanaFilter(kana: string, key: string, lineWord: LineWord)
    modifies lineWord.correct, lineWord.nextChunk
    ensures lineWord.Snapshot() == KanaFiltered(kana, key, old(lineWord.Snapshot()))
  {
    var romaPattern := lineWord.nextChunk.romaPatterns;
    if |kana| >= 2 && |romaPattern| > 0 && romaPattern[0] != "" {
      var isSokuon := kana[0] == 'っ' && (key == "u" || [romaPattern[0][0]] == key);
      var isYoon := kana[0] != 'っ' && (romaPattern[0][0] == 'x' || romaPattern[0][0] == 'l');
      if isSokuon || isYoon {
        lineWord.correct.kana := lineWord.correct.kana + SliceTo(lineWord.nextChunk.kana, 1);
        lineWord.nextChunk.kana := SliceFrom(lineWord.nextChunk.kana, 1);
      }
    }
  }

  /** `wordUpdate`, on the line's own objects; the current chunk is replaced, never rewritten. */
  method WordUpdate(key: string, lineWord: LineWord, isUpdatePoint: bool) returns (updatePoint: bool)
    modifies lineWord, lineWord.correct, lineWord.wordChunks
    ensures lineWord.nextChunk == old(lineWord.nextChunk) || fresh(lineWord.nextChunk)
    ensures (lineWord.Snapshot(), updatePoint) == WordUpdated(key, old(lineWord.Snapshot()), isUpdatePoint)
  {
    var kana := lineWord.nextChunk.kana;
    updatePoint := isUpdatePoint;
    if |lineWord.nextChunk.romaPatterns| == 0 {
      lineWord.correct.kana := lineWord.correct.kana + kana;
      updatePoint := true;
      var first := lineWord.wordChunks.Shift();
      lineWord.nextChunk := new ChunkCell(first.GetOr(EMPTY_WORD_CHUNK));
    }
    lineWord.correct.roma := lineWord.correct.roma + key;
  }

  /** The steps of `romaInput` after a key is accepted, on the line's own objects. */
  method ApplySuccessfulKey(kana: string, key: string, lineWord: LineWord, upd: bool) returns (isUpdatePoint: bool)
    modifies lineWord, lineWord.correct, lineWord.nextChunk, lineWord.wordChunks
    ensures lineWord.nextChunk == old(lineWord.nextChunk) || fresh(lineWord.nextChunk)
    ensures var a := ApplyKey(kana, key, old(lineWord.Snapshot()), upd);
            lineWord.Snapshot() == a.line && old(lineWord.nextChunk).Value() == a.next &&
            isUpdatePoint == a.isUpdatePoint
  {
    if kana == "ん" && lineWord.wordChunks.items != [] {
      lineWord.wordChunks.SetFirstPatterns(NextNNFilter(key, lineWord.wordChunks.items[0].romaPatterns));
    }
    lineWord.nextChunk.romaPatterns := UpdateNextRomaPattern(key, lineWord.nextChunk.romaPatterns);
    KanaFilter(kana, key, lineWord);
    isUpdatePoint := WordUpdate(key, lineWord, upd);
  }

  /** `romaInput`: one keystroke on the romaji keyboard. */
  method RomaInput(k: TypingKey, lineWord: LineWord)
    returns (newLineWord: LineWord, successKey: Option<string>, failKey: Option<string>, isUpdatePoint: bool)
    modifies lineWord.correct, lineWord.nextChunk, lineWord.wordChunks
    ensures fresh(newLineWord)
    ensures newLineWord.correct == lineWord.correct && newLineWord.wordChunks == lineWord.wordChunks
    ensures var r := RomaStep(k, old(lineWord.Snapshot()));
            newLineWord.Snapshot() == r.line && lineWord.nextChunk.Value() == r.callerNext &&
            successKey == r.successKey && failKey == r.failKey && isUpdatePoint == r.isUpdatePoint
  {
    var copy := new LineWord(lineWord.correct, lineWord.nextChunk, lineWord.wordChunks);
    var upd;
    newLineWord, upd := ProcessedLineWord(k, copy);
    var nextRomaPattern := newLineWord.nextChunk.romaPatterns;
    var kana := lineWord.nextChunk.kana;
    if |k.keys| == 0 || k.keys[0] == "" || !IsSuccess(nextRomaPattern, k.keys[0]) {
      return newLineWord, None, Some(k.key), false;
    }
    isUpdatePoint := ApplySuccessfulKey(kana, k.keys[0], newLineWord, upd);
    successKey, failKey := Some(k.keys[0]), None;
  }
}
