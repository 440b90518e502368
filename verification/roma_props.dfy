/**
 * What one romaji keystroke does, proved on the value-level step `RomaStep` (which the
 * matcher on objects is proved to follow).
 */
module RomaProperties {
  import opened Wrappers
  import opened Text
  import opened Chunks
  import opened Session
  import opened LineWords
  import opened RomaInput

  /** The trimmed list holds exactly the tails, longer than nothing, of the patterns that start with the key. */
  lemma {:induction false} UpdateNextRomaPatternMembers(key: string, patterns: seq<string>, q: string)
    ensures q in UpdateNextRomaPattern(key, patterns) <==>
            exists i :: 0 <= i < |patterns| && StartsWith(patterns[i], key) && |patterns[i]| > 1 && q == patterns[i][1..]
  {
    if patterns != [] {
      UpdateNextRomaPatternMembers(key, patterns[1..], q);
      var p := patterns[0];
      var head := if StartsWith(p, key) && |p| > 1 then [p[1..]] else [];
      assert UpdateNextRomaPattern(key, patterns) == head + UpdateNextRomaPattern(key, patterns[1..]);
      if exists i :: 1 <= i < |patterns| && StartsWith(patterns[i], key) && |patterns[i]| > 1 && q == patterns[i][1..] {
        var i :| 1 <= i < |patterns| && StartsWith(patterns[i], key) && |patterns[i]| > 1 && q == patterns[i][1..];
        assert patterns[1..][i - 1] == patterns[i];
      }
      if exists i :: 0 <= i < |patterns[1..]| && StartsWith(patterns[1..][i], key) && |patterns[1..][i]| > 1 && q == patterns[1..][i][1..] {
        var i :| 0 <= i < |patterns[1..]| && StartsWith(patterns[1..][i], key) && |patterns[1..][i]| > 1 && q == patterns[1..][i][1..];
        assert patterns[i + 1] == patterns[1..][i];
      }
    }
  }

  /** The look-ahead filter keeps exactly the spellings without a leading n or apostrophe. */
  lemma {:induction false} FilterKeptAfterXMembers(patterns: seq<string>, q: string)
    ensures q in FilterKeptAfterX(patterns) <==> q in patterns && KeptAfterX(q)
  {
    if patterns != [] {
      FilterKeptAfterXMembers(patterns[1..], q);
      assert patterns == [patterns[0]] + patterns[1..];
    }
  }

  /**
   * After x on ん, the next chunk keeps only its spellings that start with neither n nor an
   * apostrophe, unless its first spelling starts with n or N; any other key changes nothing.
   */
  lemma NextNNFilterMeaning(key: string, patterns: seq<string>)
    ensures key != "x" || |patterns| == 0 || patterns[0] == "" || patterns[0][0] == 'n' || patterns[0][0] == 'N' ==>
              NextNNFilter(key, patterns) == patterns
    ensures key == "x" && |patterns| > 0 && patterns[0] != "" && patterns[0][0] != 'n' && patterns[0][0] != 'N' ==>
              forall q :: q in NextNNFilter(key, patterns) <==> q in patterns && KeptAfterX(q)
  {
    forall q {
      FilterKeptAfterXMembers(patterns, q);
    }
  }

  /** The shortcut step keeps the line's kana, typed or not. */
  lemma ProcessKeepsTyped(k: TypingKey, ln: Line)
    ensures Typed(ProcessLine(k, ln).line) == Typed(ln)
    ensures ProcessLine(k, ln).line.correct.roma == ln.correct.roma
    ensures ProcessLine(k, ln).sameNext ==> ProcessLine(k, ln).line == ln
  {
    var p := ProcessLine(k, ln);
    if !p.sameNext {
      if k.code == "KeyX" || k.code == "KeyW" {
        AdvanceKeepsTyped(ln.correct.kana, ln.next.kana, ln.rest);
      } else if |ln.rest| > 1 && ln.rest[1].kana == "." {
        ThreePeriodsKeepTyped(ln.correct.kana, ln.rest);
      } else {
        TwoPeriodsKeepTyped(ln.correct.kana, ln.rest);
      }
    }
  }

  /** Typed text, a period chunk and chunks of which the first is a period: the two periods are "..". */
  lemma TwoPeriodsKeepTyped(typed: string, rest: seq<Chunk>)
    requires |rest| > 0 && rest[0].kana == "."
    ensures typed + "." + Concat(Kanas(rest)) == typed + ".." + Concat(Kanas(rest[1..]))
  {
    assert Kanas(rest) == [rest[0].kana] + Kanas(rest[1..]);
    assert typed + ".." == typed + "." + ".";
  }

  /** Typed text, a period chunk and chunks of which the first two are periods: the three are "...". */
  lemma ThreePeriodsKeepTyped(typed: string, rest: seq<Chunk>)
    requires |rest| > 1 && rest[0].kana == "." && rest[1].kana == "."
    ensures typed + "." + Concat(Kanas(rest)) == typed + "..." + Concat(Kanas(rest[2..]))
  {
    TwoPeriodsKeepTyped(typed, rest);
    assert rest[1..][1..] == rest[2..];
    TwoPeriodsKeepTyped(typed + ".", rest[1..]);
    assert typed + "..." == typed + "." + "..";
  }

  /** An accepted key moves kana from the chunk to the typed text without losing or adding any. */
  lemma ApplyKeepsTyped(kana: string, key: string, ln: Line, isUpdatePoint: bool)
    ensures Typed(ApplyKey(kana, key, ln, isUpdatePoint).line) == Typed(ln)
  {
    var rest := LookAhead(kana, key, ln.rest);
    var next := ln.next.(romaPatterns := UpdateNextRomaPattern(key, ln.next.romaPatterns));
    var filtered := KanaFiltered(kana, key, Line(ln.correct, next, rest));
    assert Typed(filtered) == Typed(ln) by {
      if filtered != Line(ln.correct, next, rest) {
        assert SliceTo(next.kana, 1) + SliceFrom(next.kana, 1) == next.kana;
      }
    }
    if |filtered.next.romaPatterns| == 0 {
      AdvanceKeepsTyped(filtered.correct.kana, filtered.next.kana, filtered.rest);
    }
  }

  /**
   * Every keystroke keeps the line's kana: the typed kana, then the current chunk's, then
   * the kana of the chunks to come, spell the same text before and after.
   */
  lemma RomaKeepsTyped(k: TypingKey, ln: Line)
    ensures Typed(RomaStep(k, ln).line) == Typed(ln)
  {
    var p := ProcessLine(k, ln);
    ProcessKeepsTyped(k, ln);
    if |k.keys| > 0 && k.keys[0] != "" && IsSuccess(p.line.next.romaPatterns, k.keys[0]) {
      ApplyKeepsTyped(ln.next.kana, k.keys[0], p.line, p.isUpdatePoint);
    }
  }

  /**
   * A key is accepted exactly when it is one character that some current spelling starts
   * with (compared lowercased), after the shortcut keys have had their effect. A rejected
   * key is reported, scores nothing and leaves the romaji typed so far alone; an accepted
   * one is appended to it.
   */
  lemma RomaAcceptance(k: TypingKey, ln: Line)
    ensures var r := RomaStep(k, ln);
            var p := ProcessLine(k, ln);
            (r.successKey.Some? <==> |k.keys| > 0 && k.keys[0] != "" && IsSuccess(p.line.next.romaPatterns, k.keys[0])) &&
            (r.successKey.None? ==> r.failKey == Some(k.key) && !r.isUpdatePoint && r.line == p.line &&
                                    r.line.correct.roma == ln.correct.roma) &&
            (r.successKey.Some? ==> r.successKey == Some(k.keys[0]) && r.failKey.None? &&
                                    |k.keys[0]| == 1 &&
                                    r.line.correct.roma == ln.correct.roma + k.keys[0])
  {
    var p := ProcessLine(k, ln);
    ProcessKeepsTyped(k, ln);
    if |k.keys| > 0 && k.keys[0] != "" && IsSuccess(p.line.next.romaPatterns, k.keys[0]) {
      var i :| 0 <= i < |p.line.next.romaPatterns| && KeyMatches(p.line.next.romaPatterns[i], k.keys[0]);
    }
  }

  /** Without a shortcut key the keystroke starts from the caller's line itself. */
  lemma PlainKeyNoShortcut(k: TypingKey, ln: Line)
    requires k.code != "KeyX" && k.code != "KeyW" && (k.code != "KeyZ" || k.shift)
    ensures ProcessLine(k, ln) == Processed(ln, true, false)
  {
  }

  /**
   * An accepted key without a shortcut: the current chunk keeps the tails of the spellings
   * that start with the key; when none is left the chunk is typed, its remaining kana is
   * appended, the next chunk (or the sentinel) becomes current and its score is due.
   * The caller's own chunk object shows the trimmed spellings too.
   */
  lemma RomaTrimAndComplete(k: TypingKey, ln: Line)
    requires k.code != "KeyX" && k.code != "KeyW" && (k.code != "KeyZ" || k.shift)
    requires |k.keys| > 0 && IsSuccess(ln.next.romaPatterns, k.keys[0])
    ensures var r := RomaStep(k, ln);
            var key := k.keys[0];
            var trimmed := UpdateNextRomaPattern(key, ln.next.romaPatterns);
            r.successKey == Some(key) &&
            r.callerNext.romaPatterns == trimmed &&
            r.callerNext.point == ln.next.point && r.callerNext.kind == ln.next.kind &&
            var ahead := LookAhead(ln.next.kana, key, ln.rest);
            r.line.correct.roma == ln.correct.roma + key &&
            (trimmed != [] ==> r.line.next == r.callerNext && !r.isUpdatePoint &&
                               |r.line.rest| == |ln.rest| && r.line.rest == ahead &&
                               (MovesFirstKana(ln.next.kana, key, trimmed) ==>
                                  r.line.correct.kana == ln.correct.kana + ln.next.kana[..1] &&
                                  r.line.next.kana == ln.next.kana[1..]) &&
                               (!MovesFirstKana(ln.next.kana, key, trimmed) ==>
                                  r.line.correct.kana == ln.correct.kana && r.line.next.kana == ln.next.kana)) &&
            (trimmed == [] ==> r.isUpdatePoint &&
                               r.line.correct.kana == ln.correct.kana + r.callerNext.kana &&
                               r.callerNext.kana == ln.next.kana &&
                               (ln.rest == [] ==> r.line.next == EMPTY_WORD_CHUNK && r.line.rest == []) &&
                               (ln.rest != [] ==> r.line.next == ahead[0] &&
                                                  r.line.next.kana == ln.rest[0].kana &&
                                                  r.line.next.point == ln.rest[0].point &&
                                                  r.line.rest == ahead[1..] && r.line.rest == ln.rest[1..]))
  {
    PlainKeyNoShortcut(k, ln);
    var i :| 0 <= i < |ln.next.romaPatterns| && KeyMatches(ln.next.romaPatterns[i], k.keys[0]);
  }

  /**
   * The X and W shortcuts: after a lone n on ん, with ん (for X) or う (for W) next, ん is
   * committed to the typed kana and the following chunk becomes current before the key
   * itself is matched; its score is due even when that key is then rejected.
   */
  lemma RomaNNShortcut(k: TypingKey, ln: Line)
    requires k.code == "KeyX" || k.code == "KeyW"
    requires ln.next.kana == "ん" && EndsWith(ln.correct.roma, 'n')
    requires |ln.next.romaPatterns| > 0 && ln.next.romaPatterns[0] == "n"
    requires |ln.rest| > 0 && ln.rest[0].kana == (if k.code == "KeyX" then "ん" else "う")
    ensures var r := RomaStep(k, ln);
            r.callerNext == ln.next &&
            StartsWith(r.line.correct.kana, ln.correct.kana + "ん") &&
            (r.successKey.Some? ==> r.isUpdatePoint) &&
            (r.successKey.None? ==> r.line == Line(ln.correct.(kana := ln.correct.kana + "ん"), ln.rest[0], ln.rest[1..]))
  {
    var r := RomaStep(k, ln);
    var c := ln.correct.kana + "ん";
    if r.successKey.Some? {
      var p := ProcessLine(k, ln);
      var a := ApplyKey(ln.next.kana, k.keys[0], p.line, p.isUpdatePoint);
      assert StartsWith(a.line.correct.kana, c) by {
        var extra := a.line.correct.kana[|c|..];
        assert a.line.correct.kana == c + extra;
      }
    } else {
      assert r.line.correct.kana[..|c|] == c;
    }
  }

  /**
   * The Z shortcut (unshifted) on a period followed by one or two more: the periods
   * become one chunk, typed as z, or z, then a period, scored two or three times the
   * first period; nothing is committed and the caller's chunk object is left alone.
   */
  lemma RomaZShortcut(k: TypingKey, ln: Line)
    requires k.code == "KeyZ" && !k.shift
    requires ln.next.kana == "." && |ln.rest| > 0 && ln.rest[0].kana == "."
    ensures var p := ProcessLine(k, ln);
            var triple := |ln.rest| > 1 && ln.rest[1].kana == ".";
            !p.sameNext && !p.isUpdatePoint && p.line.correct == ln.correct &&
            p.line.next.kind == Symbol &&
            (triple ==> p.line.next.kana == "..." && p.line.next.romaPatterns == ["z.", "z,."] &&
                        p.line.next.point == 3 * ln.next.point && p.line.rest == ln.rest[2..]) &&
            (!triple ==> p.line.next.kana == ".." && p.line.next.romaPatterns == ["z,"] &&
                         p.line.next.point == 2 * ln.next.point && p.line.rest == ln.rest[1..])
    ensures RomaStep(k, ln).callerNext == ln.next
  {
  }

  /** The caller's chunk object keeps its score and its character class whatever is typed. */
  lemma RomaKeepsCallerScore(k: TypingKey, ln: Line)
    ensures RomaStep(k, ln).callerNext.point == ln.next.point
    ensures RomaStep(k, ln).callerNext.kind == ln.next.kind
  {
    ProcessKeepsTyped(k, ln);
  }

  /**
   * A sokuon chunk typed by doubling the consonant (or with u), or a small-kana chunk typed
   * with x or l: after the key, the chunk's first kana is typed and the chunk stays current
   * with the rest of its kana.
   */
  lemma KanaFilterMovesFirstKana(kana: string, key: string, ln: Line)
    requires |kana| >= 2 && |ln.next.romaPatterns| > 0 && ln.next.romaPatterns[0] != ""
    requires ln.next.kana != ""
    requires (kana[0] == 'っ' && (key == "u" || [ln.next.romaPatterns[0][0]] == key)) ||
             (kana[0] != 'っ' && (ln.next.romaPatterns[0][0] == 'x' || ln.next.romaPatterns[0][0] == 'l'))
    ensures var r := KanaFiltered(kana, key, ln);
            r.correct.kana == ln.correct.kana + [ln.next.kana[0]] && r.next.kana == ln.next.kana[1..] &&
            r.next.romaPatterns == ln.next.romaPatterns && r.rest == ln.rest
  {
  }

  /**
   * Every other keystroke leaves the line as it was: a chunk of one kana, a chunk without a
   * non-empty first spelling, or a key that neither doubles the sokuon's consonant (nor is u)
   * nor follows an x or l spelling of a small kana.
   */
  lemma KanaFilterKeepsOtherKeys(kana: string, key: string, ln: Line)
    requires !(|kana| >= 2 && |ln.next.romaPatterns| > 0 && ln.next.romaPatterns[0] != "" &&
               ((kana[0] == 'っ' && (key == "u" || [ln.next.romaPatterns[0][0]] == key)) ||
                (kana[0] != 'っ' && (ln.next.romaPatterns[0][0] == 'x' || ln.next.romaPatterns[0][0] == 'l'))))
    ensures KanaFiltered(kana, key, ln) == ln
  {
  }
}
