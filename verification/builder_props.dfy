/**
 * Properties of the chunk builder over whole token lists: where it gives up, that the
 * chunks spell the tokens, and that every chunk it builds can be typed.
 */
module BuilderProperties {
  import opened Wrappers
  import opened Text
  import opened Chunks
  import opened Tables
  import opened ChunkBuilder

  /** The position of the first element failing `ok`, or the length when there is none. */
  function FirstFalse<T>(ok: T -> bool, s: seq<T>): (k: nat)
    ensures k <= |s|
    ensures forall j :: 0 <= j < k ==> ok(s[j])
    ensures k < |s| ==> !ok(s[k])
  {
    if s == [] then 0
    else
      var init := s[..|s| - 1];
      var k := FirstFalse(ok, init);
      if k < |init| then k
      else if ok(s[|s| - 1]) then |s| else |init|
  }

  /** `Emittable` as a test on tokens. */
  function CanEmit(t: Tables): string -> bool {
    x => Emittable(t, x)
  }

  /** The position of the first token the builder cannot emit, or the length when there is none. */
  function FirstFailure(t: Tables, tokens: seq<string>): (k: nat)
    ensures k <= |tokens|
    ensures forall j :: 0 <= j < k ==> Emittable(t, tokens[j])
    ensures k < |tokens| ==> !Emittable(t, tokens[k])
  {
    FirstFalse(CanEmit(t), tokens)
  }

  /** Cutting a list at `m` cuts its first failing position at `m`. */
  lemma FirstFalsePrefix<T>(ok: T -> bool, s: seq<T>, m: nat)
    requires m <= |s|
    ensures FirstFalse(ok, s[..m]) == if FirstFalse(ok, s) < m then FirstFalse(ok, s) else m
  {
    assert forall j :: 0 <= j < m ==> s[..m][j] == s[j];
  }

  /** A step that refuses exactly the tokens failing `ok`. */
  ghost predicate RefusesExactly<S(!new)>(step: (S, string) -> Option<S>, ok: string -> bool) {
    forall s, x :: step(s, x).None? <==> !ok(x)
  }

  /** A loop whose step refuses exactly the failing tokens gives up exactly when one fails. */
  lemma {:induction false} LoopStops<S(!new)>(step: (S, string) -> Option<S>, ok: string -> bool, start: S, tokens: seq<string>)
    requires RefusesExactly(step, ok)
    ensures Loop(step, start, tokens).1 <==> FirstFalse(ok, tokens) < |tokens|
  {
    if tokens != [] {
      LoopStops(step, ok, start, tokens[..|tokens| - 1]);
    }
  }

  /**
   * A loop keeps an invariant relating its state to the tokens it consumed, when each
   * accepted token keeps it: at the end it holds for the tokens before the first failure.
   */
  lemma {:induction false} LoopInvariant<S(!new)>(step: (S, string) -> Option<S>, ok: string -> bool,
                                            inv: (S, seq<string>) -> bool, start: S, tokens: seq<string>)
    requires RefusesExactly(step, ok)
    requires inv(start, [])
    requires forall s, prefix, x :: inv(s, prefix) && ok(x) && step(s, x).Some? ==> inv(step(s, x).value, prefix + [x])
    ensures inv(Loop(step, start, tokens).0, tokens[..FirstFalse(ok, tokens)])
  {
    if tokens == [] {
      assert tokens[..0] == [];
    } else {
      var init, last := tokens[..|tokens| - 1], tokens[|tokens| - 1];
      LoopInvariant(step, ok, inv, start, init);
      LoopStops(step, ok, start, init);
      var (s, stopped) := Loop(step, start, init);
      var k := FirstFalse(ok, init);
      assert init[..k] == tokens[..k];
      if !stopped && ok(last) {
        assert init[..k] == init;
        assert tokens[..|tokens|] == init + [last];
      }
    }
  }

  /** A loop whose step refuses exactly the failing tokens ends at the first failure. */
  lemma LoopAtFailure<S(!new)>(step: (S, string) -> Option<S>, ok: string -> bool, start: S, tokens: seq<string>)
    requires RefusesExactly(step, ok)
    requires FirstFalse(ok, tokens) < |tokens|
    ensures Loop(step, start, tokens) == (Loop(step, start, tokens[..FirstFalse(ok, tokens)]).0, true)
  {
    var k := FirstFalse(ok, tokens);
    FirstFalsePrefix(ok, tokens, k);
    LoopStops(step, ok, start, tokens[..k]);
    LoopPrefixStep(step, start, tokens, k);
    LoopStoppedStays(step, start, tokens, k + 1);
  }

  /** The builders' step refuses exactly the tokens that cannot be emitted. */
  lemma BuildStepRefuses(t: Tables, v: Variant, charPoint: int)
    ensures RefusesExactly(BuildStep(t, v, charPoint), CanEmit(t))
  {
    forall s, x
      ensures BuildStep(t, v, charPoint)(s, x).None? <==> !CanEmit(t)(x)
    {
      assert BuildStep(t, v, charPoint)(s, x) == AddToken(t, v, s, x, charPoint);
    }
  }

  /** A chunk the matchers can work with: it spells something and has a non-empty first spelling. */
  predicate WellFormed(c: Chunk) {
    c.kana != "" && |c.romaPatterns| > 0 && c.romaPatterns[0] != ""
  }

  /** Merging the last two chunks into one spelling both keeps what the chunks spell. */
  lemma MergeKeepsSpelling(cs: seq<Chunk>, r: seq<Chunk>)
    requires |cs| >= 2 && |r| == |cs| - 1 && r[..|r| - 1] == cs[..|cs| - 2]
    requires r[|r| - 1].kana == cs[|cs| - 2].kana + cs[|cs| - 1].kana
    ensures Concat(Kanas(r)) == Concat(Kanas(cs))
  {
    var n := |cs|;
    var front := Kanas(cs[..n - 2]);
    var a, b := cs[n - 2].kana, cs[n - 1].kana;
    assert Kanas(cs) == front + [a, b];
    assert r == cs[..n - 2] + [r[|r| - 1]];
    assert Kanas(r) == front + [a + b];
    ConcatAppend(front, [a, b]);
    ConcatAppend(front, [a + b]);
    assert Concat([a, b]) == a + Concat([b]);
  }

  lemma SokuonStepShape(cs: seq<Chunk>, charPoint: int)
    ensures Concat(Kanas(SokuonStep(cs, charPoint))) == Concat(Kanas(cs))
    ensures |SokuonStep(cs, charPoint)| <= |cs|
    ensures |cs| >= 1 ==> |SokuonStep(cs, charPoint)| >= 1
  {
    var r := SokuonStep(cs, charPoint);
    if r != cs {
      MergeKeepsSpelling(cs, r);
    }
  }

  /** Adding an emittable token appends its kana to what the chunks spell and adds at most one chunk. */
  lemma AddTokenSpelling(t: Tables, v: Variant, cs: seq<Chunk>, kana: string, charPoint: int)
    requires Emittable(t, kana)
    ensures AddToken(t, v, cs, kana, charPoint).Some?
    ensures Concat(Kanas(AddToken(t, v, cs, kana, charPoint).value)) == Concat(Kanas(cs)) + kana
    ensures |AddToken(t, v, cs, kana, charPoint).value| <= |cs| + 1
  {
    var c := Emit(t, v, kana, charPoint).value;
    assert Kanas(cs + [c]) == Kanas(cs) + [kana];
    ConcatAppend(Kanas(cs), [kana]);
    SokuonStepShape(cs + [c], charPoint);
  }

  /** The loop gives up exactly when some token cannot be emitted. */
  lemma BuildLoopStops(t: Tables, v: Variant, tokens: seq<string>, charPoint: int)
    ensures BuildLoop(t, v, tokens, charPoint).1 <==> FirstFailure(t, tokens) < |tokens|
  {
    BuildStepRefuses(t, v, charPoint);
    LoopStops(BuildStep(t, v, charPoint), CanEmit(t), [], tokens);
  }

  /** What the chunks spell, and how many there are, against the tokens consumed. */
  predicate SpellsPrefix(cs: seq<Chunk>, prefix: seq<string>) {
    Concat(Kanas(cs)) == Concat(prefix) && |cs| <= |prefix|
  }

  /** One loop step keeps `SpellsPrefix`. */
  lemma SpellsStep(t: Tables, v: Variant, cs: seq<Chunk>, prefix: seq<string>, x: string, charPoint: int)
    requires SpellsPrefix(cs, prefix) && Emittable(t, x)
    ensures AddToken(t, v, cs, x, charPoint).Some?
    ensures SpellsPrefix(AddToken(t, v, cs, x, charPoint).value, prefix + [x])
  {
    AddTokenSpelling(t, v, cs, x, charPoint);
    ConcatAppend(prefix, [x]);
  }

  /** The chunks spell the tokens before the first one that cannot be emitted, never outnumbering them. */
  lemma BuildLoopSpelling(t: Tables, v: Variant, tokens: seq<string>, charPoint: int)
    ensures Concat(Kanas(BuildLoop(t, v, tokens, charPoint).0)) == Concat(tokens[..FirstFailure(t, tokens)])
    ensures |BuildLoop(t, v, tokens, charPoint).0| <= FirstFailure(t, tokens)
  {
    var step := BuildStep(t, v, charPoint);
    BuildStepRefuses(t, v, charPoint);
    forall cs, prefix, x | SpellsPrefix(cs, prefix) && CanEmit(t)(x) && step(cs, x).Some?
      ensures SpellsPrefix(step(cs, x).value, prefix + [x])
    {
      assert step(cs, x) == AddToken(t, v, cs, x, charPoint);
      SpellsStep(t, v, cs, prefix, x, charPoint);
    }
    assert Kanas([]) == [];
    var inv := (cs, prefix) => SpellsPrefix(cs, prefix);
    LoopInvariant(step, CanEmit(t), inv, [], tokens);
    var k := FirstFailure(t, tokens);
    assert inv(Loop(step, [], tokens).0, tokens[..k]);
  }

  lemma JoinPatternsFirst(ps: seq<string>, n: nat, jt: JoinType)
    requires |ps| > 0
    ensures |JoinPatterns(ps, n, jt)| > 0 && JoinPatterns(ps, n, jt)[0] != ""
  {
    var r := JoinPatterns(ps, n, jt);
    var c := Continuous(ps, n, jt);
    JoinPatternsLayout(ps, n, jt);
    if |c| > 0 {
      assert r[0] == c[0];
      ContinuousMembers(ps, n, jt);
      assert c[0] in c;
    } else {
      assert r[0] == Prefixed(ps, SmallTsu('x', n, "tu"))[0];
    }
  }

  lemma SokuonStepWellFormed(cs: seq<Chunk>, charPoint: int)
    requires forall i :: 0 <= i < |cs| ==> WellFormed(cs[i])
    ensures forall i :: 0 <= i < |SokuonStep(cs, charPoint)| ==> WellFormed(SokuonStep(cs, charPoint)[i])
  {
    var r := SokuonStep(cs, charPoint);
    if r != cs {
      var n := |cs|;
      var cur := cs[n - 1];
      JoinPatternsFirst(cur.romaPatterns, Count(cs[n - 2].kana, 'っ'), Normal);
      JoinPatternsFirst(cur.romaPatterns, Count(cs[n - 2].kana, 'っ'), Iun);
      assert forall i :: 0 <= i < n - 2 ==> r[i] == cs[i];
    }
  }

  lemma ReplaceNNWellFormed(cs: seq<Chunk>, charPoint: int)
    requires forall i :: 0 <= i < |cs| ==> WellFormed(cs[i])
    ensures forall i :: 0 <= i < |ReplaceNN(cs, charPoint)| ==> WellFormed(ReplaceNN(cs, charPoint)[i])
  {
    var r := ReplaceNN(cs, charPoint);
    if |cs| >= 2 {
      RewriteNNMeaning(cs[|cs| - 2].romaPatterns);
      forall i | 0 <= i < |r|
        ensures WellFormed(r[i])
      {
        if i < |cs| - 2 {
          assert r[i] == r[..|cs| - 2][i];
        }
      }
    }
  }

  lemma DoubleNWellFormed(cs: seq<Chunk>)
    requires forall i :: 0 <= i < |cs| ==> WellFormed(cs[i])
    ensures forall i :: 0 <= i < |DoubleN(cs)| ==> WellFormed(DoubleN(cs)[i])
  {
    var r := DoubleN(cs);
    forall i | 0 <= i < |r|
      ensures WellFormed(r[i])
    {
      if i < |cs| - 1 {
        assert r[i] == r[..|cs| - 1][i];
      }
    }
  }

  lemma NasalStepWellFormed(v: Variant, cs: seq<Chunk>, charPoint: int)
    requires forall i :: 0 <= i < |cs| ==> WellFormed(cs[i])
    ensures forall i :: 0 <= i < |NasalStep(v, cs, charPoint)| ==> WellFormed(NasalStep(v, cs, charPoint)[i])
  {
    ReplaceNNWellFormed(cs, charPoint);
    DoubleNWellFormed(cs);
  }

  /** Adding a non-empty emittable token to well-formed chunks gives well-formed chunks. */
  lemma AddTokenWellFormed(t: Tables, v: Variant, cs: seq<Chunk>, kana: string, charPoint: int)
    requires forall i :: 0 <= i < |cs| ==> WellFormed(cs[i])
    requires kana != "" && Emittable(t, kana)
    ensures AddToken(t, v, cs, kana, charPoint).Some?
    ensures forall i :: 0 <= i < |AddToken(t, v, cs, kana, charPoint).value| ==>
              WellFormed(AddToken(t, v, cs, kana, charPoint).value[i])
  {
    var c := Emit(t, v, kana, charPoint).value;
    SokuonStepWellFormed(cs + [c], charPoint);
    NasalStepWellFormed(v, SokuonStep(cs + [c], charPoint), charPoint);
  }

  /** Chunks all well formed whenever the tokens consumed are all non-empty. */
  predicate WellFormedFrom(cs: seq<Chunk>, prefix: seq<string>) {
    (forall i :: 0 <= i < |prefix| ==> prefix[i] != "") ==> forall i :: 0 <= i < |cs| ==> WellFormed(cs[i])
  }

  /** One loop step keeps `WellFormedFrom`. */
  lemma WellFormedStep(t: Tables, v: Variant, cs: seq<Chunk>, prefix: seq<string>, x: string, charPoint: int)
    requires WellFormedFrom(cs, prefix) && Emittable(t, x)
    ensures AddToken(t, v, cs, x, charPoint).Some?
    ensures WellFormedFrom(AddToken(t, v, cs, x, charPoint).value, prefix + [x])
  {
    if forall i :: 0 <= i < |prefix + [x]| ==> (prefix + [x])[i] != "" {
      assert forall i :: 0 <= i < |prefix| ==> prefix[i] == (prefix + [x])[i];
      assert x == (prefix + [x])[|prefix|];
      AddTokenWellFormed(t, v, cs, x, charPoint);
    }
  }

  /** When every token is non-empty, every chunk the loop builds is well formed. */
  lemma BuildLoopWellFormed(t: Tables, v: Variant, tokens: seq<string>, charPoint: int)
    requires forall i :: 0 <= i < |tokens| ==> tokens[i] != ""
    ensures forall i :: 0 <= i < |BuildLoop(t, v, tokens, charPoint).0| ==> WellFormed(BuildLoop(t, v, tokens, charPoint).0[i])
  {
    var step := BuildStep(t, v, charPoint);
    BuildStepRefuses(t, v, charPoint);
    forall cs, prefix, x | WellFormedFrom(cs, prefix) && CanEmit(t)(x) && step(cs, x).Some?
      ensures WellFormedFrom(step(cs, x).value, prefix + [x])
    {
      assert step(cs, x) == AddToken(t, v, cs, x, charPoint);
      WellFormedStep(t, v, cs, prefix, x, charPoint);
    }
    var inv := (cs, prefix) => WellFormedFrom(cs, prefix);
    LoopInvariant(step, CanEmit(t), inv, [], tokens);
    var k := FirstFailure(t, tokens);
    var r := Loop(step, [], tokens).0;
    assert inv(r, tokens[..k]);
    assert WellFormedFrom(r, tokens[..k]);
    assert forall i :: 0 <= i < k ==> tokens[..k][i] == tokens[i];
  }

  /** The builder's result is the loop's chunks, with the word-final rule unless the loop gave up. */
  lemma ParseKanaChunksUnfold(t: Tables, v: Variant, tokens: seq<string>, charPoint: int)
    requires tokens != []
    ensures var (cs, stopped) := BuildLoop(t, v, tokens, charPoint);
            ParseKanaChunks(t, v, tokens, charPoint) == if stopped then cs else FinalNasal(cs, charPoint)
  {
  }

  /**
   * For non-empty tokens that can all be emitted, the builder returns at least one and at
   * most as many chunks as tokens, all well formed, and together they spell the tokens.
   */
  lemma ParseSpellsTokens(t: Tables, v: Variant, tokens: seq<string>, charPoint: int)
    requires |tokens| > 0
    requires forall i :: 0 <= i < |tokens| ==> tokens[i] != "" && Emittable(t, tokens[i])
    ensures var r := ParseKanaChunks(t, v, tokens, charPoint);
            1 <= |r| <= |tokens| && Concat(Kanas(r)) == Concat(tokens) &&
            forall i :: 0 <= i < |r| ==> WellFormed(r[i])
  {
    BuildLoopStops(t, v, tokens, charPoint);
    BuildLoopSpelling(t, v, tokens, charPoint);
    BuildLoopWellFormed(t, v, tokens, charPoint);
    ParseKanaChunksUnfold(t, v, tokens, charPoint);
    var cs := BuildLoop(t, v, tokens, charPoint).0;
    assert FirstFailure(t, tokens) == |tokens|;
    assert tokens[..|tokens|] == tokens;
    var r := FinalNasal(cs, charPoint);
    assert Concat(tokens) != "" by {
      assert Concat(tokens) == tokens[0] + Concat(tokens[1..]);
    }
    assert |cs| > 0 by {
      assert Concat(Kanas(cs)) != "";
    }
    FinalNasalWellFormed(cs, charPoint);
  }

  lemma FinalNasalWellFormed(cs: seq<Chunk>, charPoint: int)
    requires forall i :: 0 <= i < |cs| ==> WellFormed(cs[i])
    ensures forall i :: 0 <= i < |FinalNasal(cs, charPoint)| ==> WellFormed(FinalNasal(cs, charPoint)[i])
  {
    var r := FinalNasal(cs, charPoint);
    if |cs| > 0 {
      assert forall i :: 0 <= i < |cs| - 1 ==> r[i] == r[..|cs| - 1][i];
    }
  }

  /** The loop over all tokens ends where it gave up, at the first token it cannot emit. */
  lemma LoopStopsAtFailure(t: Tables, v: Variant, tokens: seq<string>, charPoint: int)
    requires FirstFailure(t, tokens) < |tokens|
    ensures BuildLoop(t, v, tokens, charPoint) == (BuildLoop(t, v, tokens[..FirstFailure(t, tokens)], charPoint).0, true)
  {
    BuildStepRefuses(t, v, charPoint);
    LoopAtFailure(BuildStep(t, v, charPoint), CanEmit(t), [], tokens);
  }

  /**
   * When a token cannot be emitted the builder returns the chunks built before it, and the
   * word-final rule is skipped.
   */
  lemma ParseStopsAtFailure(t: Tables, v: Variant, tokens: seq<string>, charPoint: int)
    requires FirstFailure(t, tokens) < |tokens|
    ensures ParseKanaChunks(t, v, tokens, charPoint)
         == BuildLoop(t, v, tokens[..FirstFailure(t, tokens)], charPoint).0
    ensures Concat(Kanas(ParseKanaChunks(t, v, tokens, charPoint))) == Concat(tokens[..FirstFailure(t, tokens)])
  {
    var k := FirstFailure(t, tokens);
    LoopStopsAtFailure(t, v, tokens, charPoint);
    ParseKanaChunksUnfold(t, v, tokens, charPoint);
    FirstFalsePrefix(CanEmit(t), tokens, k);
    BuildLoopSpelling(t, v, tokens[..k], charPoint);
    assert tokens[..k][..k] == tokens[..k];
  }
}
