/**
 * The chunk builder: turns one line's tokens into chunks with romaji spellings and
 * scores, then normalises the spellings with three rewrite rules (the sokuon merge, the
 * ん→nn rewrite before an ambiguous follower, the word-final ん).
 *
 * Two generations of the builder exist and both are modelled by one definition with a
 * `Variant`: `Current` is `parseKanaChunksToWordChunks`, `Legacy` is `buildTypingWord`.
 * They differ in two places: the legacy builder also widens the spellings of a chunk that
 * follows ん before a non-ambiguous character, and it classifies letters through the
 * alphabet table rather than by character range.
 *
 * Every chunk object the builders touch is created inside them, so chunks are values and
 * the list under construction is a local sequence the methods reassign.
 */
module ChunkBuilder {
  import opened Wrappers
  import opened Text
  import opened Tables
  import opened Utils
  import opened Chunks

  datatype Variant = Current | Legacy

  /** The two ways a sokuon merges with its follower. */
  datatype JoinType = Normal | Iun

  /** Followers after which ん must be typed nn (`NN_LIST`). */
  predicate InNNList(c: char) {
    match c
    case 'あ' | 'い' | 'う' | 'え' | 'お' | 'な' | 'に' | 'ぬ' | 'ね' | 'の' | 'や' | 'ゆ' | 'よ' | 'ん' | '\'' | '’'
       | 'a' | 'i' | 'u' | 'e' | 'o' | 'y' | 'n' | 'A' | 'I' | 'U' | 'E' | 'O' | 'Y' | 'N' => true
    case _ => false
  }

  /** First characters a preceding っ merges with normally (`SOKUON_JOIN_LIST`). */
  predicate InSokuonJoinList(c: char) {
    match c
    case 'ヰ' | 'ゐ' | 'ヱ' | 'ゑ' | 'ぁ' | 'ぃ' | 'ぅ' | 'ぇ' | 'ぉ' | 'ゃ' | 'ゅ' | 'ょ' | 'っ' | 'ゎ' | 'ヵ' | 'ヶ' | 'ゔ'
       | 'か' | 'き' | 'く' | 'け' | 'こ' | 'さ' | 'し' | 'す' | 'せ' | 'そ' | 'た' | 'ち' | 'つ' | 'て' | 'と'
       | 'は' | 'ひ' | 'ふ' | 'へ' | 'ほ' | 'ま' | 'み' | 'む' | 'め' | 'も' | 'や' | 'ゆ' | 'よ'
       | 'ら' | 'り' | 'る' | 'れ' | 'ろ' | 'わ' | 'を'
       | 'が' | 'ぎ' | 'ぐ' | 'げ' | 'ご' | 'ざ' | 'じ' | 'ず' | 'ぜ' | 'ぞ' | 'だ' | 'ぢ' | 'づ' | 'で' | 'ど'
       | 'ば' | 'び' | 'ぶ' | 'べ' | 'ぼ' | 'ぱ' | 'ぴ' | 'ぷ' | 'ぺ' | 'ぽ' => true
    case _ => false
  }

  /** First characters a preceding っ merges with in the "iun" way. */
  const IUN_KANA: set<char> := {'い', 'う', 'ん'}

  /** Pattern initials that get no doubled-consonant form in an "iun" merge. */
  const IUN_ROMA: set<char> := {'i', 'u', 'n'}

  /** Symbols the kana keyboard cannot type (`KANA_UNSUPPORTED_SYMBOLS`). */
  const KANA_UNSUPPORTED_SYMBOLS: set<string> := {"←", "↓", "↑", "→"}

  // ---------------------------------------------------------------------------------------
  // Emitting one chunk

  /**
   * The spellings of a token: its kana-table entry, else its symbol-table entry, else the
   * token itself made half-width. An entry that is present is used even when it is empty
   * (an empty array is truthy in `a || b`).
   */
  function LookupPatterns(t: Tables, kana: string): seq<string> {
    match Get(t.romaMap, kana)
    case Some(ps) => ps
    case None =>
      match Get(t.symbolMap, kana)
      case Some(ps) => ps
      case None => [ConvertZenkakuToHankaku(kana)]
  }

  /** The kana table wins over the symbol table, and an entry that is present is used as is. */
  lemma LookupOrder(t: Tables, kana: string)
    ensures kana in Keys(t.romaMap) ==> Some(LookupPatterns(t, kana)) == Get(t.romaMap, kana)
    ensures kana !in Keys(t.romaMap) && kana in Keys(t.symbolMap) ==>
              Some(LookupPatterns(t, kana)) == Get(t.symbolMap, kana)
  {
  }

  /** A token outside both tables is typed as itself, made half-width. */
  lemma FallbackSpelling(t: Tables, kana: string)
    requires !InVocabulary(t, kana)
    ensures LookupPatterns(t, kana) == [ConvertZenkakuToHankaku(kana)]
    ensures |LookupPatterns(t, kana)| == 1
    ensures |LookupPatterns(t, kana)[0]| == |kana|
    ensures kana != "" ==> LookupPatterns(t, kana)[0] != ""
  {
  }

  /** `determineCharacterType` of either builder: the first test that holds decides. */
  function DetermineCharacterType(t: Tables, v: Variant, kana: string, roma: string): (r: CharType)
    ensures r != NoType
    ensures r == Kana <==> kana in Keys(t.romaMap)
    ensures r == Alphabet <==>
              kana !in Keys(t.romaMap) &&
              (if v == Current then IsAlphabet(roma) else roma in t.alphabetList)
    ensures r == Num <==>
              kana !in Keys(t.romaMap) &&
              !(if v == Current then IsAlphabet(roma) else roma in t.alphabetList) &&
              roma in t.numList
    ensures r == Space <==>
              kana !in Keys(t.romaMap) &&
              !(if v == Current then IsAlphabet(roma) else roma in t.alphabetList) &&
              roma !in t.numList && roma == " "
    ensures r == Symbol ==> roma != " " && roma !in t.numList
  {
    if kana in Keys(t.romaMap) then Kana
    else if (if v == Current then IsAlphabet(roma) else roma in t.alphabetList) then Alphabet
    else if roma in t.numList then Num
    else if roma == " " then Space
    else Symbol
  }

  /** The two classifications agree when the alphabet table holds exactly the 52 letters. */
  lemma ClassificationVariantsAgree(t: Tables, kana: string, roma: string)
    requires forall s :: s in t.alphabetList <==> IsAlphabet(s)
    ensures DetermineCharacterType(t, Current, kana, roma) == DetermineCharacterType(t, Legacy, kana, roma)
  {
  }

  /** A token can be emitted when its first spelling exists and is not empty. */
  predicate Emittable(t: Tables, kana: string) {
    var ps := LookupPatterns(t, kana);
    |ps| > 0 && ps[0] != ""
  }

  /** The chunk pushed for a token, or `None` where the builder gives up. */
  function Emit(t: Tables, v: Variant, kana: string, charPoint: int): (r: Option<Chunk>)
    ensures r.Some? <==> Emittable(t, kana)
    ensures r.Some? ==>
              r.value.kana == kana && r.value.romaPatterns == LookupPatterns(t, kana) &&
              r.value.point == charPoint * |r.value.romaPatterns[0]| &&
              r.value.originalDakuChar.None? &&
              r.value.kind == DetermineCharacterType(t, v, kana, r.value.romaPatterns[0]) &&
              (r.value.unsupportedSymbol.Some? <==> kana in KANA_UNSUPPORTED_SYMBOLS)
  {
    var ps := LookupPatterns(t, kana);
    if |ps| == 0 || ps[0] == "" then None
    else
      Some(Chunk(kana, ps, charPoint * |ps[0]|, DetermineCharacterType(t, v, kana, ps[0]),
                 if kana in KANA_UNSUPPORTED_SYMBOLS then Some(kana) else None, None))
  }

  // ---------------------------------------------------------------------------------------
  // Sokuon merge

  /** The doubled-consonant form a pattern contributes, if any. */
  function ContinuousOf(p: string, n: nat, jt: JoinType): seq<string> {
    if p != "" && (jt == Normal || p[0] !in IUN_ROMA) then [Repeat(p[0], n) + p] else []
  }

  /**
   * The doubled-consonant forms: for each pattern in order that is not empty (and, in an
   * "iun" merge, does not start with i, u or n), its first letter n times, then the pattern.
   */
  function Continuous(ps: seq<string>, n: nat, jt: JoinType): (r: seq<string>)
    ensures |r| <= |ps|
  {
    if ps == [] then [] else Continuous(ps[..|ps| - 1], n, jt) + ContinuousOf(ps[|ps| - 1], n, jt)
  }

  /** Whether pattern `p` has a doubled-consonant form in a merge of kind `jt`. */
  predicate Doubles(p: string, jt: JoinType) {
    p != "" && (jt == Normal || p[0] !in IUN_ROMA)
  }

  /** The doubled-consonant forms are exactly those of the patterns that have one. */
  lemma {:induction false} ContinuousMembers(ps: seq<string>, n: nat, jt: JoinType)
    ensures forall q :: q in Continuous(ps, n, jt) <==>
              exists p :: p in ps && Doubles(p, jt) && q == Repeat(p[0], n) + p
  {
    if ps != [] {
      var init, last := ps[..|ps| - 1], ps[|ps| - 1];
      ContinuousMembers(init, n, jt);
      assert ps == init + [last];
    }
  }

  /** A normal merge gives every non-empty pattern a doubled form. */
  lemma {:induction false} NormalContinuousCount(ps: seq<string>, n: nat)
    requires forall i :: 0 <= i < |ps| ==> ps[i] != ""
    ensures |Continuous(ps, n, Normal)| == |ps|
  {
    if ps != [] {
      NormalContinuousCount(ps[..|ps| - 1], n);
    }
  }

  /** Each pattern with `prefix` in front, in order. */
  function Prefixed(ps: seq<string>, prefix: string): (r: seq<string>)
    ensures |r| == |ps|
  {
    seq(|ps|, i requires 0 <= i < |ps| => prefix + ps[i])
  }

  lemma PrefixedSnoc(ps: seq<string>, p: string, prefix: string)
    ensures Prefixed(ps + [p], prefix) == Prefixed(ps, prefix) + [prefix + p]
  {
  }

  /** `"x".repeat(n) + "tu"` and its l/tsu siblings: the spelled-out small-tsu prefixes. */
  function SmallTsu(letter: char, n: nat, tail: string): (r: string)
    requires tail != ""
    ensures |r| == n + |tail|
    ensures r[0] == if n > 0 then letter else tail[0]
  {
    Repeat(letter, n) + tail
  }

  /** The spellings of a merged chunk: the doubled-consonant forms, then the four small-tsu blocks. */
  function JoinPatterns(ps: seq<string>, n: nat, jt: JoinType): (r: seq<string>)
    ensures |r| == |Continuous(ps, n, jt)| + 4 * |ps|
  {
    Continuous(ps, n, jt) + Prefixed(ps, SmallTsu('x', n, "tu")) + Prefixed(ps, SmallTsu('l', n, "tu"))
      + Prefixed(ps, SmallTsu('x', n, "tsu")) + Prefixed(ps, SmallTsu('l', n, "tsu"))
  }

  /**
   * The layout of the merged spellings: all doubled-consonant forms first, then four blocks
   * as long as the original list, holding x…xtu+p, l…ltu+p, x…xtsu+p and l…ltsu+p for the
   * patterns p in their original order, with as many x or l as there were っ.
   */
  lemma JoinPatternsLayout(ps: seq<string>, n: nat, jt: JoinType)
    ensures var r, c := JoinPatterns(ps, n, jt), |Continuous(ps, n, jt)|;
            r[..c] == Continuous(ps, n, jt) &&
            r[c..c + |ps|] == Prefixed(ps, SmallTsu('x', n, "tu")) &&
            r[c + |ps|..c + 2 * |ps|] == Prefixed(ps, SmallTsu('l', n, "tu")) &&
            r[c + 2 * |ps|..c + 3 * |ps|] == Prefixed(ps, SmallTsu('x', n, "tsu")) &&
            r[c + 3 * |ps|..] == Prefixed(ps, SmallTsu('l', n, "tsu"))
  {
    var c := Continuous(ps, n, jt);
    var xtu, ltu := Prefixed(ps, SmallTsu('x', n, "tu")), Prefixed(ps, SmallTsu('l', n, "tu"));
    var xtsu, ltsu := Prefixed(ps, SmallTsu('x', n, "tsu")), Prefixed(ps, SmallTsu('l', n, "tsu"));
    FiveBlocks(JoinPatterns(ps, n, jt), c, xtu, ltu, xtsu, ltsu, |ps|);
  }

  /** Where each of five glued lists sits when the last four have the same length. */
  lemma FiveBlocks<T>(r: seq<T>, a: seq<T>, b: seq<T>, c: seq<T>, d: seq<T>, e: seq<T>, k: nat)
    requires r == a + b + c + d + e
    requires |b| == k && |c| == k && |d| == k && |e| == k
    ensures r[..|a|] == a && r[|a|..|a| + k] == b && r[|a| + k..|a| + 2 * k] == c &&
            r[|a| + 2 * k..|a| + 3 * k] == d && r[|a| + 3 * k..] == e
  {
    var m := |a|;
    assert r[..m] == a;
    assert r[m..m + k] == b;
    assert r[m + k..m + 2 * k] == c;
    assert r[m + 2 * k..m + 3 * k] == d;
    assert r[m + 3 * k..] == e;
  }

  /**
   * `joinSokuonPattern` on values: the last two chunks become one whose kana is both
   * kanas, whose spellings are `JoinPatterns` of the last chunk's with n the number of っ in
   * the previous kana, and whose point is scored from the new first spelling.
   */
  function JoinChunks(cs: seq<Chunk>, jt: JoinType, charPoint: int): (r: seq<Chunk>)
    ensures |cs| >= 2 ==> |r| == |cs| - 1 && r[..|r| - 1] == cs[..|cs| - 2]
    ensures |cs| >= 2 ==> r[|r| - 1].kana == cs[|cs| - 2].kana + cs[|cs| - 1].kana
    ensures |cs| >= 2 ==>
              var last, cur := r[|r| - 1], cs[|cs| - 1];
              last.romaPatterns == JoinPatterns(cur.romaPatterns, Count(cs[|cs| - 2].kana, 'っ'), jt) &&
              last.point == charPoint * |FirstPattern(last)| &&
              last.kind == cur.kind && last.unsupportedSymbol == cur.unsupportedSymbol &&
              last.originalDakuChar == cur.originalDakuChar
    ensures |cs| < 2 ==> r == cs
  {
    if |cs| < 2 then cs
    else
      var prev, cur := cs[|cs| - 2], cs[|cs| - 1];
      var ps := JoinPatterns(cur.romaPatterns, Count(prev.kana, 'っ'), jt);
      cs[..|cs| - 2] + [cur.(kana := prev.kana + cur.kana, romaPatterns := ps,
                             point := charPoint * (if |ps| > 0 then |ps[0]| else 0))]
  }

  /** In an "iun" merge no spelling starts with i, u or n. */
  lemma IunHasNoDoubledVowel(ps: seq<string>, n: nat)
    ensures forall q :: q in JoinPatterns(ps, n, Iun) ==> q != "" && q[0] !in IUN_ROMA
  {
    var c := Continuous(ps, n, Iun);
    var xtu, ltu := Prefixed(ps, SmallTsu('x', n, "tu")), Prefixed(ps, SmallTsu('l', n, "tu"));
    var xtsu, ltsu := Prefixed(ps, SmallTsu('x', n, "tsu")), Prefixed(ps, SmallTsu('l', n, "tsu"));
    var r := JoinPatterns(ps, n, Iun);
    assert r == c + xtu + ltu + xtsu + ltsu;
    IunContinuousInitial(ps, n);
    forall q | q in r
      ensures q != "" && q[0] !in IUN_ROMA
    {
      if q in c {
      } else if q in xtu {
        PrefixedInitial(ps, SmallTsu('x', n, "tu"));
      } else if q in ltu {
        PrefixedInitial(ps, SmallTsu('l', n, "tu"));
      } else if q in xtsu {
        PrefixedInitial(ps, SmallTsu('x', n, "tsu"));
      } else {
        assert q in ltsu;
        PrefixedInitial(ps, SmallTsu('l', n, "tsu"));
      }
    }
  }

  lemma IunContinuousInitial(ps: seq<string>, n: nat)
    ensures forall q :: q in Continuous(ps, n, Iun) ==> q != "" && q[0] !in IUN_ROMA
  {
    ContinuousMembers(ps, n, Iun);
    forall q | q in Continuous(ps, n, Iun)
      ensures q != "" && q[0] !in IUN_ROMA
    {
      var p :| p in ps && Doubles(p, Iun) && q == Repeat(p[0], n) + p;
      assert q[0] == p[0];
    }
  }

  /** Every element of a prefixed list starts with the prefix. */
  lemma PrefixedInitial(ps: seq<string>, prefix: string)
    requires prefix != ""
    ensures forall q :: q in Prefixed(ps, prefix) ==> q != "" && q[0] == prefix[0]
  {
    forall q | q in Prefixed(ps, prefix)
      ensures q != "" && q[0] == prefix[0]
    {
      var i :| 0 <= i < |ps| && Prefixed(ps, prefix)[i] == q;
    }
  }

  /** What one more spelling adds to the doubled forms and to each small-tsu block. */
  lemma GatherStep(ps: seq<string>, i: nat, n: nat, jt: JoinType)
    requires i < |ps|
    ensures Continuous(ps[..i + 1], n, jt) == Continuous(ps[..i], n, jt) + ContinuousOf(ps[i], n, jt)
    ensures Prefixed(ps[..i + 1], SmallTsu('x', n, "tu")) == Prefixed(ps[..i], SmallTsu('x', n, "tu")) + [SmallTsu('x', n, "tu") + ps[i]]
    ensures Prefixed(ps[..i + 1], SmallTsu('l', n, "tu")) == Prefixed(ps[..i], SmallTsu('l', n, "tu")) + [SmallTsu('l', n, "tu") + ps[i]]
    ensures Prefixed(ps[..i + 1], SmallTsu('x', n, "tsu")) == Prefixed(ps[..i], SmallTsu('x', n, "tsu")) + [SmallTsu('x', n, "tsu") + ps[i]]
    ensures Prefixed(ps[..i + 1], SmallTsu('l', n, "tsu")) == Prefixed(ps[..i], SmallTsu('l', n, "tsu")) + [SmallTsu('l', n, "tsu") + ps[i]]
  {
    assert ps[..i + 1] == ps[..i] + [ps[i]];
    assert ps[..i + 1][..i] == ps[..i];
    PrefixedSnoc(ps[..i], ps[i], SmallTsu('x', n, "tu"));
    PrefixedSnoc(ps[..i], ps[i], SmallTsu('l', n, "tu"));
    PrefixedSnoc(ps[..i], ps[i], SmallTsu('x', n, "tsu"));
    PrefixedSnoc(ps[..i], ps[i], SmallTsu('l', n, "tsu"));
  }

  /**
   * `joinSokuonPattern`: builds the five lists in one pass over the last chunk's
   * spellings and replaces the last two chunks with the merged one.
   */
  method JoinSokuonPattern(wordChunks: seq<Chunk>, joinType: JoinType, charPoint: int)
    returns (result: seq<Chunk>)
    ensures result == JoinChunks(wordChunks, joinType, charPoint)
  {
    if |wordChunks| < 2 {
      return wordChunks;
    }
    var prevChunk, currentChunk := wordChunks[|wordChunks| - 2], wordChunks[|wordChunks| - 1];
    var sokuonLength := Count(prevChunk.kana, 'っ');
    var romaPatterns := currentChunk.romaPatterns;
    var continuous, xtu, ltu, xtsu, ltsu := [], [], [], [], [];
    for i := 0 to |romaPatterns|
      invariant continuous == Continuous(romaPatterns[..i], sokuonLength, joinType)
      invariant xtu == Prefixed(romaPatterns[..i], SmallTsu('x', sokuonLength, "tu"))
      invariant ltu == Prefixed(romaPatterns[..i], SmallTsu('l', sokuonLength, "tu"))
      invariant xtsu == Prefixed(romaPatterns[..i], SmallTsu('x', sokuonLength, "tsu"))
      invariant ltsu == Prefixed(romaPatterns[..i], SmallTsu('l', sokuonLength, "tsu"))
    {
      var romaPattern := romaPatterns[i];
      GatherStep(romaPatterns, i, sokuonLength, joinType);
      if romaPattern != "" && (joinType == Normal || romaPattern[0] !in IUN_ROMA) {
        continuous := continuous + [Repeat(romaPattern[0], sokuonLength) + romaPattern];
      }
      xtu := xtu + [SmallTsu('x', sokuonLength, "tu") + romaPattern];
      ltu := ltu + [SmallTsu('l', sokuonLength, "tu") + romaPattern];
      xtsu := xtsu + [SmallTsu('x', sokuonLength, "tsu") + romaPattern];
      ltsu := ltsu + [SmallTsu('l', sokuonLength, "tsu") + romaPattern];
    }
    assert romaPatterns[..|romaPatterns|] == romaPatterns;
    var patterns := continuous + xtu + ltu + xtsu + ltsu;
    var merged := currentChunk.(kana := prevChunk.kana + currentChunk.kana, romaPatterns := patterns,
                                point := charPoint * (if |patterns| > 0 then |patterns[0]| else 0));
    result := wordChunks[..|wordChunks| - 2] + [merged];
  }

  // ---------------------------------------------------------------------------------------
  // ん before an ambiguous follower

  /** A spelling of ん that a following vowel, y or n would make ambiguous. */
  predicate IsNNPattern(p: string) {
    (|p| >= 2 && p[|p| - 2] != 'x' && p[|p| - 1] == 'n') || p == "n"
  }

  /** The number of ambiguous spellings in a list. */
  function CountNN(ps: seq<string>): (r: nat)
    ensures r <= |ps|
  {
    if ps == [] then 0 else CountNN(ps[..|ps| - 1]) + (if IsNNPattern(ps[|ps| - 1]) then 1 else 0)
  }

  /** `k` copies of the spelling n'. */
  function Apostrophes(k: nat): (r: seq<string>)
    ensures |r| == k
    ensures forall i :: 0 <= i < k ==> r[i] == "n'"
  {
    seq(k, _ => "n'")
  }

  /** The spellings with the first `k` ambiguous ones extended by an n, in place. */
  function RewriteFirst(ps: seq<string>, k: nat): (r: seq<string>)
    ensures |r| == |ps|
  {
    seq(|ps|, j requires 0 <= j < |ps| => if j < k && IsNNPattern(ps[j]) then ps[j] + "n" else ps[j])
  }

  /** The spellings `replaceNWithNN` leaves: each ambiguous one extended, one n' per rewrite. */
  function RewriteNN(ps: seq<string>): seq<string> {
    RewriteFirst(ps, |ps|) + Apostrophes(CountNN(ps))
  }

  /**
   * What the rewrite achieves: an ambiguous spelling now ends in nn (a single n no longer
   * completes ん), every other spelling is kept at its place, and one n' is appended per
   * rewritten spelling.
   */
  lemma RewriteNNMeaning(ps: seq<string>)
    ensures |RewriteNN(ps)| == |ps| + CountNN(ps)
    ensures forall i :: 0 <= i < |ps| && IsNNPattern(ps[i]) ==>
              RewriteNN(ps)[i] == ps[i] + "n" && |RewriteNN(ps)[i]| >= 2 &&
              RewriteNN(ps)[i][|RewriteNN(ps)[i]| - 1] == 'n' && RewriteNN(ps)[i][|RewriteNN(ps)[i]| - 2] == 'n'
    ensures forall i :: 0 <= i < |ps| && !IsNNPattern(ps[i]) ==> RewriteNN(ps)[i] == ps[i]
    ensures forall i :: |ps| <= i < |RewriteNN(ps)| ==> RewriteNN(ps)[i] == "n'"
  {
  }

  /**
   * The point `replaceNWithNN` leaves: the score of the last ambiguous spelling, measured
   * before its n was added, or the old point when there is none.
   */
  function NNPoint(ps: seq<string>, charPoint: int, point: int): (r: int)
    ensures CountNN(ps) == 0 ==> r == point
    ensures CountNN(ps) > 0 ==>
              exists j :: 0 <= j < |ps| && IsNNPattern(ps[j]) && r == charPoint * |ps[j]| &&
                          forall k :: j < k < |ps| ==> !IsNNPattern(ps[k])
  {
    if ps == [] then point
    else if IsNNPattern(ps[|ps| - 1]) then charPoint * |ps[|ps| - 1]|
    else
      var r := NNPoint(ps[..|ps| - 1], charPoint, point);
      assert CountNN(ps) == CountNN(ps[..|ps| - 1]);
      r
  }

  /** `replaceNWithNN` on values: rewrites the spellings and point of the previous chunk. */
  function ReplaceNN(cs: seq<Chunk>, charPoint: int): (r: seq<Chunk>)
    ensures |r| == |cs| && Kanas(r) == Kanas(cs)
    ensures |cs| >= 2 ==> r[..|cs| - 2] == cs[..|cs| - 2] && r[|cs| - 1] == cs[|cs| - 1]
    ensures |cs| >= 2 ==>
              r[|cs| - 2] == cs[|cs| - 2].(romaPatterns := RewriteNN(cs[|cs| - 2].romaPatterns),
                                           point := NNPoint(cs[|cs| - 2].romaPatterns, charPoint, cs[|cs| - 2].point))
    ensures |cs| < 2 ==> r == cs
  {
    if |cs| < 2 then cs
    else
      var prev := cs[|cs| - 2];
      cs[|cs| - 2 := prev.(romaPatterns := RewriteNN(prev.romaPatterns),
                           point := NNPoint(prev.romaPatterns, charPoint, prev.point))]
  }

  /** The spellings after the walk has visited the first `k` original entries. */
  function PartialRewrite(orig: seq<string>, k: nat): (r: seq<string>)
    requires k <= |orig|
    ensures |r| == |orig| + CountNN(orig[..k])
    ensures forall j :: |orig| <= j < |r| ==> r[j] == "n'"
  {
    RewriteFirst(orig, k) + Apostrophes(CountNN(orig[..k]))
  }

  /** One step of the walk over an original entry. */
  lemma PartialRewriteStep(orig: seq<string>, k: nat, charPoint: int, point: int)
    requires k < |orig|
    ensures IsNNPattern(orig[k]) ==>
              PartialRewrite(orig, k + 1) == PartialRewrite(orig, k)[k := orig[k] + "n"] + ["n'"] &&
              NNPoint(orig[..k + 1], charPoint, point) == charPoint * |orig[k]|
    ensures !IsNNPattern(orig[k]) ==>
              PartialRewrite(orig, k + 1) == PartialRewrite(orig, k) &&
              NNPoint(orig[..k + 1], charPoint, point) == NNPoint(orig[..k], charPoint, point)
  {
    assert orig[..k + 1][..k] == orig[..k];
    if IsNNPattern(orig[k]) {
      assert RewriteFirst(orig, k + 1) == RewriteFirst(orig, k)[k := orig[k] + "n"];
      assert Apostrophes(CountNN(orig[..k + 1])) == Apostrophes(CountNN(orig[..k])) + ["n'"];
    } else {
      assert RewriteFirst(orig, k + 1) == RewriteFirst(orig, k);
    }
  }

  /** The walk's state after visiting entry `i` of the spellings, given its state before. */
  lemma WalkStep(orig: seq<string>, i: nat, ps: seq<string>, point: int, charPoint: int, point0: int)
    requires i < |ps| && |ps| <= 2 * |orig|
    requires var k := if i < |orig| then i else |orig|;
             ps == PartialRewrite(orig, k) && point == NNPoint(orig[..k], charPoint, point0)
    ensures var p := ps[i];
            var rewrite := IsNNPattern(p) && p != "";
            var ps' := if rewrite then ps[i := p + "n"] + ["n'"] else ps;
            var point' := if rewrite then charPoint * |p| else point;
            var k := if i + 1 < |orig| then i + 1 else |orig|;
            |ps'| <= 2 * |orig| && ps' == PartialRewrite(orig, k) && point' == NNPoint(orig[..k], charPoint, point0)
  {
    if i < |orig| {
      PartialRewriteStep(orig, i, charPoint, point0);
      assert ps[i] == orig[i];
      if i + 1 == |orig| {
        assert orig[..i + 1] == orig[..|orig|];
      }
    } else {
      assert ps[i] == "n'" && !IsNNPattern(ps[i]);
    }
  }

  /**
   * `replaceNWithNN`: walks the previous chunk's spellings while it extends them, the way
   * `entries()` sees the n' entries pushed during the walk (they are never ambiguous).
   */
  method ReplaceNWithNN(typeChunks: seq<Chunk>, charPoint: int) returns (result: seq<Chunk>)
    ensures result == ReplaceNN(typeChunks, charPoint)
  {
    if |typeChunks| < 2 {
      return typeChunks;
    }
    var prevChunk := typeChunks[|typeChunks| - 2];
    var orig := prevChunk.romaPatterns;
    var romaPatterns := orig;
    var point := prevChunk.point;
    var i := 0;
    assert orig[..0] == [];
    assert RewriteFirst(orig, 0) == orig;
    while i < |romaPatterns|
      invariant i <= |romaPatterns| <= 2 * |orig|
      invariant var k := if i < |orig| then i else |orig|;
                romaPatterns == PartialRewrite(orig, k) && point == NNPoint(orig[..k], charPoint, prevChunk.point)
      decreases 2 * |orig| - i
    {
      var romaPattern := romaPatterns[i];
      WalkStep(orig, i, romaPatterns, point, charPoint, prevChunk.point);
      if IsNNPattern(romaPattern) && romaPattern != "" {
        romaPatterns := romaPatterns[i := romaPattern + "n"] + ["n'"];
        point := charPoint * |romaPattern|;
      }
      i := i + 1;
    }
    assert orig[..|orig|] == orig;
    result := typeChunks[|typeChunks| - 2 := prevChunk.(romaPatterns := romaPatterns, point := point)];
  }

  // ---------------------------------------------------------------------------------------
  // ん before any other follower (legacy builder only)

  /** n+p then '+p for every spelling p, in order. */
  function DoubledTail(ps: seq<string>): (r: seq<string>)
    ensures |r| == 2 * |ps|
  {
    if ps == [] then [] else DoubledTail(ps[..|ps| - 1]) + ["n" + ps[|ps| - 1], "'" + ps[|ps| - 1]]
  }

  /**
   * The widened list keeps the original spellings in order and then offers each one
   * behind an n and behind an apostrophe, so a ん typed as a single n can still be closed.
   */
  lemma {:induction false} DoubledTailLayout(ps: seq<string>)
    ensures forall i :: 0 <= i < |ps| ==>
              DoubledTail(ps)[2 * i] == "n" + ps[i] && DoubledTail(ps)[2 * i + 1] == "'" + ps[i]
  {
    if ps != [] {
      var init := ps[..|ps| - 1];
      DoubledTailLayout(init);
      forall i | 0 <= i < |ps|
        ensures DoubledTail(ps)[2 * i] == "n" + ps[i] && DoubledTail(ps)[2 * i + 1] == "'" + ps[i]
      {
        if i < |init| {
          assert ps[i] == init[i];
        }
      }
    }
  }

  /** `applyDoubleNTypePattern` on values: widens the last chunk's spellings unless its kana is empty. */
  function DoubleN(cs: seq<Chunk>): (r: seq<Chunk>)
    ensures |r| == |cs| && Kanas(r) == Kanas(cs)
    ensures |cs| > 0 ==> r[..|cs| - 1] == cs[..|cs| - 1]
    ensures |cs| > 0 && cs[|cs| - 1].kana != "" ==>
              r[|cs| - 1] == cs[|cs| - 1].(romaPatterns := cs[|cs| - 1].romaPatterns + DoubledTail(cs[|cs| - 1].romaPatterns))
    ensures |cs| == 0 || cs[|cs| - 1].kana == "" ==> r == cs
  {
    if |cs| == 0 || cs[|cs| - 1].kana == "" then cs
    else
      var last := cs[|cs| - 1];
      cs[..|cs| - 1] + [last.(romaPatterns := last.romaPatterns + DoubledTail(last.romaPatterns))]
  }

  /** `applyDoubleNTypePattern`: pushes n+p and '+p onto the live list for each original p. */
  method ApplyDoubleNTypePattern(typeChunks: seq<Chunk>) returns (result: seq<Chunk>)
    ensures result == DoubleN(typeChunks)
  {
    if |typeChunks| == 0 {
      return typeChunks;
    }
    var lastChunk := typeChunks[|typeChunks| - 1];
    if lastChunk.kana == "" {
      return typeChunks;
    }
    var currentRomaPatterns := lastChunk.romaPatterns;
    var romaPatterns := currentRomaPatterns;
    for i := 0 to |currentRomaPatterns|
      invariant romaPatterns == currentRomaPatterns + DoubledTail(currentRomaPatterns[..i])
    {
      assert currentRomaPatterns[..i + 1][..i] == currentRomaPatterns[..i];
      romaPatterns := romaPatterns + ["n" + currentRomaPatterns[i]];
      romaPatterns := romaPatterns + ["'" + currentRomaPatterns[i]];
    }
    assert currentRomaPatterns[..|currentRomaPatterns|] == currentRomaPatterns;
    result := typeChunks[..|typeChunks| - 1] + [lastChunk.(romaPatterns := romaPatterns)];
  }

  // ---------------------------------------------------------------------------------------
  // The build loop

  /** The sokuon rule applied after a push: merge when the previous kana ends in っ. */
  function SokuonStep(cs: seq<Chunk>, charPoint: int): seq<Chunk> {
    if |cs| >= 2 && EndsWith(cs[|cs| - 2].kana, 'っ') && |cs[|cs| - 1].kana| > 0 then
      var first := cs[|cs| - 1].kana[0];
      if InSokuonJoinList(first) then JoinChunks(cs, Normal, charPoint)
      else if first in IUN_KANA then JoinChunks(cs, Iun, charPoint)
      else cs
    else cs
  }

  /**
   * The ん rule applied after the sokuon rule. Only the chunk before the last changes
   * (ambiguous follower) or, in the legacy builder, only the last one (any other
   * follower); the current builder leaves everything alone before other followers.
   */
  function NasalStep(v: Variant, cs: seq<Chunk>, charPoint: int): (r: seq<Chunk>)
    ensures |r| == |cs| && Kanas(r) == Kanas(cs)
    ensures |cs| >= 2 && !(EndsWith(cs[|cs| - 2].kana, 'ん') && |cs[|cs| - 1].kana| > 0) ==> r == cs
    ensures |cs| >= 2 && EndsWith(cs[|cs| - 2].kana, 'ん') && |cs[|cs| - 1].kana| > 0 ==>
              if InNNList(cs[|cs| - 1].kana[0]) then r == ReplaceNN(cs, charPoint)
              else if v == Legacy then r == DoubleN(cs)
              else r == cs
    ensures |cs| < 2 ==> r == cs
  {
    var prevKana := if |cs| >= 2 then cs[|cs| - 2].kana else "";
    if |cs| >= 1 && EndsWith(prevKana, 'ん') && |cs[|cs| - 1].kana| > 0 then
      if InNNList(cs[|cs| - 1].kana[0]) then ReplaceNN(cs, charPoint)
      else if v == Legacy then DoubleN(cs)
      else cs
    else cs
  }

  /** One iteration of the loop: emit the token's chunk and apply both rules, or give up. */
  function AddToken(t: Tables, v: Variant, cs: seq<Chunk>, kana: string, charPoint: int): Option<seq<Chunk>> {
    match Emit(t, v, kana, charPoint)
    case None => None
    case Some(c) => Some(NasalStep(v, SokuonStep(cs + [c], charPoint), charPoint))
  }

  /**
   * The shape of the builders' loop, over any step: the state after the tokens, and whether
   * the loop returned early because the step refused a token.
   */
  function Loop<S>(step: (S, string) -> Option<S>, start: S, tokens: seq<string>): (S, bool) {
    if tokens == [] then (start, false)
    else
      var (s, stopped) := Loop(step, start, tokens[..|tokens| - 1]);
      if stopped then (s, true)
      else
        match step(s, tokens[|tokens| - 1])
        case None => (s, true)
        case Some(next) => (next, false)
  }

  /** `AddToken` as the loop's step. */
  function BuildStep(t: Tables, v: Variant, charPoint: int): (seq<Chunk>, string) -> Option<seq<Chunk>> {
    (cs: seq<Chunk>, kana: string) => AddToken(t, v, cs, kana, charPoint)
  }

  /** The chunks after the loop over `tokens`, and whether it returned early. */
  function BuildLoop(t: Tables, v: Variant, tokens: seq<string>, charPoint: int): (seq<Chunk>, bool) {
    Loop(BuildStep(t, v, charPoint), [], tokens)
  }

  /**
   * The word-final rule: a last chunk spelling exactly ん gets nn as its first spelling,
   * n' appended and the score of two keystrokes; nothing else changes.
   */
  function FinalNasal(cs: seq<Chunk>, charPoint: int): (r: seq<Chunk>)
    ensures |r| == |cs| && Kanas(r) == Kanas(cs)
    ensures |cs| > 0 ==> r[..|cs| - 1] == cs[..|cs| - 1]
    ensures |cs| > 0 && cs[|cs| - 1].kana == "ん" ==>
              var ps, qs := cs[|cs| - 1].romaPatterns, r[|cs| - 1].romaPatterns;
              |qs| == (if |ps| > 0 then |ps| else 1) + 1 &&
              qs[0] == "nn" && qs[|qs| - 1] == "n'" && (|ps| > 0 ==> qs[1..|ps|] == ps[1..]) &&
              r[|cs| - 1].point == 2 * charPoint &&
              r[|cs| - 1] == cs[|cs| - 1].(romaPatterns := qs, point := 2 * charPoint)
    ensures |cs| == 0 || cs[|cs| - 1].kana != "ん" ==> r == cs
  {
    if |cs| == 0 || cs[|cs| - 1].kana != "ん" then cs
    else
      var last := cs[|cs| - 1];
      var ps := (if |last.romaPatterns| > 0 then last.romaPatterns[0 := "nn"] else ["nn"]) + ["n'"];
      cs[|cs| - 1 := last.(romaPatterns := ps, point := charPoint * |ps[0]|)]
  }

  /** `buildWordChunks` / `buildTypeChunks`: the loop, then the word-final rule unless it gave up. */
  function BuildWord(t: Tables, v: Variant, tokens: seq<string>, charPoint: int): seq<Chunk> {
    var (cs, stopped) := BuildLoop(t, v, tokens, charPoint);
    if stopped then cs else FinalNasal(cs, charPoint)
  }

  /** `parseKanaChunksToWordChunks` (Current) and `buildTypingWord` (Legacy). */
  function ParseKanaChunks(t: Tables, v: Variant, tokens: seq<string>, charPoint: int): (r: seq<Chunk>)
    ensures tokens == [] ==> r == [EMPTY_WORD_CHUNK]
  {
    if tokens == [] then [EMPTY_WORD_CHUNK] else BuildWord(t, v, tokens, charPoint)
  }

  /** Once a loop has given up, later tokens change nothing. */
  lemma {:induction false} LoopStoppedStays<S>(step: (S, string) -> Option<S>, start: S, tokens: seq<string>, k: nat)
    requires k <= |tokens| && Loop(step, start, tokens[..k]).1
    ensures Loop(step, start, tokens) == Loop(step, start, tokens[..k])
    decreases |tokens| - k
  {
    if k < |tokens| {
      var init := tokens[..|tokens| - 1];
      assert init[..k] == tokens[..k];
      LoopStoppedStays(step, start, init, k);
    } else {
      assert tokens[..k] == tokens;
    }
  }

  /** One more token of a prefix: the loop stays stopped, or takes one more step. */
  lemma LoopPrefixStep<S>(step: (S, string) -> Option<S>, start: S, tokens: seq<string>, i: nat)
    requires i < |tokens|
    ensures var (s, stopped) := Loop(step, start, tokens[..i]);
            Loop(step, start, tokens[..i + 1])
              == if stopped then (s, true)
                 else match step(s, tokens[i]) case None => (s, true) case Some(next) => (next, false)
  {
    assert tokens[..i + 1][..i] == tokens[..i];
  }

  /** Once the builders' loop has given up, later tokens change nothing. */
  lemma {:induction false} StoppedStays(t: Tables, v: Variant, tokens: seq<string>, k: nat, charPoint: int)
    requires k <= |tokens| && BuildLoop(t, v, tokens[..k], charPoint).1
    ensures BuildLoop(t, v, tokens, charPoint) == BuildLoop(t, v, tokens[..k], charPoint)
  {
    LoopStoppedStays(BuildStep(t, v, charPoint), [], tokens, k);
  }

  /** The loop of `buildWordChunks` / `buildTypeChunks`, followed by the word-final rule. */
  method BuildWordChunks(t: Tables, v: Variant, kanaChunks: seq<string>, charPoint: int)
    returns (wordChunks: seq<Chunk>)
    ensures wordChunks == BuildWord(t, v, kanaChunks, charPoint)
  {
    wordChunks := [];
    assert kanaChunks[..0] == [];
    for i := 0 to |kanaChunks|
      invariant BuildLoop(t, v, kanaChunks[..i], charPoint) == (wordChunks, false)
    {
      var kanaChunk := kanaChunks[i];
      LoopPrefixStep(BuildStep(t, v, charPoint), [], kanaChunks, i);
      var romaPatterns := LookupPatterns(t, kanaChunk);
      if |romaPatterns| == 0 || romaPatterns[0] == "" {
        StoppedStays(t, v, kanaChunks, i + 1, charPoint);
        return;
      }
      wordChunks := wordChunks + [Chunk(kanaChunk, romaPatterns, charPoint * |romaPatterns[0]|,
                                        DetermineCharacterType(t, v, kanaChunk, romaPatterns[0]),
                                        if kanaChunk in KANA_UNSUPPORTED_SYMBOLS then Some(kanaChunk) else None,
                                        None)];
      wordChunks := NormalizePatterns(v, wordChunks, charPoint);
    }
    assert kanaChunks[..|kanaChunks|] == kanaChunks;
    wordChunks := ReplaceFinalNasal(wordChunks, charPoint);
  }

  /** The normalising block of the loop body: the sokuon rule, then the ん rule. */
  method NormalizePatterns(v: Variant, wordChunks: seq<Chunk>, charPoint: int) returns (result: seq<Chunk>)
    requires |wordChunks| >= 1
    ensures result == NasalStep(v, SokuonStep(wordChunks, charPoint), charPoint)
  {
    result := JoinSokuon(wordChunks, charPoint);
    result := RewriteNasal(v, result, charPoint);
  }

  /** The sokuon half of the normalising block. */
  method JoinSokuon(wordChunks: seq<Chunk>, charPoint: int) returns (result: seq<Chunk>)
    requires |wordChunks| >= 1
    ensures result == SokuonStep(wordChunks, charPoint)
    ensures |result| >= 1
  {
    result := wordChunks;
    if |result| >= 2 {
      var prevKanaChar := result[|result| - 2].kana;
      var currentKana := result[|result| - 1].kana;
      if EndsWith(prevKanaChar, 'っ') && |currentKana| > 0 {
        if InSokuonJoinList(currentKana[0]) {
          result := JoinSokuonPattern(result, Normal, charPoint);
        } else if currentKana[0] in IUN_KANA {
          result := JoinSokuonPattern(result, Iun, charPoint);
        }
      }
    }
  }

  /** The ん half of the normalising block. */
  method RewriteNasal(v: Variant, wordChunks: seq<Chunk>, charPoint: int) returns (result: seq<Chunk>)
    requires |wordChunks| >= 1
    ensures result == NasalStep(v, wordChunks, charPoint)
  {
    result := wordChunks;
    var prevKanaChar := if |result| >= 2 then result[|result| - 2].kana else "";
    var currentKana := result[|result| - 1].kana;
    if EndsWith(prevKanaChar, 'ん') && |currentKana| > 0 {
      if InNNList(currentKana[0]) {
        result := ReplaceNWithNN(result, charPoint);
      } else if v == Legacy {
        result := ApplyDoubleNTypePattern(result);
      }
    }
  }

  /** The word-final block: rewrites the last chunk in place when it spells ん. */
  method ReplaceFinalNasal(wordChunks: seq<Chunk>, charPoint: int) returns (result: seq<Chunk>)
    ensures result == FinalNasal(wordChunks, charPoint)
  {
    result := wordChunks;
    if |result| > 0 && result[|result| - 1].kana == "ん" {
      var lastChunk := result[|result| - 1];
      var patterns := lastChunk.romaPatterns;
      patterns := if |patterns| > 0 then patterns[0 := "nn"] else ["nn"];
      patterns := patterns + ["n'"];
      result := result[|result| - 1 := lastChunk.(romaPatterns := patterns, point := charPoint * |patterns[0]|)];
    }
  }

  /** `parseKanaChunksToWordChunks`. */
  method ParseKanaChunksToWordChunks(t: Tables, kanaChunks: seq<string>, charPoint: int)
    returns (wordChunks: seq<Chunk>)
    ensures wordChunks == ParseKanaChunks(t, Current, kanaChunks, charPoint)
  {
    if |kanaChunks| == 0 {
      return [EMPTY_WORD_CHUNK];
    }
    wordChunks := BuildWordChunks(t, Current, kanaChunks, charPoint);
  }

  /** `buildTypingWord`. */
  method BuildTypingWord(t: Tables, kanaChunkWord: seq<string>, charPoint: int)
    returns (typeChunks: seq<Chunk>)
    ensures typeChunks == ParseKanaChunks(t, Legacy, kanaChunkWord, charPoint)
  {
    if |kanaChunkWord| == 0 {
      return [EMPTY_WORD_CHUNK];
    }
    typeChunks := BuildWordChunks(t, Legacy, kanaChunkWord, charPoint);
  }
}
