/** The small pure helpers: alphabet test, full-width folding, note counting, zip. */
module Utils {
  import opened Text

  /** The 26 lowercase ASCII letters, in order. */
  function LowerLetters(): (r: string)
    ensures |r| == 26
  {
    seq(26, i requires 0 <= i < 26 => ('a' as int + i) as char)
  }

  /** `isAlphabet`: exactly one character, an ASCII letter of either case. */
  function IsAlphabet(key: string): (r: bool)
    ensures |key| != 1 ==> !r
    ensures r <==> |key| == 1 && LowerChar(key[0]) in LowerLetters()
    ensures r ==> !('0' <= key[0] <= '9')
  {
    if |key| == 1 && (('a' <= key[0] <= 'z') || ('A' <= key[0] <= 'Z')) then
      assert LowerLetters()[LowerChar(key[0]) as int - 'a' as int] == LowerChar(key[0]);
      true
    else false
  }

  /** ASCII case swap of one character. */
  function SwapCase(c: char): char {
    if 'a' <= c <= 'z' then (c as int - 32) as char
    else if 'A' <= c <= 'Z' then (c as int + 32) as char
    else c
  }

  /** Whether a one-character string is a letter does not depend on its case. */
  lemma IsAlphabetCaseInsensitive(c: char)
    ensures IsAlphabet([c]) == IsAlphabet([SwapCase(c)])
  {
  }

  /** ZENKAKU_LIST: the full-width digits, upper- and lower-case letters and 22 symbols. */
  predicate InZenkakuList(c: char) {
    match c
    case '０' | '１' | '２' | '３' | '４' | '５' | '６' | '７' | '８' | '９' => true
    case 'Ａ' | 'Ｂ' | 'Ｃ' | 'Ｄ' | 'Ｅ' | 'Ｆ' | 'Ｇ' | 'Ｈ' | 'Ｉ' | 'Ｊ' | 'Ｋ' | 'Ｌ' | 'Ｍ'
       | 'Ｎ' | 'Ｏ' | 'Ｐ' | 'Ｑ' | 'Ｒ' | 'Ｓ' | 'Ｔ' | 'Ｕ' | 'Ｖ' | 'Ｗ' | 'Ｘ' | 'Ｙ' | 'Ｚ' => true
    case 'ａ' | 'ｂ' | 'ｃ' | 'ｄ' | 'ｅ' | 'ｆ' | 'ｇ' | 'ｈ' | 'ｉ' | 'ｊ' | 'ｋ' | 'ｌ' | 'ｍ'
       | 'ｎ' | 'ｏ' | 'ｐ' | 'ｑ' | 'ｒ' | 'ｓ' | 'ｔ' | 'ｕ' | 'ｖ' | 'ｗ' | 'ｘ' | 'ｙ' | 'ｚ' => true
    case '＆' | '％' | '！' | '？' | '＠' | '＃' | '＄' | '（' | '）' | '｜' | '｛' | '｝' | '｀'
       | '＊' | '＋' | '：' | '；' | '＿' | '＜' | '＞' | '＝' | '＾' => true
    case _ => false
  }

  /** Every listed character lies in the full-width block U+FF01..U+FF5E. */
  lemma ZenkakuRange(c: char)
    requires InZenkakuList(c)
    ensures 0xFF01 <= c as int <= 0xFF5E
  {
  }

  /**
   * `convertZenkakuToHankaku`: a string that is exactly one listed full-width character is
   * shifted down by 0xFEE0 to its ASCII form; every other string is returned unchanged.
   */
  function ConvertZenkakuToHankaku(s: string): (r: string)
    ensures |r| == |s|
    ensures |s| == 1 && InZenkakuList(s[0]) ==> r[0] as int == s[0] as int - 0xFEE0 && 0x21 <= r[0] as int <= 0x7E
    ensures !(|s| == 1 && InZenkakuList(s[0])) ==> r == s
  {
    if |s| == 1 && InZenkakuList(s[0]) then
      ZenkakuRange(s[0]);
      [(s[0] as int - 0xFEE0) as char]
    else s
  }

  /** Folding twice is folding once: a folded character is ASCII, never a listed one. */
  lemma ConvertZenkakuToHankakuIdempotent(s: string)
    ensures ConvertZenkakuToHankaku(ConvertZenkakuToHankaku(s)) == ConvertZenkakuToHankaku(s)
  {
    var r := ConvertZenkakuToHankaku(s);
    if |s| == 1 && InZenkakuList(s[0]) {
      if InZenkakuList(r[0]) {
        ZenkakuRange(r[0]);
        assert false;
      }
    }
  }

  /** The voiced and semi-voiced hiragana counted twice in a line's kana notes. */
  const DAKUON_CHARS: set<char> := {
    'ゔ', 'が', 'ぎ', 'ぐ', 'げ', 'ご', 'ざ', 'じ', 'ず', 'ぜ', 'ぞ', 'だ', 'ぢ', 'づ', 'で', 'ど',
    'ば', 'び', 'ぶ', 'べ', 'ぼ', 'ぱ', 'ぴ', 'ぷ', 'ぺ', 'ぽ'
  }

  /** The number of characters of `s` in DAKUON_CHARS. */
  function CountDakuon(s: string): nat {
    if s == [] then 0
    else CountDakuon(s[..|s| - 1]) + (if s[|s| - 1] in DAKUON_CHARS then 1 else 0)
  }

  /** `countKanaWordWithDakuonSplit`: one note per character plus one per voiced character. */
  function CountKanaWordWithDakuonSplit(kanaWord: string): (r: nat)
    ensures |kanaWord| <= r
  {
    |kanaWord| + CountDakuon(kanaWord)
  }

  /** Appending one character adds two notes if it is voiced and one otherwise. */
  lemma CountKanaAppend(s: string, c: char)
    ensures CountKanaWordWithDakuonSplit(s + [c])
         == CountKanaWordWithDakuonSplit(s) + (if c in DAKUON_CHARS then 2 else 1)
  {
    assert (s + [c])[..|s|] == s;
  }

  /** The count lies between the length and twice the length, with the lower bound met exactly when no voiced character occurs. */
  lemma {:induction false} CountKanaBounds(s: string)
    ensures CountKanaWordWithDakuonSplit(s) <= 2 * |s|
    ensures CountKanaWordWithDakuonSplit(s) == |s| <==> forall i :: 0 <= i < |s| ==> s[i] !in DAKUON_CHARS
  {
    if s != [] {
      var init := s[..|s| - 1];
      CountKanaBounds(init);
      assert forall i :: 0 <= i < |init| ==> init[i] == s[i];
    }
  }

  /** `zip`: pairs up elements index by index, as far as the shorter input goes. */
  function Zip<T, U>(a: seq<T>, b: seq<U>): (r: seq<(T, U)>)
    ensures |r| == if |a| < |b| then |a| else |b|
    ensures forall i :: 0 <= i < |r| ==> r[i] == (a[i], b[i])
  {
    seq(if |a| < |b| then |a| else |b|, i requires 0 <= i < |a| && i < |b| => (a[i], b[i]))
  }

  /** The first components of a zip are a prefix of the first input, the second of the second. */
  lemma ZipPrefixes<T, U>(a: seq<T>, b: seq<U>)
    ensures |Zip(a, b)| <= |a| && |Zip(a, b)| <= |b|
    ensures forall i :: 0 <= i < |Zip(a, b)| ==> Zip(a, b)[i].0 == a[i] && Zip(a, b)[i].1 == b[i]
    ensures a == [] || b == [] ==> Zip(a, b) == []
  {
  }
}
