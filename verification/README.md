# lyrics-typing-engine, modelled in Dafny

The engine turns the kana reading of song lyrics into units a player types, and then
matches keystrokes against those units one at a time. This project models its core in
four parts. The lookup tables are a parameter. A property holds for every choice of tables
unless its lemma states a requirement on them: `PlainVocabulary`, keys without line breaks,
or, for `ClassificationVariantsAgree`, an alphabet list of exactly the 52 letters.

- **Tokenizer** (`Tokenizer`, file `tokenizer.dfy`). A chart's readings are cut into
  lines. Each line is cut into tokens: a token is a key of the kana table or of the symbol
  table, found by first-listed alternative, or else a single character.
- **Chunk builder** (`ChunkBuilder` and `BuilderProperties`, files `builder.dfy` and
  `builder_props.dfy`).
  - Each token becomes a chunk: its kana, its romaji spellings, its score and its
    character class.
  - Three rewrite rules then apply:
    - っ merges with the chunk after it and gains the x/l-tu/tsu spellings;
    - ん before an ambiguous follower has its single-n spellings extended to nn;
    - a word-final ん gets nn.
  - The current builder (`parse-kana-chunks-to-word-chunks.ts`) and its older twin
    (`build-word.ts`) are one definition with a `Variant` switch. Each loop is a method
    proved equal to a fold function, and the lemmas are about the fold.
- **Sessions and display** (`Session` and `SessionProperties`). These build the typing
  state of a line, rebuild it after the tables change, and show it with spaces made
  visible.
- **Keystroke matchers** (`RomaInput`, `KanaInput` and the `Evaluator` façade, with the
  lemmas in `RomaProperties` and `KanaProperties`).
  - The typing state `LineWord` holds three objects: the typed text, the current chunk
    and the list of chunks still to come.
  - The matchers copy it only shallowly, so they write through to the caller's objects.
    The model keeps this sharing: `LineWord`, `CorrectText`, `ChunkCell` and `ChunkList`
    are classes, and `{ ...lineWord }` is a fresh `LineWord` over the same three objects.
  - Each matcher method is proved to agree with a step function on values (`RomaStep`,
    `KanaStep`). The step function gives the returned line and, separately, what the
    caller's own current-chunk object holds afterwards.
- **Map building** (`TypingMap`). Chart lines are paired with their tokens. A typeable
  line gets note counts and a line number; any other line gets zero counts.

Two fields have two names in the source. The model uses one name for each:
- `nextChar` (roma matcher) and `nextChunk` are `next`/`nextChunk`;
- `word` and `wordChunks` are `rest`/`wordChunks`.

`orginalDakuChar` and `originalDakutenChar` are two different fields:
- the kana matcher writes `orginalDakuChar` on the current chunk; the model calls it
  `originalDakuChar`;
- `recreateTypingWord` reads `originalDakutenChar`, which no modelled code writes; the
  model keeps it as the `TypingWord` field `originalDakutenChar`.

## Model

| member | source | states |
|---|---|---|
| Utils.IsAlphabet | src/utils/is-alphabet.ts:1-4 | false unless the string is one character; true exactly for an ASCII letter of either case; never true for a digit |
| Utils.IsAlphabetCaseInsensitive | src/utils/is-alphabet.ts:3 | swapping the ASCII case of a character does not change the answer |
| Utils.ZenkakuRange | src/utils/zenkaku-to-hankaku.ts:2 | every listed full-width character lies in U+FF01..U+FF5E |
| Utils.ConvertZenkakuToHankaku | src/utils/zenkaku-to-hankaku.ts:4-11 | the length is kept; a single listed character moves down by 0xFEE0 to printable ASCII; every other string, longer ones included, comes back unchanged |
| Utils.ConvertZenkakuToHankakuIdempotent | src/utils/zenkaku-to-hankaku.ts:2-10 | converting twice is converting once |
| Utils.CountKanaWordWithDakuonSplit | src/utils/kana.ts:1-4 | the note count is at least the length |
| Utils.CountKanaAppend | src/utils/kana.ts:2-3 | one more character adds two notes if it is a listed voiced hiragana and one otherwise (katakana included) |
| Utils.CountKanaBounds | src/utils/kana.ts:2-3 | the count is at most twice the length, and equals the length exactly when no listed voiced kana occurs |
| Utils.Zip | src/utils/array.ts:1-5 | the length is the shorter input's, and element i pairs the two inputs' elements i |
| Utils.ZipPrefixes | src/utils/array.ts:2-4 | the components are prefixes of the inputs; zipping with an empty list gives an empty list |
| Tokenizer.FirstMatch | src/build-typing-map/sentence-to-kana-chunk-words.ts:4-6 | a found key is a non-empty table key that starts the text, and no earlier listed non-empty key starts it; when none is found, no non-empty key starts it |
| Tokenizer.NonEmpty | src/build-typing-map/sentence-to-kana-chunk-words.ts:9 | no kept segment is empty; a string is kept exactly when it is a non-empty segment, and each non-empty segment occurs as often as in the input |
| Tokenizer.NonEmptyAppend | src/build-typing-map/sentence-to-kana-chunk-words.ts:9 | the filter keeps order: the kept segments of two lists in a row are those of the first followed by those of the second |
| Tokenizer.Chars | src/build-typing-map/sentence-to-kana-chunk-words.ts:17-19 | one single-character string per character, in order |
| Tokenizer.LineToTokens | src/build-typing-map/sentence-to-kana-chunk-words.ts:8-24 | the push loop over the tab-split segments yields the line's tokens as `LineTokens` defines them |
| Tokenizer.MarkedLines | src/build-typing-map/sentence-to-kana-chunk-words.ts:5-8 | marking the whole text and then splitting it into lines is splitting first and marking each line |
| Tokenizer.SentenceLines | src/build-typing-map/sentence-to-kana-chunk-words.ts:8 | one token list per line of the input, in order, each the tokens of that line alone |
| Tokenizer.SentenceLineCount | src/build-typing-map/sentence-to-kana-chunk-words.ts:8 | there is one more token list than there are line breaks |
| Tokenizer.SegmentTokensShape | src/build-typing-map/sentence-to-kana-chunk-words.ts:13-21 | each token of non-empty segments is non-empty and is a table key or one character |
| Tokenizer.TokensAreKeysOrCharacters | src/build-typing-map/sentence-to-kana-chunk-words.ts:8-24 | every token of every line is non-empty and is a table key or a single character |
| Tokenizer.EmptyLineNoTokens | src/build-typing-map/sentence-to-kana-chunk-words.ts:9 | an empty line has no tokens |
| Tokenizer.ConcatSegmentTokens | src/build-typing-map/sentence-to-kana-chunk-words.ts:13-21 | the tokens of the segments, glued together, are the segments glued together |
| Tokenizer.RemoveTabsOfMarked | src/build-typing-map/sentence-to-kana-chunk-words.ts:6 | the marking only adds tabs: without its tabs the marked text is the original without its tabs |
| Tokenizer.TokensSpellLine | src/build-typing-map/sentence-to-kana-chunk-words.ts:6-21 | a line's tokens, glued together, are the line with its tabs removed, when no key is empty or holds a tab or line break |
| Tokenizer.FirstAlternativeWins | src/build-typing-map/sentence-to-kana-chunk-words.ts:4-5 | the first key in table order that starts the line is its first token, even when a later key is a longer match |
| ChunkBuilder.LookupOrder | src/build-typing-map/parse-kana-chunks-to-word-chunks.ts:32-34 | the kana table's entry wins over the symbol table's, and a present entry is used as it is, even an empty one |
| ChunkBuilder.FallbackSpelling | src/build-typing-map/build-word.ts:26-28 | a token in neither table has one spelling, itself made half-width, of the same length and non-empty for a non-empty token |
| ChunkBuilder.DetermineCharacterType | src/build-typing-map/parse-kana-chunks-to-word-chunks.ts:170-188 | kana exactly for kana-table keys; alphabet exactly for a letter (current) or an alphabet-list entry (legacy) that is not a kana key; num exactly for a number-list entry where the first two tests fail; space exactly for a space where the first three fail; symbol for the rest |
| ChunkBuilder.ClassificationVariantsAgree | src/build-typing-map/build-word.ts:182-200 | the two builders classify alike when the alphabet list holds exactly the one-letter strings |
| ChunkBuilder.Emit | src/build-typing-map/parse-kana-chunks-to-word-chunks.ts:32-49 | a chunk is emitted exactly when the first spelling is non-empty; it carries the token, its looked-up spellings, charPoint times the first spelling's length, the class of its first spelling, and the unsupported-symbol mark exactly for the four arrows |
| ChunkBuilder.ContinuousMembers | src/build-typing-map/parse-kana-chunks-to-word-chunks.ts:152-156 | the doubled forms are exactly the non-empty patterns (in an iun merge, those not starting with i, u or n) with their first letter repeated once per っ in front |
| ChunkBuilder.NormalContinuousCount | src/build-typing-map/parse-kana-chunks-to-word-chunks.ts:152-156 | a normal merge gives every non-empty pattern a doubled form |
| ChunkBuilder.SmallTsu | src/build-typing-map/parse-kana-chunks-to-word-chunks.ts:158-161 | the spelled-out small-tsu prefix has one x or l per っ before tu or tsu |
| ChunkBuilder.JoinPatterns | src/build-typing-map/parse-kana-chunks-to-word-chunks.ts:152-164 | the merged list holds the doubled forms and four more spellings per original spelling |
| ChunkBuilder.JoinPatternsLayout | src/build-typing-map/parse-kana-chunks-to-word-chunks.ts:152-164 | the merged spellings are the doubled forms, then the xtu, ltu, xtsu and ltsu blocks, each as long as the original list and in its order |
| ChunkBuilder.IunHasNoDoubledVowel | src/build-typing-map/parse-kana-chunks-to-word-chunks.ts:154 | after an iun merge no spelling is empty or starts with i, u or n |
| ChunkBuilder.JoinChunks | src/build-typing-map/parse-kana-chunks-to-word-chunks.ts:136-144 | a merge removes one chunk and keeps all before the pair; the merged chunk has both kanas in order, the second chunk's spellings joined for the number of っ in the first, a score of charPoint times the length of its new first spelling, and the second chunk's class and marks |
| ChunkBuilder.JoinSokuonPattern | src/build-typing-map/parse-kana-chunks-to-word-chunks.ts:121-168 | the five-list loop and the splice give exactly `JoinChunks` |
| ChunkBuilder.RewriteNNMeaning | src/build-typing-map/parse-kana-chunks-to-word-chunks.ts:104-116 | every ambiguous ん spelling now ends in nn, every other one stays at its place, and one n' is appended per rewrite |
| ChunkBuilder.NNPoint | src/build-typing-map/parse-kana-chunks-to-word-chunks.ts:111-115 | the score is that of the last rewritten spelling, measured before its n was added, or the old score when nothing was rewritten |
| ChunkBuilder.ReplaceNN | src/build-typing-map/parse-kana-chunks-to-word-chunks.ts:98-119 | only the chunk before the last changes: its spellings are rewritten and its score updated; kanas and length stay |
| ChunkBuilder.ReplaceNWithNN | src/build-typing-map/parse-kana-chunks-to-word-chunks.ts:98-119 | walking the live list while it grows gives exactly `ReplaceNN` |
| ChunkBuilder.DoubledTailLayout | src/build-typing-map/build-word.ts:101-104 | the appended spellings are n+p then '+p for each original spelling p, in order |
| ChunkBuilder.DoubleN | src/build-typing-map/build-word.ts:92-108 | the last chunk keeps its spellings and gains the doubled tail, unless its kana is empty; nothing else changes |
| ChunkBuilder.ApplyDoubleNTypePattern | src/build-typing-map/build-word.ts:92-108 | pushing onto the live list while walking a copy gives exactly `DoubleN` |
| ChunkBuilder.NasalStep | src/build-typing-map/build-word.ts:69-78 | after a chunk ending in ん: an ambiguous follower rewrites the previous chunk; any other follower widens the last chunk in the legacy builder only; otherwise nothing changes |
| ChunkBuilder.FinalNasal | src/build-typing-map/parse-kana-chunks-to-word-chunks.ts:87-93 | a last chunk spelling ん gets nn first, its other spellings, then n', and the score of two keystrokes; anything else is left alone |
| ChunkBuilder.ParseKanaChunks | src/build-typing-map/parse-kana-chunks-to-word-chunks.ts:19-25 | no tokens give the single sentinel chunk with spelling "" |
| ChunkBuilder.StoppedStays | src/build-typing-map/parse-kana-chunks-to-word-chunks.ts:36 | once the loop has returned early, later tokens change nothing |
| ChunkBuilder.BuildWordChunks | src/build-typing-map/parse-kana-chunks-to-word-chunks.ts:28-96 | the loop with its early return, then the word-final rule, gives exactly `BuildWord` |
| ChunkBuilder.NormalizePatterns | src/build-typing-map/parse-kana-chunks-to-word-chunks.ts:51-84 | the normalising block is the sokuon rule followed by the ん rule |
| ChunkBuilder.JoinSokuon | src/build-typing-map/parse-kana-chunks-to-word-chunks.ts:54-73 | the sokuon block merges when the previous kana ends in っ and the new first kana is in the join list or is い, う or ん |
| ChunkBuilder.RewriteNasal | src/build-typing-map/parse-kana-chunks-to-word-chunks.ts:75-84 | the ん block is `NasalStep` |
| ChunkBuilder.ReplaceFinalNasal | src/build-typing-map/parse-kana-chunks-to-word-chunks.ts:87-93 | the in-place edit of the last chunk is `FinalNasal` |
| ChunkBuilder.ParseKanaChunksToWordChunks | src/build-typing-map/parse-kana-chunks-to-word-chunks.ts:12-26 | the current builder: the sentinel for no tokens, else the built word |
| ChunkBuilder.BuildTypingWord | src/build-typing-map/build-word.ts:12-20 | the legacy builder, with its extra widening rule |
| BuilderProperties.MergeKeepsSpelling | src/build-typing-map/parse-kana-chunks-to-word-chunks.ts:143-144 | merging the last two chunks keeps what the chunk list spells |
| BuilderProperties.SokuonStepShape | src/build-typing-map/parse-kana-chunks-to-word-chunks.ts:54-73 | the sokuon rule keeps the spelled kana and never adds a chunk |
| BuilderProperties.AddTokenSpelling | src/build-typing-map/parse-kana-chunks-to-word-chunks.ts:31-85 | one emittable token appends its kana to what the chunks spell and adds at most one chunk |
| BuilderProperties.BuildLoopStops | src/build-typing-map/parse-kana-chunks-to-word-chunks.ts:36 | the loop returns early exactly when some token's first spelling is missing or empty |
| BuilderProperties.BuildLoopSpelling | src/build-typing-map/parse-kana-chunks-to-word-chunks.ts:31-85 | the chunks spell the tokens before the first one that cannot be emitted, and never outnumber them |
| BuilderProperties.JoinPatternsFirst | src/build-typing-map/parse-kana-chunks-to-word-chunks.ts:164-165 | a merged chunk with spellings has a non-empty first spelling, so its score is well defined |
| BuilderProperties.BuildLoopWellFormed | src/build-typing-map/parse-kana-chunks-to-word-chunks.ts:31-85 | for non-empty tokens, every chunk built has kana and a non-empty first spelling |
| BuilderProperties.ParseSpellsTokens | src/build-typing-map/parse-kana-chunks-to-word-chunks.ts:12-96 | when every token can be emitted, the builder returns between one chunk and one per token, all well formed, and together they spell the tokens |
| BuilderProperties.ParseStopsAtFailure | src/build-typing-map/parse-kana-chunks-to-word-chunks.ts:36 | at a token that cannot be emitted, the builder returns the chunks built before it and skips the word-final rule |
| Session.CreateTypingWord | src/create-typing-word/create-typing-word.ts:3-31 | the given or empty typed text; no chunks give the empty current chunk with no spellings and index 0; otherwise the first chunk is current, the list is the input's, and the index is the given one or 1; no `originalDakutenChar` |
| Session.CreateWordState | src/create-word-state/create-word-state.ts:3-25 | empty typed text; no chunks give the empty current chunk; otherwise the first chunk is current and the rest is the list |
| Session.CreateWordStateAgrees | src/create-word-state/create-word-state.ts:17-24 | the older state is the fresh session seen from its index |
| Session.CreateTypingWordSpellsLine | src/create-typing-word/create-typing-word.ts:22-30 | the current chunk followed by those after the index is the whole input, and the list has the input's length |
| Session.CreateWordStateSpellsLine | src/create-word-state/create-word-state.ts:17-24 | the older state holds one chunk fewer than the line, and current plus rest spell the line |
| Session.RecreateTypingWord | src/create-typing-word/recreate-typing-word.ts:5-8 | with no current kana or no chunks, the session comes back unchanged |
| Session.RecreateKeepsProgress | src/create-typing-word/recreate-typing-word.ts:10-24 | the rebuild keeps the typed text and the current score; the chunks are those the current builder makes of the rebuilt word, and the session restarts at the first, with no `originalDakutenChar` |
| Session.RebuiltWordStart | src/create-typing-word/recreate-typing-word.ts:12-14 | the rebuilt word is non-empty and starts with `originalDakutenChar`, or without one with the current chunk's kana |
| SessionProperties.RecreateSpellsRebuiltWord | src/create-typing-word/recreate-typing-word.ts:10-18 | with the line tokenizer as splitter, the rebuilt chunks spell the rebuilt word, the index is 1, and the typed text and score are kept |
| Session.ReplaceAllSpaceWithLowMacron | src/create-typing-word/create-display-word.ts:36-38 | the length and every non-space character are kept; each space becomes ˍ, so no space is left |
| Session.ReplaceAllSpaceWithThreePerEmSpace | src/create-typing-word/create-display-word.ts:32-34 | the length and every non-space character are kept; each space becomes U+2004 |
| Session.SpaceReplacementRoundTrip | src/create-typing-word/create-display-word.ts:32-38 | mapping the stand-in back to a space restores a text that did not contain it |
| Session.Truncate | src/create-typing-word/create-display-word.ts:22-27 | an absent or zero length means no cut; a positive one keeps that many leading characters, or all of them |
| Session.CreateDisplayWord | src/create-typing-word/create-display-word.ts:3-30 | typed text with ˍ for spaces; the current kana and its first spelling, or "" when it has none, with U+2004 for spaces |
| Session.DisplayRemainWord | src/create-typing-word/create-display-word.ts:19-27 | the remaining kana and romaji are the concatenated kana and first spellings of every listed chunk, cut to a positive maximum length, and hold no space |
| Session.DisplayHasNoSpaces | src/create-typing-word/create-display-word.ts:9-17 | none of the typed or current display strings holds an ASCII space |
| RomaInput.RomaMakeInput | src/evaluator/roma-input.ts:4-13 | the lowercased key is both the only candidate and the key; code and Shift are passed on |
| RomaInput.UpdateNextRomaPattern | src/evaluator/roma-input.ts:130-134 | no trimmed pattern is empty, and none is added |
| RomaInput.FilterKeptAfterX | src/evaluator/roma-input.ts:155-157 | the filter never adds spellings |
| RomaInput.ProcessNNRouteKey | src/evaluator/roma-input.ts:34-41 | with a chunk to come, ん is typed, that chunk becomes current in a fresh record over the caller's objects, and its score is due; otherwise nothing changes |
| RomaInput.ZCommand | src/evaluator/roma-input.ts:43-64 | the new record shows the Z shortcut's line and gets a fresh current chunk exactly when the periods were joined |
| RomaInput.ProcessedLineWord | src/evaluator/roma-input.ts:30-90 | the record returned shows `ProcessLine`'s line; it shares the caller's typed text and list, and its current chunk is fresh exactly when a shortcut replaced it |
| RomaInput.KanaFilter | src/evaluator/roma-input.ts:136-149 | the line's objects afterwards show `KanaFiltered` of the line before |
| RomaInput.WordUpdate | src/evaluator/roma-input.ts:163-182 | the objects afterwards show `WordUpdated`; the current chunk is replaced, never rewritten |
| RomaInput.ApplySuccessfulKey | src/evaluator/roma-input.ts:118-127 | the look-ahead filter, trim, kana filter and word update together give `ApplyKey`, including what the old current-chunk object holds |
| RomaInput.RomaInput | src/evaluator/roma-input.ts:92-128 | a fresh record sharing the caller's typed text and list shows `RomaStep`'s line; the caller's current-chunk object holds `RomaStep`'s `callerNext`; keys and flag agree |
| RomaProperties.UpdateNextRomaPatternMembers | src/evaluator/roma-input.ts:130-134 | the trimmed list holds exactly the non-empty tails of the patterns that start with the key |
| RomaProperties.FilterKeptAfterXMembers | src/evaluator/roma-input.ts:155-157 | the filter keeps exactly the spellings that start with neither n nor an apostrophe |
| RomaProperties.NextNNFilterMeaning | src/evaluator/roma-input.ts:151-161 | after x, the next chunk loses its n- and '-spellings unless its first spelling starts with n or N; any other key changes nothing |
| RomaProperties.ProcessKeepsTyped | src/evaluator/roma-input.ts:30-90 | the shortcut step keeps the line's kana and the typed romaji, and changes nothing when it keeps the current chunk |
| RomaProperties.ApplyKeepsTyped | src/evaluator/roma-input.ts:118-127 | an accepted key moves kana from the chunk to the typed text without losing or adding any |
| RomaProperties.RomaKeepsTyped | src/evaluator/roma-input.ts:92-128 | every keystroke keeps typed kana + current kana + kana to come |
| RomaProperties.RomaAcceptance | src/evaluator/roma-input.ts:105-127 | accepted exactly when the candidate is non-empty and some current spelling starts with it; a rejection reports the key, scores nothing and keeps the romaji; an acceptance appends exactly that one character |
| RomaProperties.PlainKeyNoShortcut | src/evaluator/roma-input.ts:66-89 | keys other than X, W and unshifted Z leave the line to the main step |
| RomaProperties.RomaTrimAndComplete | src/evaluator/roma-input.ts:118-181 | the key is appended to the typed romaji and the chunk keeps the trimmed tails (in the caller's object too); while tails are left, the chunks to come are the look-ahead's and the first kana moves to the typed kana exactly when `kanaFilter`'s test holds on the trimmed tails; when none is left, its kana is typed, the look-ahead's next chunk or the sentinel comes up and the score is due |
| RomaInput.LookAhead | src/evaluator/roma-input.ts:118-120 | after ん the look-ahead keeps the number, kana, scores and classes of the chunks to come; after any other kana it changes nothing |
| RomaProperties.RomaNNShortcut | src/evaluator/roma-input.ts:66-83 | after a lone n on ん with ん (X) or う (W) next, ん is committed and the next chunk comes up before the key is matched; an accepted key scores |
| RomaProperties.RomaZShortcut | src/evaluator/roma-input.ts:43-64 | an unshifted Z on a period before one or two more joins them into .. or ... spelled z, or z. / z,. scored two or three times, consuming one or two chunks |
| RomaProperties.RomaKeepsCallerScore | src/evaluator/roma-input.ts:101-128 | the caller's current chunk keeps its score and class whatever is typed |
| RomaProperties.KanaFilterMovesFirstKana | src/evaluator/roma-input.ts:136-149 | for sokuon typed with u or the doubled consonant, or a small kana typed with x or l, the chunk's first kana is typed and the chunk stays current with the rest |
| RomaProperties.KanaFilterKeepsOtherKeys | src/evaluator/roma-input.ts:136-149 | in every other case (one kana, no non-empty first spelling, or any other key) the line is left unchanged |
| KanaInput.FullWidthChar | src/evaluator/kana-input.ts:49-51 | a printable ASCII character moves up by 0xFEE0 |
| KanaInput.FullWidth | src/evaluator/kana-input.ts:49-51 | the result is the one full-width character of the first character |
| KanaInput.MappedKeys | src/evaluator/kana-input.ts:6-9 | the code map's entry wins (even an empty one), then the key map's, else [""] |
| KanaInput.KeyboardExtras | src/evaluator/kana-input.ts:46-53 | a keyboard character adds its lowercase and full-width forms, anything else adds nothing |
| KanaInput.KanaKeysCases | src/evaluator/kana-input.ts:5-56 | key code 0 gives ー, ￥ and \\; with Shift, E and Z replace the first candidate by ぃ and っ, 0 gives only を, and V, =, T, ' and F append their kana; the keyboard-character forms come last |
| KanaInput.KanaMakeInput | src/evaluator/kana-input.ts:5-56 | the index writes and pushes build exactly `KanaKeys`, with the lowercased key, code and Shift |
| KanaInput.ShiftFirst | src/evaluator/kana-input.ts:18-23 | the two index writes give ぃ first for E, っ first for Z (an empty list gets that one element), and leave other codes' candidates alone |
| KanaInput.AtokAdditions | src/evaluator/kana-input.ts:26-40 | the five pushes append exactly the kana of V, =, T, ' or F, and nothing for any other code |
| KanaInput.ShiftedKeysCases | src/evaluator/kana-input.ts:17-43 | with Shift, 0 leaves only を, and E and Z put ぃ or っ first before the rest of the mapped candidates and the extras |
| KanaInput.ShiftedAtokCases | src/evaluator/kana-input.ts:26-40 | with Shift and any code but 0, E and Z, the candidates are the mapped ones, then the code's ATOK kana, then the extras |
| KanaInput.ParseDakuHandaku | src/evaluator/kana-input.ts:127-131 | the mark is ゛ exactly for the dakuten list and ゜ exactly for the handakuten list; the original kana is kept |
| KanaInput.NormalizedIsUnvoiced | src/evaluator/kana-input.ts:129 | the base is unvoiced, one code point below for ゛ and two for ゜, and ゔ decomposes to う |
| KanaInput.IndexOf | src/evaluator/kana-input.ts:88-90 | the first position holding the key, or -1 exactly when none does |
| KanaInput.WordUpdate | src/evaluator/kana-input.ts:133-146 | the objects afterwards show the typed key and first spelling appended and the next chunk or sentinel current, in a fresh chunk object |
| KanaInput.KanaInput | src/evaluator/kana-input.ts:68-125 | a fresh record sharing the caller's typed text and list shows `KanaStep`'s line; the caller's current-chunk object holds `KanaStep`'s `callerNext`; keys and flag agree |
| KanaProperties.ExpectedKeyLength | src/evaluator/kana-input.ts:88-90 | a chunk with kana waits for one character: the lowercased first kana unless that is voiced |
| KanaProperties.KanaAcceptance | src/evaluator/kana-input.ts:88-105 | accepted exactly when a candidate is the expected key (a mark only with a remembered voiced kana); a rejection keeps everything, reports "" as accepted and the key for a keyboard character or the first candidate for a kana |
| KanaProperties.KanaVoicedFirstStroke | src/evaluator/kana-input.ts:107-110 | typing the base of a voiced kana leaves the typed text alone and makes the chunk, in the caller's object too, wait for the mark (and the second kana), remembering the voiced kana |
| KanaProperties.KanaMarkTypesVoiced | src/evaluator/kana-input.ts:92-117 | the mark commits the remembered voiced kana, not the mark |
| KanaProperties.KanaMultiKanaAdvance | src/evaluator/kana-input.ts:111-113 | on a chunk of several kana, the typed one is committed and the chunk drops it; nothing is scored |
| KanaProperties.KanaCompletesChunk | src/evaluator/kana-input.ts:114-146 | the last kana commits the typed kana and the first spelling, brings up the next chunk or the sentinel, and makes the score due |
| KanaProperties.KanaKeepsText | src/evaluator/kana-input.ts:68-146 | every keystroke keeps typed kana + pending kana + kana to come (the requirements are listed below) |
| KanaProperties.KanaKeepsCallerScore | src/evaluator/kana-input.ts:77-117 | the caller's current chunk keeps its score and class whatever is typed |
| Evaluator.TypingKeyClassification | src/evaluator/is-typing-key.ts:48-56 | never with Ctrl or Alt; otherwise every letter key code 65..90 and every listed code counts, and nothing else (Enter, Backspace, Tab, Escape, Shift do not) |
| Evaluator.Assemble | src/evaluator/typing-input-evaluator.ts:13-20 | the matcher's record and keys pass through; the class is the current chunk's; completed exactly when the returned chunk has no kana; the score is due only when the matcher says so |
| Evaluator.EvaluateRomaTypingInput | src/evaluator/typing-input-evaluator.ts:6-21 | the roma step on the lowercased key gives the returned line and what the caller's current chunk holds afterwards; the returned line shares the caller's typed text and chunk list; the class and score of the chunk before the keystroke; completed exactly when no kana is left |
| Evaluator.EvaluateKanaTypingInput | src/evaluator/typing-input-evaluator.ts:23-38 | the kana step on the candidate kana gives the returned line and what the caller's current chunk holds afterwards; the returned line shares the caller's typed text and chunk list; the class and score of the chunk before the keystroke; completed exactly when no kana is left |
| Evaluator.EvaluateTypingInput | src/evaluator/typing-input-evaluator.ts:40-56 | roma mode uses the roma step and every other mode the kana step, for the returned line and for the caller's current chunk; the returned line shares the caller's typed text and chunk list; the same assembly |
| TypingMap.CalcLineNotes | src/build-typing-map/build-map.ts:54-60 | kana notes lie between the kana length and twice it, with equality to the length exactly when no voiced kana occurs |
| TypingMap.BuildLines | src/build-typing-map/build-map.ts:12-43 | the loop with its running count builds one entry per paired line, each as the line rules say |
| TypingMap.BuildTypingMap | src/build-typing-map/build-map.ts:7-46 | the entries are built from the tokens of all readings joined by line breaks |
| TypingMap.BuiltLinePerChartLine | src/build-typing-map/build-map.ts:11-16 | when no reading holds a line break, every chart line is paired, and its kana word is its reading without tabs |
| TypingMap.UntypedLinesScoreNothing | src/build-typing-map/build-map.ts:21-42 | a line is numbered exactly when it has tokens, is not "end" and has a successor; any other line has zero notes and zero kpm |
| TypingMap.FirstTypedLineIsOne | src/build-typing-map/build-map.ts:9-33 | the first typed line is number 1 |
| TypingMap.TypedLinesConsecutive | src/build-typing-map/build-map.ts:23-33 | each typed line is numbered one more than the typed line before it |
| TypingMap.TypedLinesIncreasing | src/build-typing-map/build-map.ts:23-33 | later typed lines have larger numbers |

## Left out

- The contents of the lookup tables are not part of this model: the kana, symbol,
  alphabet, digit, code-to-kana, key-to-kana and keyboard-character tables. They are a
  parameter `Tables`, and a JavaScript `Map` is an ordered association list. Its keys keep
  every entry, repeated keys included, where a `Map` keeps a repeated key once; `Get`
  returns the value of the last entry with the key, as a `Map` does.
- The tokenizer's regular expression is a literal first-alternative matcher. The source
  builds the pattern from unescaped table keys, so a key holding a regular-expression
  metacharacter behaves differently there. Empty keys are skipped.
- `String.prototype.normalize("NFD")` is a fixed table from each voiced kana to its base
  (`NfdBase`).
- Floating point is not modelled:
  - `calcLineKpm` is a parameter `lineKpm` of `BuildTypingMap`;
  - times are `real` values that are already numbers, since `Number(...)` parsing is not
    modelled;
  - the score per keystroke that `recreateTypingWord` derives by division and rounding is
    the parameter `charPoint`;
  - scores are integers.
- `parseKanaChunks` (used through `parse-word-to-chunks.ts`) and `generate-typing-word.ts`
  are not part of this model:
  - `RecreateTypingWord` takes the splitter as a parameter `parse`;
  - `BuildTypingMap` takes the chunk generator as `generate`;
  - `RecreateSpellsRebuiltWord` instantiates `parse` with the line tokenizer.
- Strings are sequences of code points. JavaScript strings are UTF-16 code units, which
  differs only for characters outside the Basic Multilingual Plane.
- `toLowerCase` is modelled for ASCII letters only (`LowerChar`).
- KanaInput.FullWidthChar: a value in the surrogate range, which a Dafny `char` cannot
  hold, becomes U+FFFD; for printable ASCII the result is exact.
- `index.ts`, `type.ts` and `evaluator/type.ts` hold no behaviour. Their records are the
  datatypes `Chunk`, `TypingWord`, `WordState`, `TypingKey`, `KeyEvent`, `MapJsonLine`
  and `BuiltLine`. The `BuiltMapLine` type declares fields that `buildTypingMap` does not
  produce; `BuiltLine` follows what the code produces.
- The DOM `KeyboardEvent` is a record of the fields the engine reads.
- Aliasing inside the builders is not modelled. They create every chunk object they
  touch, so chunks there are values.
- The sessions copy their chunks (fresh pattern arrays), so they are modelled on values:
  sharing with the input cannot be observed.
- Inside `ChunkList` the chunks are values, because the list is their only reference.
  Only the current chunk, which the caller's record and a copy can share, is an object.
- Session.CreateDisplayWord: the remaining word uses every chunk of `wordChunks`, not
  those from `wordChunksIndex` on, because that is what the code does.
- The tokenizer takes the first listed alternative that matches, not the longest.
- The ん rules test whether the previous kana ends in ん.
- The matchers write to the caller's objects.
- `recreateTypingWord` starts the rebuilt word with `originalDakutenChar`, not with the
  kana matcher's `orginalDakuChar`. A session made by `createTypingWord` has no
  `originalDakutenChar`. So a rebuild in the middle of a voiced kana starts with the
  current chunk's kana (the mark), not with the voiced kana itself.
- TypingMap.CalcLineNotes: the romaji note count is stated only by its definition, the
  total length of the chunks' first spellings.
- KanaProperties.KanaKeepsText needs three requirements:
  - the current chunk must not start with an upper-case letter, since the committed key
    is lowercased;
  - a voiced first kana must be followed by at most one more, since the first stroke
    keeps only the second kana;
  - no mark may stand after the chunk's first kana.
- RomaProperties.RomaTrimAndComplete and RomaProperties.RomaAcceptance describe a key
  without a shortcut in detail. For the shortcut keys, `RomaNNShortcut` and
  `RomaZShortcut` state what changes before the key is matched.
- The commented-out lists at the end of `typing-input-evaluator.ts` are not modelled.
