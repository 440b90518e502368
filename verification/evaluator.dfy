/**
 * The façade the host calls for each keystroke: which keystrokes count as typing
 * (`isTypingKey`), and the evaluators that run a matcher and assemble its result
 * (`typing-input-evaluator`).
 */
module Evaluator {
  import opened Wrappers
  import opened Text
  import opened Chunks
  import opened Tables
  import opened LineWords
  import opened RomaInput
  import opened RomaProperties
  import opened KanaInput
  import opened KanaProperties

  /** `TYPE_CODE_SET`: the codes of the main block that type a character. */
  const TYPE_CODE_SET: set<string> := {
    "Space", "Digit1", "Digit2", "Digit3", "Digit4", "Digit5", "Digit6", "Digit7", "Digit8",
    "Digit9", "Digit0", "Minus", "Equal", "IntlYen", "BracketLeft", "BracketRight", "Semicolon",
    "Quote", "Backslash", "Backquote", "IntlBackslash", "Comma", "Period", "Slash", "IntlRo",
    "Unidentified"
  }

  /** `TYPE_TENKEY_CODE_SET`: the numeric keypad codes that type a character. */
  const TYPE_TENKEY_CODE_SET: set<string> := {
    "Numpad1", "Numpad2", "Numpad3", "Numpad4", "Numpad5", "Numpad6", "Numpad7", "Numpad8",
    "Numpad9", "Numpad0", "NumpadDivide", "NumpadMultiply", "NumpadSubtract", "NumpadAdd",
    "NumpadDecimal"
  }

  /** `isTypingKey`: a keystroke without Ctrl or Alt on a letter key or a typing code. */
  predicate IsTypingKey(e: KeyEvent) {
    if e.ctrlKey || e.altKey then false
    else (65 <= e.keyCode <= 90) || e.code in TYPE_CODE_SET || e.code in TYPE_TENKEY_CODE_SET
  }

  /**
   * Which keystrokes count: never one with Ctrl or Alt; otherwise every letter key (key
   * codes 65 to 90, whatever its code) and every key of the two code lists, and nothing
   * else, so editing and modifier keys (Enter, Backspace, Tab, Escape, Shift) do not count.
   */
  lemma TypingKeyClassification(e: KeyEvent)
    ensures (e.ctrlKey || e.altKey) ==> !IsTypingKey(e)
    ensures !e.ctrlKey && !e.altKey && 65 <= e.keyCode <= 90 ==> IsTypingKey(e)
    ensures !e.ctrlKey && !e.altKey && (e.code in TYPE_CODE_SET || e.code in TYPE_TENKEY_CODE_SET) ==> IsTypingKey(e)
    ensures !(65 <= e.keyCode <= 90) && e.code in {"Enter", "Backspace", "Tab", "Escape", "ShiftLeft", "ShiftRight"} ==>
              !IsTypingKey(e)
    ensures IsTypingKey(e) && !(65 <= e.keyCode <= 90) ==> e.code in TYPE_CODE_SET || e.code in TYPE_TENKEY_CODE_SET
  {
  }

  /** `InputMode`. */
  datatype InputMode = Roma | Kana | Flick

  /** `TypingEvaluationResult`. */
  datatype Evaluation = Evaluation(
    newLineWord: LineWord,
    successKey: Option<string>,
    failKey: Option<string>,
    charType: CharType,
    isCompleted: bool,
    updatePoint: int)

  /**
   * The result assembled from a matcher's answer. The chunk type and score are read from
   * the caller's current chunk after the matcher ran; the matchers never change those two
   * fields, so they are the ones of the chunk the keystroke was aimed at.
   */
  method Assemble(lineWord: LineWord, newLineWord: LineWord, successKey: Option<string>, failKey: Option<string>,
                  isUpdatePoint: bool) returns (res: Evaluation)
    ensures res.newLineWord == newLineWord && res.successKey == successKey && res.failKey == failKey
    ensures res.charType == lineWord.nextChunk.kind
    ensures res.isCompleted <==> newLineWord.nextChunk.kana == ""
    ensures res.updatePoint == if isUpdatePoint then lineWord.nextChunk.point else 0
  {
    res := Evaluation(newLineWord, successKey, failKey, lineWord.nextChunk.kind,
                      newLineWord.nextChunk.kana == "", if isUpdatePoint then lineWord.nextChunk.point else 0);
  }

  /** `evaluateRomaTypingInput`. */
  method EvaluateRomaTypingInput(e: KeyEvent, lineWord: LineWord) returns (res: Evaluation)
    modifies lineWord.correct, lineWord.nextChunk, lineWord.wordChunks
    ensures fresh(res.newLineWord)
    ensures res.newLineWord.correct == lineWord.correct && res.newLineWord.wordChunks == lineWord.wordChunks
    ensures var ln := old(lineWord.Snapshot());
            var r := RomaStep(RomaMakeInput(e), ln);
            res.newLineWord.Snapshot() == r.line && lineWord.nextChunk.Value() == r.callerNext && res.successKey == r.successKey && res.failKey == r.failKey &&
            res.charType == ln.next.kind && (res.isCompleted <==> r.line.next.kana == "") &&
            res.updatePoint == (if r.isUpdatePoint then ln.next.point else 0)
  {
    var typingKey := RomaMakeInput(e);
    RomaKeepsCallerScore(typingKey, lineWord.Snapshot());
    var newLineWord, successKey, failKey, isUpdatePoint := RomaInput.RomaInput(typingKey, lineWord);
    res := Assemble(lineWord, newLineWord, successKey, failKey, isUpdatePoint);
  }

  /** `evaluateKanaTypingInput`. */
  method EvaluateKanaTypingInput(t: Tables, e: KeyEvent, lineWord: LineWord) returns (res: Evaluation)
    modifies lineWord.correct, lineWord.nextChunk, lineWord.wordChunks
    ensures fresh(res.newLineWord)
    ensures res.newLineWord.correct == lineWord.correct && res.newLineWord.wordChunks == lineWord.wordChunks
    ensures var ln := old(lineWord.Snapshot());
            var r := KanaStep(t, TypingKey(KanaKeys(t, e), Lower(e.key), e.code, e.shiftKey), ln);
            res.newLineWord.Snapshot() == r.line && lineWord.nextChunk.Value() == r.callerNext && res.successKey == r.successKey && res.failKey == r.failKey &&
            res.charType == ln.next.kind && (res.isCompleted <==> r.line.next.kana == "") &&
            res.updatePoint == (if r.isUpdatePoint then ln.next.point else 0)
  {
    var typingKey := KanaMakeInput(t, e);
    KanaKeepsCallerScore(t, typingKey, lineWord.Snapshot());
    var newLineWord, successKey, failKey, isUpdatePoint := KanaInput.KanaInput(t, typingKey, lineWord);
    res := Assemble(lineWord, newLineWord, successKey, failKey, isUpdatePoint);
  }

  /** `evaluateTypingInput`: the roma matcher for the roma mode, the kana matcher for every other mode. */
  method EvaluateTypingInput(t: Tables, k: TypingKey, mode: InputMode, lineWord: LineWord) returns (res: Evaluation)
    modifies lineWord.correct, lineWord.nextChunk, lineWord.wordChunks
    ensures fresh(res.newLineWord)
    ensures res.newLineWord.correct == lineWord.correct && res.newLineWord.wordChunks == lineWord.wordChunks
    ensures var ln := old(lineWord.Snapshot());
            var r := if mode == Roma then RomaStep(k, ln) else KanaStep(t, k, ln);
            res.newLineWord.Snapshot() == r.line && lineWord.nextChunk.Value() == r.callerNext && res.successKey == r.successKey && res.failKey == r.failKey &&
            res.charType == ln.next.kind && (res.isCompleted <==> r.line.next.kana == "") &&
            res.updatePoint == (if r.isUpdatePoint then ln.next.point else 0)
  {
    var newLineWord, successKey, failKey, isUpdatePoint;
    if mode == Roma {
      RomaKeepsCallerScore(k, lineWord.Snapshot());
      newLineWord, successKey, failKey, isUpdatePoint := RomaInput.RomaInput(k, lineWord);
    } else {
      KanaKeepsCallerScore(t, k, lineWord.Snapshot());
      newLineWord, successKey, failKey, isUpdatePoint := KanaInput.KanaInput(t, k, lineWord);
    }
    res := Assemble(lineWord, newLineWord, successKey, failKey, isUpdatePoint);
  }
}
