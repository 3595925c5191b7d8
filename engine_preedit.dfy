/**
 * The decisions of the preedit input mode: when a word falls back to
 * English, which string is shown or committed, and the events that
 * showing or committing it produces.
 */
module EnginePreedit {
  import opened Wrappers
  import opened Telex
  import opened IBusConsts
  import Encoder

  /** The letter đ (U+0111). */
  const LetterDd: char := 'đ'

  /**
   * shouldFallbackToEnglish, over its inputs: the option bits, the last word
   * in lower-case Vietnamese, whether it holds a Vietnamese letter and
   * whether the word is valid Vietnamese (IsValid(false)).
   */
  function ShouldFallbackToEnglish(ibFlags: bv64, vnSeq: string, hasVnRune: bool, isValid: bool, checkVnRune: bool): (r: bool)
    ensures ibFlags & IBautoNonVnRestore == 0 ==> !r
    ensures vnSeq == [] ==> !r
    ensures ibFlags & IBddFreeStyle != 0 && vnSeq != [] && (vnSeq[|vnSeq| - 1] == 'd' || LetterDd in vnSeq) ==> !r
    ensures checkVnRune && !hasVnRune ==> !r
    ensures r ==> !isValid
    ensures ibFlags & IBautoNonVnRestore != 0 && vnSeq != [] && !(checkVnRune && !hasVnRune)
            && !(ibFlags & IBddFreeStyle != 0 && (vnSeq[|vnSeq| - 1] == 'd' || LetterDd in vnSeq))
            ==> (r <==> !isValid)
  {
    if ibFlags & IBautoNonVnRestore == 0 then false
    else if |vnSeq| == 0 then false
    else if ibFlags & IBddFreeStyle != 0 && (vnSeq[|vnSeq| - 1] == 'd' || LetterDd in vnSeq) then false
    else if checkVnRune && !hasVnRune then false
    else !isValid
  }

  /** mustFallbackToEnglish: the option is on, the word is not empty and not a complete Vietnamese word. */
  function MustFallbackToEnglish(ibFlags: bv64, vnSeq: string, isValidFull: bool): (r: bool)
    ensures ibFlags & IBautoNonVnRestore == 0 || vnSeq == [] ==> !r
    ensures ibFlags & IBautoNonVnRestore != 0 && vnSeq != [] ==> (r <==> !isValidFull)
  {
    if ibFlags & IBautoNonVnRestore == 0 then false
    else if |vnSeq| == 0 then false
    else !isValidFull
  }

  /** The last word of `c` in lower-case Vietnamese, the sequence both fallbacks look at. */
  function VnSeq(st: Setup, c: seq<Trans>): string
  {
    ProcessedString(st, c, VietnameseMode | LowerCase)
  }

  /** shouldFallbackToEnglish(checkVnRune) for an engine in state `c`. */
  function ShouldFallbackOn(ibFlags: bv64, st: Setup, c: seq<Trans>, checkVnRune: bool): bool
  {
    var vnSeq := VnSeq(st, c);
    ShouldFallbackToEnglish(ibFlags, vnSeq, st.helpers.hasAnyVietnameseRune(vnSeq), IsValidWord(st, c, false), checkVnRune)
  }

  /** mustFallbackToEnglish() for an engine in state `c`. */
  function MustFallbackOn(ibFlags: bv64, st: Setup, c: seq<Trans>): bool
  {
    MustFallbackToEnglish(ibFlags, VnSeq(st, c), IsValidWord(st, c, true))
  }

  /** Checking for a Vietnamese letter only ever prevents a fallback. */
  lemma FallbackWithCheckImpliesWithout(ibFlags: bv64, st: Setup, c: seq<Trans>)
    ensures ShouldFallbackOn(ibFlags, st, c, true) ==> ShouldFallbackOn(ibFlags, st, c, false)
  {
  }

  /** getTelexInputMode: English exactly when the word should fall back to English. */
  function TelexInputMode(ibFlags: bv64, st: Setup, c: seq<Trans>): (m: Mode)
    ensures m == EnglishMode <==> ShouldFallbackOn(ibFlags, st, c, false)
    ensures m == VietnameseMode <==> !ShouldFallbackOn(ibFlags, st, c, false)
  {
    if ShouldFallbackOn(ibFlags, st, c, false) then EnglishMode else VietnameseMode
  }

  /** getPreeditString: the last word as typed when it falls back to English, in Vietnamese otherwise. */
  function PreeditStringOf(ibFlags: bv64, st: Setup, c: seq<Trans>): (s: string)
    ensures ShouldFallbackOn(ibFlags, st, c, true) ==> s == ProcessedString(st, c, EnglishMode)
    ensures !ShouldFallbackOn(ibFlags, st, c, true) ==> s == ProcessedString(st, c, VietnameseMode)
  {
    if ShouldFallbackOn(ibFlags, st, c, true) then ProcessedString(st, c, EnglishMode)
    else ProcessedString(st, c, VietnameseMode)
  }

  /** A preedit shown in English is typed on in English. */
  lemma EnglishPreeditTypesEnglish(ibFlags: bv64, st: Setup, c: seq<Trans>)
    requires ShouldFallbackOn(ibFlags, st, c, true)
    ensures TelexInputMode(ibFlags, st, c) == EnglishMode
  {
    FallbackWithCheckImpliesWithout(ibFlags, st, c);
  }

  /**
   * getComposedString: the word as typed when `oldText` has a Vietnamese
   * letter but the word must fall back to English; `oldText` otherwise.
   */
  function ComposedStringOf(ibFlags: bv64, st: Setup, c: seq<Trans>, oldText: string): (s: string)
    ensures st.helpers.hasAnyVietnameseRune(oldText) && MustFallbackOn(ibFlags, st, c) ==> s == ProcessedString(st, c, EnglishMode)
    ensures !(st.helpers.hasAnyVietnameseRune(oldText) && MustFallbackOn(ibFlags, st, c)) ==> s == oldText
    ensures ibFlags & IBautoNonVnRestore == 0 ==> s == oldText
  {
    if st.helpers.hasAnyVietnameseRune(oldText) && MustFallbackOn(ibFlags, st, c) then ProcessedString(st, c, EnglishMode)
    else oldText
  }

  /** commitText: nothing for the empty string, otherwise one commit of the encoded text. */
  function CommitEvents(charset: string, str: string): (evs: seq<Event>)
    ensures str == "" <==> evs == []
    ensures str != "" ==> evs == [Commit(str)]
  {
    if str == "" then [] else [Commit(Encoder.Encode(charset, str))]
  }

  /**
   * updatePreedit: an empty preedit is hidden and an empty commit is sent;
   * otherwise the encoded text is shown, and the mouse capture released
   * when mouse capturing is on.
   */
  function PreeditEvents(cfg: Config, processedStr: string): (evs: seq<Event>)
    ensures processedStr == "" ==> evs == [HidePreedit, Commit("")]
    ensures processedStr != "" ==> |evs| >= 1 && evs[0] == ShowPreedit(processedStr)
    ensures processedStr != "" ==> (|evs| == 2 <==> cfg.ibFlags & IBmouseCapturing != 0)
    ensures processedStr != "" && |evs| == 2 ==> evs[1] == MouseCaptureUnlock
  {
    var encodedStr := Encoder.Encode(cfg.outputCharset, processedStr);
    if |encodedStr| == 0 then [HidePreedit, Commit("")]
    else [ShowPreedit(encodedStr)] + (if cfg.ibFlags & IBmouseCapturing != 0 then [MouseCaptureUnlock] else [])
  }

  /**
   * Go's rune(s[len(s)-1]): the last BYTE of the UTF-8 encoding of `s`,
   * which is the last character only when that character is ASCII.
   */
  function LastByte(s: string): (b: Rune)
    requires s != ""
    ensures 0 <= b < 0x100
    ensures s[|s| - 1] as int < 0x80 ==> b == s[|s| - 1] as int
    ensures s[|s| - 1] as int >= 0x80 ==> 0x80 <= b < 0xc0
  {
    var c := s[|s| - 1] as int;
    if c < 0x80 then c else 0x80 + c % 0x40
  }

  /** For an ASCII key, comparing the last byte is comparing the last character. */
  lemma LastByteOfAsciiKey(s: string, key: Rune)
    requires s != "" && 0 <= key < 0x80
    ensures LastByte(s) == key <==> s[|s| - 1] as int == key
  {
  }

  /** Go's string(r): the character r, or U+FFFD when r is not a Unicode scalar value. */
  function RuneString(r: Rune): (s: string)
    ensures |s| == 1
    ensures (0 <= r < 0xd800 || 0xe000 <= r < 0x11_0000) ==> s[0] as int == r
    ensures !(0 <= r < 0xd800 || 0xe000 <= r < 0x11_0000) ==> s == "�"
  {
    if 0 <= r < 0xd800 || 0xe000 <= r < 0x11_0000 then [r as char] else "�"
  }

  /** What happens after an appending key (a bracket in Telex) has been processed. */
  datatype AppendingOutcome =
    // the Vietnamese word now ends in the key: the word is committed
    | WordEndsWithKey(fullSeq: string)
    // the preedit ends in the key: the key is committed after the old text
    | KeyEndsPreedit
    // composing goes on
    | KeepComposing

  /**
   * The branch that preeditProcessKeyEvent and keyPressHandler take after
   * processing `key`, the composition now being `c`.  The last character is
   * compared as a byte, as the source does.
   */
  function AppendingKeyOutcome(ibFlags: bv64, st: Setup, c: seq<Trans>, key: Rune): (o: AppendingOutcome)
    ensures key !in st.inputMethod.appendingKeys ==> o == KeepComposing
    ensures o.WordEndsWithKey? ==> o.fullSeq == ProcessedString(st, c, VietnameseMode) && o.fullSeq != ""
                                      && LastByte(o.fullSeq) == key
    ensures o.KeyEndsPreedit? ==> PreeditStringOf(ibFlags, st, c) != "" && LastByte(PreeditStringOf(ibFlags, st, c)) == key
    ensures o == KeepComposing && key in st.inputMethod.appendingKeys ==>
      && (ProcessedString(st, c, VietnameseMode) != "" ==> LastByte(ProcessedString(st, c, VietnameseMode)) != key)
      && (PreeditStringOf(ibFlags, st, c) != "" ==> LastByte(PreeditStringOf(ibFlags, st, c)) != key)
  {
    if key !in st.inputMethod.appendingKeys then KeepComposing
    else
      var fullSeq := ProcessedString(st, c, VietnameseMode);
      if |fullSeq| > 0 && LastByte(fullSeq) == key then WordEndsWithKey(fullSeq)
      else
        var newText := PreeditStringOf(ibFlags, st, c);
        if newText != "" && key == LastByte(newText) then KeyEndsPreedit else KeepComposing
  }
}
