/**
 * The key and input-mode decisions of the IBus engine: pure functions of
 * a key event, the configuration and the engine's setup.  The engine
 * class calls them with its own fields.
 */
module EngineUtils {
  import opened Wrappers
  import opened Telex
  import opened IBusConsts

  /** The modifiers that make a key press a shortcut rather than typing. */
  const ShortcutModifiers: bv32 :=
    IBusControlMask | IBusMod1Mask | IBusIgnoredMask | IBusSuperMask | IBusHyperMask | IBusMetaMask

  /** isValidState: a key typed with no shortcut modifier held. */
  function IsValidState(state: bv32): (r: bool)
    ensures r <==> state & ShortcutModifiers == 0
    ensures r <==> !(state & IBusControlMask != 0 || state & IBusMod1Mask != 0 || state & IBusIgnoredMask != 0
                     || state & IBusSuperMask != 0 || state & IBusHyperMask != 0 || state & IBusMetaMask != 0)
  {
    if state & IBusControlMask != 0 || state & IBusMod1Mask != 0 || state & IBusIgnoredMask != 0 ||
       state & IBusSuperMask != 0 || state & IBusHyperMask != 0 || state & IBusMetaMask != 0
    then false
    else true
  }

  /** Shift, CapsLock and key release never make a state invalid. */
  lemma ValidStateIgnoresShiftLockRelease(state: bv32)
    ensures IsValidState(state | IBusShiftMask | IBusLockMask | IBusReleaseMask) == IsValidState(state)
  {
    assert (state | IBusShiftMask | IBusLockMask | IBusReleaseMask) & ShortcutModifiers == state & ShortcutModifiers;
  }

  const LeftBracket: Rune := '[' as int
  const RightBracket: Rune := ']' as int
  const LeftBrace: Rune := '{' as int
  const RightBrace: Rune := '}' as int

  /** The shifted form of each bracket key, and back. */
  const BracketSwap: map<Rune, Rune> :=
    map[LeftBracket := LeftBrace, RightBracket := RightBrace, LeftBrace := LeftBracket, RightBrace := RightBracket]

  /**
   * toUpper: with CapsLock on, a bracket that the input method uses as an
   * appending key gets its shifted form; every other key is unchanged.
   */
  function ToUpper(appendingKeys: seq<Rune>, keyRune: Rune): (r: Rune)
    ensures keyRune in appendingKeys ==>
      && (keyRune == LeftBracket ==> r == LeftBrace)
      && (keyRune == RightBracket ==> r == RightBrace)
      && (keyRune == LeftBrace ==> r == LeftBracket)
      && (keyRune == RightBrace ==> r == RightBracket)
    ensures r != keyRune <==> keyRune in appendingKeys && keyRune in {LeftBracket, RightBracket, LeftBrace, RightBrace}
  {
    if keyRune in BracketSwap && keyRune in appendingKeys then BracketSwap[keyRune] else keyRune
  }

  /** Swapping twice gives the key back when both forms are appending keys. */
  lemma ToUpperTwice(appendingKeys: seq<Rune>, keyRune: Rune)
    requires keyRune in appendingKeys
    requires keyRune in BracketSwap ==> BracketSwap[keyRune] in appendingKeys
    ensures ToUpper(appendingKeys, ToUpper(appendingKeys, keyRune)) == keyRune
  {
  }

  /**
   * isIgnoredKey: key releases and CapsLock are never handled; in US mode
   * nothing is handled except while the lookup table is open or for the key
   * that opens it.
   */
  function IsIgnoredKey(keyVal: bv32, state: bv32, inputMode: int, ltOpened: bool): (r: bool)
    ensures state & IBusReleaseMask != 0 ==> r
    ensures keyVal == IBusCapsLock ==> r
    ensures inputMode != UsIM ==> (r <==> state & IBusReleaseMask != 0 || keyVal == IBusCapsLock)
    ensures inputMode == UsIM && state & IBusReleaseMask == 0 && keyVal != IBusCapsLock ==>
      (r <==> !ltOpened && keyVal != IBusOpenLookupTable)
  {
    if state & IBusReleaseMask != 0 then true
    else if keyVal == IBusCapsLock then true
    else if inputMode == UsIM then
      if ltOpened || keyVal == IBusOpenLookupTable then false else true
    else false
  }

  /** A mode with a name in imLookupTable (a missing entry reads as ""). */
  predicate KnownMode(p: Platform, im: int)
  {
    im in p.inputModeNames && p.inputModeNames[im] != ""
  }

  /** The mode configured for a window class, if it is one with a name. */
  predicate MappedMode(p: Platform, wmClasses: string, cfg: Config)
  {
    wmClasses != "" && wmClasses in cfg.inputModeMapping && KnownMode(p, cfg.inputModeMapping[wmClasses])
  }

  /**
   * getInputMode: the per-window mode wins, then the default mode, then
   * preedit; only a mode with a name is ever chosen.
   */
  function GetInputMode(p: Platform, wmClasses: string, cfg: Config): (im: int)
    ensures MappedMode(p, wmClasses, cfg) ==> im == cfg.inputModeMapping[wmClasses]
    ensures !MappedMode(p, wmClasses, cfg) && KnownMode(p, cfg.defaultInputMode) ==> im == cfg.defaultInputMode
    ensures !MappedMode(p, wmClasses, cfg) && !KnownMode(p, cfg.defaultInputMode) ==> im == PreeditIM
    ensures im == PreeditIM || KnownMode(p, im)
  {
    if wmClasses != "" && wmClasses in cfg.inputModeMapping && KnownMode(p, cfg.inputModeMapping[wmClasses])
    then cfg.inputModeMapping[wmClasses]
    else if KnownMode(p, cfg.defaultInputMode) then cfg.defaultInputMode
    else PreeditIM
  }

  /** Recording a known mode for a window makes it that window's mode. */
  lemma GetInputModeAfterMapping(p: Platform, wmClasses: string, cfg: Config, im: int)
    requires wmClasses != "" && KnownMode(p, im)
    ensures GetInputMode(p, wmClasses, cfg.(inputModeMapping := cfg.inputModeMapping[wmClasses := im])) == im
  {
  }

  /** canProcessKey: space, backspace and word breaks always; otherwise whatever the composition engine takes. */
  function CanProcessKeyVal(st: Setup, keyVal: bv32): (r: bool)
    ensures keyVal == IBusSpace || keyVal == IBusBackSpace ==> r
    ensures st.helpers.isWordBreakSymbol(KeyRune(keyVal)) ==> r
    ensures r <==> keyVal == IBusSpace || keyVal == IBusBackSpace || st.helpers.isWordBreakSymbol(KeyRune(keyVal))
                   || CanProcess(st, KeyRune(keyVal))
  {
    var keyRune := KeyRune(keyVal);
    if keyVal == IBusSpace || keyVal == IBusBackSpace || st.helpers.isWordBreakSymbol(keyRune) then true
    else CanProcess(st, keyRune)
  }

  /** updateLastKeyWithShift: the new value of lastKeyWithShift. */
  function LastKeyWithShift(st: Setup, keyVal: bv32, state: bv32): (r: bool)
    ensures r <==> CanProcessKeyVal(st, keyVal) && state & IBusShiftMask != 0
  {
    if CanProcessKeyVal(st, keyVal) then state & IBusShiftMask != 0 else false
  }

  /** The lookup-table cursor a digit key '1'..'7' selects (its value minus one). */
  function DigitCursor(keyRune: Rune): (r: Option<uint32>)
    ensures r.Some? <==> '1' as int <= keyRune <= '7' as int
    ensures r.Some? ==> r.value as int == keyRune - '1' as int && r.value <= 6
  {
    if '1' as int <= keyRune <= '7' as int then Some((keyRune - '1' as int) as uint32) else None
  }

  /** The mode recorded for a lookup-table cursor: CursorPos + 1, in 32-bit arithmetic. */
  function CandidateMode(cursorPos: uint32): (im: int)
    ensures cursorPos < 0xffff_ffff ==> im == cursorPos as int + 1
    ensures cursorPos == 0xffff_ffff ==> im == 0
  {
    (cursorPos as int + 1) % 0x1_0000_0000
  }

  /** Selecting digit d records mode d. */
  lemma DigitSelectsMode(keyRune: Rune)
    requires '1' as int <= keyRune <= '7' as int
    ensures CandidateMode(DigitCursor(keyRune).value) == keyRune - '0' as int
  {
  }

  /** Sets `bit` of `flags` when `on`, clears it otherwise: the other bits are those of `flags`. */
  function WithBit(flags: bv64, bit: bv64, on: bool): (r: bv64)
    ensures r == (flags & !bit) | (if on then bit else 0)
  {
    if on then flags | bit else flags & !bit
  }
}
