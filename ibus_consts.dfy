/**
 * Constants, configuration and the event log of the IBus engine.
 *
 * Key symbols are the X11 keysym values and modifier masks are IBus's own
 * (ibustypes.h).  The engine's input-mode numbers, property keys, option
 * bits and hardware key codes are defined in files that are not part of
 * this model; the values below are distinct stand-ins, and nothing in the
 * model depends on them beyond their being distinct.
 */
module IBusConsts {
  import opened Telex

  // X11 key symbols
  const IBusSpace: bv32 := 0x20
  const IBusBackSpace: bv32 := 0xff08
  const IBusTab: bv32 := 0xff09
  const IBusReturn: bv32 := 0xff0d
  const IBusLeft: bv32 := 0xff51
  const IBusUp: bv32 := 0xff52
  const IBusRight: bv32 := 0xff53
  const IBusDown: bv32 := 0xff54
  const IBusPageUp: bv32 := 0xff55
  const IBusPageDown: bv32 := 0xff56
  const IBusCapsLock: bv32 := 0xffe5
  /** The key that opens the input-mode lookup table (asciitilde). */
  const IBusOpenLookupTable: bv32 := 0x7e

  // X hardware key codes
  const XkBackspace: bv32 := 22
  const XkLeft: bv32 := 113

  // IBus modifier masks
  const IBusShiftMask: bv32 := 1
  const IBusLockMask: bv32 := 2
  const IBusControlMask: bv32 := 4
  const IBusMod1Mask: bv32 := 8
  const IBusIgnoredMask: bv32 := 0x0200_0000
  const IBusSuperMask: bv32 := 0x0400_0000
  const IBusHyperMask: bv32 := 0x0800_0000
  const IBusMetaMask: bv32 := 0x1000_0000
  const IBusReleaseMask: bv32 := 0x4000_0000

  /** Client capability: the client supports surrounding text. */
  const IBusCapSurroundingText: bv32 := 0x20
  /** The state of a checked property. */
  const PropStateChecked: bv32 := 1

  // Input modes: how the engine talks to the focused application
  const PreeditIM: int := 1
  const SurroundingTextIM: int := 2
  const BackspaceForwardingIM: int := 3
  const ShiftLeftForwardingIM: int := 4
  const ForwardAsCommitIM: int := 5
  const XTestFakeKeyEventIM: int := 6
  const UsIM: int := 7

  // Engine option bits (Config.ibFlags)
  const IBautoNonVnRestore: bv64 := 1
  const IBddFreeStyle: bv64 := 2
  const IBmouseCapturing: bv64 := 4

  // Property keys of the engine's menu
  const PropKeyAbout: string := "about"
  const PropKeyConfiguration: string := "configuration"
  const PropKeyStdToneStyle: string := "std_tone_style"
  const PropKeyMouseCapturing: string := "mouse_capturing"

  /** Tables of the engine package that are defined in files outside this model. */
  datatype Platform = Platform(
    // imLookupTable: input mode -> display name ("" for none)
    inputModeNames: map<int, string>,
    // imBackspaceList: the input modes that edit by sending backspaces
    backspaceModes: seq<int>,
    // DefaultBrowserList: window classes of web browsers
    browsers: seq<string>,
    // vnSymMapping: key symbol for a Vietnamese letter
    vnSymMapping: map<char, bv32>,
    // isMovementKey
    movementKeys: set<bv32>,
    // getCharsetFromPropKey
    charsetOfPropKey: map<string, string>,
    // isValidCharset
    validCharsets: set<string>)

  /** The persistent user configuration. */
  datatype Config = Config(
    inputMethod: string,
    inputMethodDefinitions: map<string, map<string, string>>,
    outputCharset: string,
    flags: bv64,
    ibFlags: bv64,
    defaultInputMode: int,
    inputModeMapping: map<string, int>)

  /** What the engine asks of the input-method bus, the X server or the desktop. */
  datatype Event =
    // ForwardKeyEvent: pass a key event on to the application
    | ForwardKey(keyVal: bv32, keyCode: bv32, state: bv32)
    // CommitText
    | Commit(text: string)
    // UpdatePreeditTextWithMode: show `text` underlined as the preedit
    | ShowPreedit(text: string)
    // HidePreeditText
    | HidePreedit
    // DeleteSurroundingText(offset, nChars)
    | DeleteSurrounding(offset: int, nChars: nat)
    // x11.SendBackspace(n, 0): n fake backspaces through XTest
    | XTestBackspace(n: nat)
    // x11.SendShiftR
    | XTestShiftR
    // UpdateLookupTable(NewLookupTable(), true): show an empty lookup table
    | ClearLookupTable
    // a navigation key moved the input-mode lookup table and redisplayed it
    | MoveLookupCursor(keyVal: bv32)
    | HideLookupTable
    | HideAuxiliaryText
    | RegisterProperties
    | RequireSurroundingText
    // saveConfig: write the configuration file
    | SaveConfig
    // xdg-open of the home page or of the configuration file
    | OpenHomePage
    | OpenConfigFile
    | StartMouseCapturing
    | StopMouseCapturing
    | MouseCaptureUnlock

  /** A Go uint32 used as a number. */
  newtype uint32 = x: int | 0 <= x < 0x1_0000_0000

  /** Go's rune(keyVal): the 32 bits read as a signed number. */
  function KeyRune(keyVal: bv32): (r: Rune)
    ensures -0x8000_0000 <= r < 0x8000_0000
    ensures r >= 0 ==> r == keyVal as int
    ensures r < 0 ==> r + 0x1_0000_0000 == keyVal as int
  {
    if keyVal as int < 0x8000_0000 then keyVal as int else keyVal as int - 0x1_0000_0000
  }
}
