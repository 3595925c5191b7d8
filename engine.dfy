/**
 * The IBus engine object: it receives key events and focus changes from
 * the input-method bus, feeds keys to its composition engine (the
 * "preeditor") and shows or commits the result in the way the focused
 * application's input mode calls for.
 *
 * What the engine asks of the bus, the X server or the desktop is
 * appended to the `events` log.  Answers it would get from outside
 * (the focused window's class, whether the lookup table accepts a cursor
 * position, the text around the cursor) are parameters.
 */
module IBusEngine {
  import opened Wrappers
  import opened Telex
  import opened IBusConsts
  import opened EngineUtils
  import opened EnginePreedit
  import opened EngineBackspace
  import Encoder

  /** A queued key event (an element of keyPressChan). */
  datatype KeyPress = KeyPress(keyVal: bv32, keyCode: bv32, state: bv32)

  /** The handler ProcessKeyEvent hands a key to. */
  datatype Handler = Ignore | LookupTableHandler | BackspaceHandler | PreeditHandler

  /**
   * ProcessKeyEvent's dispatch: ignored keys first, then the open lookup
   * table, then the backspace input modes, and the preedit mode last.
   */
  function Route(ignored: bool, ltOpened: bool, inBackspaceList: bool): (h: Handler)
    ensures ignored <==> h == Ignore
    ensures h == LookupTableHandler <==> !ignored && ltOpened
    ensures h == BackspaceHandler <==> !ignored && !ltOpened && inBackspaceList
    ensures h == PreeditHandler <==> !ignored && !ltOpened && !inBackspaceList
  {
    if ignored then Ignore
    else if ltOpened then LookupTableHandler
    else if inBackspaceList then BackspaceHandler
    else PreeditHandler
  }

  /** The key as typed: with CapsLock on, a bracket appending key is shifted. */
  function TypedKey(st: Setup, keyVal: bv32, state: bv32): Rune
  {
    if state & IBusLockMask != 0 then ToUpper(st.inputMethod.appendingKeys, KeyRune(keyVal)) else KeyRune(keyVal)
  }

  /**
   * The keys bsProcessKeyEvent handles itself in the XTest and
   * surrounding-text modes: Shift+Left, a shortcut or a key the engine
   * cannot use, and backspace.
   */
  predicate EditingKey(inputMode: int, st: Setup, keyVal: bv32, state: bv32)
  {
    && inputMode in {XTestFakeKeyEventIM, SurroundingTextIM}
    && ((keyVal == IBusLeft && state & IBusShiftMask != 0) || !IsValidState(state) || !CanProcessKeyVal(st, keyVal)
        || keyVal == IBusBackSpace)
  }

  /** An engine with nothing queued and nothing composed takes a non-appending key at once. */
  predicate IdleFor(queue: seq<KeyPress>, rawKeyLen: nat, st: Setup, keyVal: bv32)
  {
    |queue| == 0 && rawKeyLen == 0 && KeyRune(keyVal) !in st.inputMethod.appendingKeys
  }

  /** getRawKeyLen: the length of the whole composition as typed. */
  function RawLen(st: Setup, c: seq<Trans>): (n: nat)
    ensures n == |st.helpers.flatten(c, EnglishMode | FullText)|
    ensures n == 0 <==> st.helpers.flatten(c, EnglishMode | FullText) == ""
  {
    |ProcessedString(st, c, EnglishMode | FullText)|
  }

  // ---------------------------------------------------------------------
  // What one key does, as functions of the state before it: the buffer,
  // and the sending state (keyPressHandler) or the event log
  // (preeditProcessKeyEvent).
  // ---------------------------------------------------------------------

  /** The buffer and the sending state of the backspace input modes. */
  datatype Typed = Typed(buffer: Composed, sender: Sender)

  /** The buffer and the event log of the preedit input mode. */
  datatype Shown = Shown(buffer: Composed, events: seq<Event>)

  /** The key event passed on to the application. */
  function Forward(s: Sender, keyVal: bv32, keyCode: bv32, state: bv32): Sender
  {
    s.(events := s.events + [ForwardKey(keyVal, keyCode, state)])
  }

  /**
   * keyPressHandler's backspace: an empty buffer or a buffer without the
   * restore option only forwards it (the latter after dropping the last
   * character); with the option the shown text is edited when it changed
   * other than by losing its end.
   */
  function BackspaceStep(o: Output, ibFlags: bv64, st: Setup, b0: Composed, s0: Sender,
                         keyVal: bv32, keyCode: bv32, state: bv32): Typed
  {
    var fwd := Forward(s0, keyVal, keyCode, state);
    if RawLen(st, b0.composition) == 0 then Typed(b0, fwd)
    else if ibFlags & IBautoNonVnRestore == 0 then Typed(RemoveLastCharStep(st, b0, false), fwd)
    else
      var b1 := RemoveLastCharStep(st, b0, true);
      Typed(b1, RestoredEditStep(o, ibFlags, st, b1, s0, PreeditStringOf(ibFlags, st, b0.composition), keyVal, keyCode, state))
  }

  /**
   * What keyPressHandler sends once a backspace with the restore option has
   * made the buffer `b1`: the edit from `oldText` to the new text when it
   * changes anything shown, the backspace itself otherwise.
   */
  function RestoredEditStep(o: Output, ibFlags: bv64, st: Setup, b1: Composed, s0: Sender, oldText: string,
                            keyVal: bv32, keyCode: bv32, state: bv32): Sender
  {
    var newText := PreeditStringOf(ibFlags, st, b1.composition);
    if oldText != "" && CommonPrefixLen(newText, oldText) != |newText|
    then UpdatePreviousTextStep(o, s0, newText, oldText)
    else Forward(s0, keyVal, keyCode, state)
  }

  /**
   * keyPressHandler's processable key: it is composed, and the word is
   * committed, the key sent after the word, or the shown text updated.
   */
  function ProcessableStep(o: Output, ibFlags: bv64, st: Setup, b0: Composed, s0: Sender, keyVal: bv32, state: bv32): Typed
  {
    var key := TypedKey(st, keyVal, state);
    var mid := ProcessKeyStep(st, b0, key, TelexInputMode(ibFlags, st, b0.composition));
    SentAfterKeyStep(o, ibFlags, st, mid, s0, key, PreeditStringOf(ibFlags, st, b0.composition))
  }

  /** What keyPressHandler sends once `key` has made the buffer `mid`; `oldText` was the shown text. */
  function SentAfterKeyStep(o: Output, ibFlags: bv64, st: Setup, mid: Composed, s0: Sender, key: Rune, oldText: string): Typed
  {
    match AppendingKeyOutcome(ibFlags, st, mid.composition, key)
    case WordEndsWithKey(fullSeq) => Typed(Composed([], mid.nextId), UpdatePreviousTextStep(o, s0, fullSeq, oldText))
    case KeyEndsPreedit => Typed(Composed([], mid.nextId), SendTextStep(o, s0, RuneString(key)))
    case KeepComposing => Typed(mid, UpdatePreviousTextStep(o, s0, PreeditStringOf(ibFlags, st, mid.composition), oldText))
  }

  /**
   * keyPressHandler's word break: a word that must fall back to English is
   * retyped as typed with the key after it; otherwise the key is sent.
   * Either way the key is added to the buffer in English.
   */
  function WordBreakStep(o: Output, ibFlags: bv64, st: Setup, b0: Composed, s0: Sender, key: Rune): Typed
  {
    var oldText := PreeditStringOf(ibFlags, st, b0.composition);
    if st.helpers.hasAnyVietnameseRune(oldText) && MustFallbackOn(ibFlags, st, b0.composition) then
      RetypeStep(o, st, b0, s0, key, oldText)
    else
      Typed(ProcessKeyStep(st, b0, key, EnglishMode), SendTextStep(o, s0, RuneString(key)))
  }

  /** The last word restored to the keys as typed, shown in their place with `key` after them, and `key` added in English. */
  function RetypeStep(o: Output, st: Setup, b0: Composed, s0: Sender, key: Rune, oldText: string): Typed
  {
    var restored := RestoreLastWordStep(st, b0);
    Typed(ProcessKeyStep(st, restored, key, EnglishMode),
          UpdatePreviousTextStep(o, s0, ProcessedString(st, restored.composition, EnglishMode) + RuneString(key), oldText))
  }

  /**
   * keyPressHandler: shortcuts, Tab and keys that are neither processable
   * nor word breaks empty the buffer and are passed on.
   */
  function KeyPressStep(o: Output, ibFlags: bv64, st: Setup, b0: Composed, s0: Sender,
                        keyVal: bv32, keyCode: bv32, state: bv32): Typed
  {
    var reset := Typed(Composed([], b0.nextId), Forward(s0, keyVal, keyCode, state));
    if !IsValidState(state) then reset
    else if keyVal == IBusBackSpace then BackspaceStep(o, ibFlags, st, b0, s0, keyVal, keyCode, state)
    else if keyVal == IBusTab then reset
    else TypingKeyStep(o, ibFlags, st, b0, s0, keyVal, keyCode, state)
  }

  /** keyPressHandler for a key typed without a shortcut modifier, other than backspace and Tab. */
  function TypingKeyStep(o: Output, ibFlags: bv64, st: Setup, b0: Composed, s0: Sender,
                         keyVal: bv32, keyCode: bv32, state: bv32): Typed
  {
    if CanProcess(st, KeyRune(keyVal)) then ProcessableStep(o, ibFlags, st, b0, s0, keyVal, state)
    else if st.helpers.isWordBreakSymbol(KeyRune(keyVal)) then WordBreakStep(o, ibFlags, st, b0, s0, KeyRune(keyVal))
    else Typed(Composed([], b0.nextId), Forward(s0, keyVal, keyCode, state))
  }

  /**
   * preeditProcessKeyEvent's processable key: composed, then the word (or
   * the old preedit and the key) committed, or the preedit updated.
   */
  function PreeditProcessStep(cfg: Config, st: Setup, b0: Composed, ev0: seq<Event>, keyVal: bv32, state: bv32): Shown
  {
    var key := TypedKey(st, keyVal, state);
    var mid := ProcessKeyStep(st, b0, key, TelexInputMode(cfg.ibFlags, st, b0.composition));
    ShownAfterKeyStep(cfg, st, mid, ev0, key, PreeditStringOf(cfg.ibFlags, st, b0.composition))
  }

  /** What preeditProcessKeyEvent shows or commits once `key` has made the buffer `mid`; `oldText` was the preedit. */
  function ShownAfterKeyStep(cfg: Config, st: Setup, mid: Composed, ev0: seq<Event>, key: Rune, oldText: string): Shown
  {
    match AppendingKeyOutcome(cfg.ibFlags, st, mid.composition, key)
    case WordEndsWithKey(fullSeq) =>
      Shown(Composed([], mid.nextId), ev0 + CommitEvents(cfg.outputCharset, fullSeq) + [HidePreedit])
    case KeyEndsPreedit =>
      Shown(Composed([], mid.nextId), ev0 + CommitEvents(cfg.outputCharset, oldText + RuneString(key)) + [HidePreedit])
    case KeepComposing =>
      Shown(mid, ev0 + PreeditEvents(cfg, PreeditStringOf(cfg.ibFlags, st, mid.composition)))
  }

  /** Whether preeditProcessKeyEvent reports `key` as handled. */
  function PreeditHandles(cfg: Config, st: Setup, b0: Composed, keyVal: bv32, state: bv32): bool
  {
    var raw := RawLen(st, b0.composition);
    var key := KeyRune(keyVal);
    if !IsValidState(state) || !CanProcessKeyVal(st, keyVal) || (raw == 0 && !CanProcess(st, key)) then false
    else if keyVal == IBusBackSpace then raw > 0
    else if keyVal == IBusTab then false
    else if CanProcess(st, key) then true
    else st.helpers.isWordBreakSymbol(key)
  }

  /**
   * preeditProcessKeyEvent: a key the engine cannot use commits the
   * preedit and is passed on; backspace edits the preedit; Tab, word
   * breaks and other keys commit it.
   */
  function PreeditKeyStep(cfg: Config, st: Setup, b0: Composed, ev0: seq<Event>, keyVal: bv32, state: bv32): Shown
  {
    var raw := RawLen(st, b0.composition);
    var oldText := PreeditStringOf(cfg.ibFlags, st, b0.composition);
    var key := KeyRune(keyVal);
    var committed := Composed([], b0.nextId);
    if !IsValidState(state) || !CanProcessKeyVal(st, keyVal) || (raw == 0 && !CanProcess(st, key)) then
      if raw > 0 then Shown(committed, ev0 + [HidePreedit] + CommitEvents(cfg.outputCharset, oldText))
      else Shown(b0, ev0)
    else if keyVal == IBusBackSpace then
      if raw > 0 then
        var b1 := RemoveLastCharStep(st, b0, true);
        Shown(b1, ev0 + PreeditEvents(cfg, PreeditStringOf(cfg.ibFlags, st, b1.composition)))
      else Shown(b0, ev0)
    else if keyVal == IBusTab then
      Shown(committed, ev0 + CommitEvents(cfg.outputCharset, ComposedStringOf(cfg.ibFlags, st, b0.composition, oldText)) + [HidePreedit])
    else PreeditTypingStep(cfg, st, b0, ev0, keyVal, state)
  }

  /** preeditProcessKeyEvent for a usable key other than backspace and Tab. */
  function PreeditTypingStep(cfg: Config, st: Setup, b0: Composed, ev0: seq<Event>, keyVal: bv32, state: bv32): Shown
  {
    var oldText := PreeditStringOf(cfg.ibFlags, st, b0.composition);
    var key := KeyRune(keyVal);
    var committed := Composed([], b0.nextId);
    if CanProcess(st, key) then
      PreeditProcessStep(cfg, st, b0, ev0, keyVal, state)
    else if st.helpers.isWordBreakSymbol(key) then
      Shown(committed, ev0 + CommitEvents(cfg.outputCharset, ComposedStringOf(cfg.ibFlags, st, b0.composition, oldText) + RuneString(key))
                       + [HidePreedit])
    else
      Shown(committed, ev0 + CommitEvents(cfg.outputCharset, oldText) + [HidePreedit])
  }

  // ---------------------------------------------------------------------
  // Properties of one key
  // ---------------------------------------------------------------------

  /** An empty buffer keeps its addresses fresh, whatever its next address. */
  lemma EmptyFresh(next: nat)
    ensures FreshIds([], next)
  {
  }

  /** keyPressHandler's processable key keeps the buffer's addresses distinct. */
  lemma ProcessableFresh(o: Output, ibFlags: bv64, st: Setup, b0: Composed, s0: Sender, keyVal: bv32, state: bv32)
    requires FreshIds(b0.composition, b0.nextId)
    ensures var r := ProcessableStep(o, ibFlags, st, b0, s0, keyVal, state).buffer; FreshIds(r.composition, r.nextId)
  {
    var key := TypedKey(st, keyVal, state);
    var mid := ProcessKeyStep(st, b0, key, TelexInputMode(ibFlags, st, b0.composition));
    ProcessKeyFresh(st, b0, key, TelexInputMode(ibFlags, st, b0.composition));
    EmptyFresh(mid.nextId);
  }

  /** keyPressHandler's word break keeps the buffer's addresses distinct. */
  lemma WordBreakFresh(o: Output, ibFlags: bv64, st: Setup, b0: Composed, s0: Sender, key: Rune)
    requires FreshIds(b0.composition, b0.nextId)
    ensures var r := WordBreakStep(o, ibFlags, st, b0, s0, key).buffer; FreshIds(r.composition, r.nextId)
  {
    var oldText := PreeditStringOf(ibFlags, st, b0.composition);
    if st.helpers.hasAnyVietnameseRune(oldText) && MustFallbackOn(ibFlags, st, b0.composition) {
      RestoreLastWordFresh(st, b0);
      ProcessKeyFresh(st, RestoreLastWordStep(st, b0), key, EnglishMode);
    } else {
      ProcessKeyFresh(st, b0, key, EnglishMode);
    }
  }

  /** keyPressHandler keeps the buffer's addresses distinct: the engine's invariant as a property of one key. */
  lemma KeyPressFresh(o: Output, ibFlags: bv64, st: Setup, b0: Composed, s0: Sender, keyVal: bv32, keyCode: bv32, state: bv32)
    requires FreshIds(b0.composition, b0.nextId)
    ensures var r := KeyPressStep(o, ibFlags, st, b0, s0, keyVal, keyCode, state).buffer; FreshIds(r.composition, r.nextId)
  {
    EmptyFresh(b0.nextId);
    if IsValidState(state) && keyVal == IBusBackSpace {
      RemoveLastCharFresh(st, b0, false);
      RemoveLastCharFresh(st, b0, true);
    } else if IsValidState(state) && keyVal != IBusTab {
      if CanProcess(st, KeyRune(keyVal)) {
        ProcessableFresh(o, ibFlags, st, b0, s0, keyVal, state);
      } else if st.helpers.isWordBreakSymbol(KeyRune(keyVal)) {
        WordBreakFresh(o, ibFlags, st, b0, s0, KeyRune(keyVal));
      }
    }
  }

  /** preeditProcessKeyEvent's processable key keeps the buffer's addresses distinct. */
  lemma PreeditProcessFresh(cfg: Config, st: Setup, b0: Composed, ev0: seq<Event>, keyVal: bv32, state: bv32)
    requires FreshIds(b0.composition, b0.nextId)
    ensures var r := PreeditProcessStep(cfg, st, b0, ev0, keyVal, state).buffer; FreshIds(r.composition, r.nextId)
  {
    var key := TypedKey(st, keyVal, state);
    var mid := ProcessKeyStep(st, b0, key, TelexInputMode(cfg.ibFlags, st, b0.composition));
    ProcessKeyFresh(st, b0, key, TelexInputMode(cfg.ibFlags, st, b0.composition));
    EmptyFresh(mid.nextId);
  }

  /** preeditProcessKeyEvent keeps the buffer's addresses distinct. */
  lemma PreeditKeyFresh(cfg: Config, st: Setup, b0: Composed, ev0: seq<Event>, keyVal: bv32, state: bv32)
    requires FreshIds(b0.composition, b0.nextId)
    ensures var r := PreeditKeyStep(cfg, st, b0, ev0, keyVal, state).buffer; FreshIds(r.composition, r.nextId)
  {
    EmptyFresh(b0.nextId);
    var raw := RawLen(st, b0.composition);
    var key := KeyRune(keyVal);
    if !IsValidState(state) || !CanProcessKeyVal(st, keyVal) || (raw == 0 && !CanProcess(st, key)) {
    } else if keyVal == IBusBackSpace {
      RemoveLastCharFresh(st, b0, true);
    } else if keyVal != IBusTab && CanProcess(st, key) {
      PreeditProcessFresh(cfg, st, b0, ev0, keyVal, state);
    }
  }

  /** Sending text only ever adds to the event log. */
  lemma SendTextExtendsLog(o: Output, s: Sender, rs: string)
    ensures s.events <= SendTextStep(o, s, rs).events
  {
    assert SendTextStep(o, s, rs).events == s.events + TextEvents(o, rs);
  }

  /** Passing a key on only adds to the event log. */
  lemma ForwardExtendsLog(s: Sender, keyVal: bv32, keyCode: bv32, state: bv32)
    ensures s.events <= Forward(s, keyVal, keyCode, state).events
  {
    assert Forward(s, keyVal, keyCode, state).events == s.events + [ForwardKey(keyVal, keyCode, state)];
  }

  lemma SentAfterKeyExtendsLog(o: Output, ibFlags: bv64, st: Setup, mid: Composed, s0: Sender, key: Rune, oldText: string)
    ensures s0.events <= SentAfterKeyStep(o, ibFlags, st, mid, s0, key, oldText).sender.events
  {
    match AppendingKeyOutcome(ibFlags, st, mid.composition, key)
    case WordEndsWithKey(fullSeq) => UpdatePreviousTextExtendsLog(o, s0, fullSeq, oldText);
    case KeyEndsPreedit => SendTextExtendsLog(o, s0, RuneString(key));
    case KeepComposing => UpdatePreviousTextExtendsLog(o, s0, PreeditStringOf(ibFlags, st, mid.composition), oldText);
  }

  lemma WordBreakExtendsLog(o: Output, ibFlags: bv64, st: Setup, b0: Composed, s0: Sender, key: Rune)
    ensures s0.events <= WordBreakStep(o, ibFlags, st, b0, s0, key).sender.events
  {
    var oldText := PreeditStringOf(ibFlags, st, b0.composition);
    if st.helpers.hasAnyVietnameseRune(oldText) && MustFallbackOn(ibFlags, st, b0.composition) {
      var restored := RestoreLastWordStep(st, b0);
      UpdatePreviousTextExtendsLog(o, s0, ProcessedString(st, restored.composition, EnglishMode) + RuneString(key), oldText);
    } else {
      SendTextExtendsLog(o, s0, RuneString(key));
    }
  }

  lemma BackspaceExtendsLog(o: Output, ibFlags: bv64, st: Setup, b0: Composed, s0: Sender, keyVal: bv32, keyCode: bv32, state: bv32)
    ensures s0.events <= BackspaceStep(o, ibFlags, st, b0, s0, keyVal, keyCode, state).sender.events
  {
    ForwardExtendsLog(s0, keyVal, keyCode, state);
    var b1 := RemoveLastCharStep(st, b0, true);
    UpdatePreviousTextExtendsLog(o, s0, PreeditStringOf(ibFlags, st, b1.composition), PreeditStringOf(ibFlags, st, b0.composition));
  }

  lemma TypingKeyExtendsLog(o: Output, ibFlags: bv64, st: Setup, b0: Composed, s0: Sender, keyVal: bv32, keyCode: bv32, state: bv32)
    ensures s0.events <= TypingKeyStep(o, ibFlags, st, b0, s0, keyVal, keyCode, state).sender.events
  {
    ForwardExtendsLog(s0, keyVal, keyCode, state);
    if CanProcess(st, KeyRune(keyVal)) {
      var key := TypedKey(st, keyVal, state);
      var mid := ProcessKeyStep(st, b0, key, TelexInputMode(ibFlags, st, b0.composition));
      SentAfterKeyExtendsLog(o, ibFlags, st, mid, s0, key, PreeditStringOf(ibFlags, st, b0.composition));
    } else if st.helpers.isWordBreakSymbol(KeyRune(keyVal)) {
      WordBreakExtendsLog(o, ibFlags, st, b0, s0, KeyRune(keyVal));
    }
  }

  /** keyPressHandler only ever adds to the event log. */
  lemma KeyPressExtendsLog(o: Output, ibFlags: bv64, st: Setup, b0: Composed, s0: Sender, keyVal: bv32, keyCode: bv32, state: bv32)
    ensures s0.events <= KeyPressStep(o, ibFlags, st, b0, s0, keyVal, keyCode, state).sender.events
  {
    ForwardExtendsLog(s0, keyVal, keyCode, state);
    if IsValidState(state) && keyVal == IBusBackSpace {
      BackspaceExtendsLog(o, ibFlags, st, b0, s0, keyVal, keyCode, state);
    } else if IsValidState(state) && keyVal != IBusTab {
      TypingKeyExtendsLog(o, ibFlags, st, b0, s0, keyVal, keyCode, state);
    }
  }

  /**
   * A key that preeditProcessKeyEvent does not handle never leaves a
   * preedit behind: whatever was composed has been committed.
   */
  lemma PreeditUnhandledCommits(cfg: Config, st: Setup, b0: Composed, ev0: seq<Event>, keyVal: bv32, state: bv32)
    requires !PreeditHandles(cfg, st, b0, keyVal, state) && RawLen(st, b0.composition) > 0
    ensures PreeditKeyStep(cfg, st, b0, ev0, keyVal, state).buffer == Composed([], b0.nextId)
  {
  }

  lemma ShownAfterKeyExtendsLog(cfg: Config, st: Setup, mid: Composed, ev0: seq<Event>, key: Rune, oldText: string)
    ensures ev0 <= ShownAfterKeyStep(cfg, st, mid, ev0, key, oldText).events
  {
    var r := ShownAfterKeyStep(cfg, st, mid, ev0, key, oldText).events;
    assert r[..|ev0|] == ev0;
  }

  lemma PreeditTypingExtendsLog(cfg: Config, st: Setup, b0: Composed, ev0: seq<Event>, keyVal: bv32, state: bv32)
    ensures ev0 <= PreeditTypingStep(cfg, st, b0, ev0, keyVal, state).events
  {
    if CanProcess(st, KeyRune(keyVal)) {
      var key := TypedKey(st, keyVal, state);
      var mid := ProcessKeyStep(st, b0, key, TelexInputMode(cfg.ibFlags, st, b0.composition));
      ShownAfterKeyExtendsLog(cfg, st, mid, ev0, key, PreeditStringOf(cfg.ibFlags, st, b0.composition));
    } else {
      var r := PreeditTypingStep(cfg, st, b0, ev0, keyVal, state).events;
      assert r[..|ev0|] == ev0;
    }
  }

  /** preeditProcessKeyEvent only ever adds to the event log. */
  lemma PreeditExtendsLog(cfg: Config, st: Setup, b0: Composed, ev0: seq<Event>, keyVal: bv32, state: bv32)
    ensures ev0 <= PreeditKeyStep(cfg, st, b0, ev0, keyVal, state).events
  {
    var r := PreeditKeyStep(cfg, st, b0, ev0, keyVal, state).events;
    var raw := RawLen(st, b0.composition);
    var key := KeyRune(keyVal);
    if !IsValidState(state) || !CanProcessKeyVal(st, keyVal) || (raw == 0 && !CanProcess(st, key)) || keyVal == IBusBackSpace
       || keyVal == IBusTab {
      assert r[..|ev0|] == ev0;
    } else {
      PreeditTypingExtendsLog(cfg, st, b0, ev0, keyVal, state);
    }
  }

  /**
   * A shortcut or Tab empties the buffer and is passed on; backspace on an
   * empty buffer is only passed on.
   */
  lemma KeyPressPassesOn(o: Output, ibFlags: bv64, st: Setup, b0: Composed, s0: Sender, keyVal: bv32, keyCode: bv32, state: bv32)
    ensures !IsValidState(state) || keyVal == IBusTab ==>
      KeyPressStep(o, ibFlags, st, b0, s0, keyVal, keyCode, state) == Typed(Composed([], b0.nextId), Forward(s0, keyVal, keyCode, state))
    ensures IsValidState(state) && keyVal == IBusBackSpace && RawLen(st, b0.composition) == 0 ==>
      KeyPressStep(o, ibFlags, st, b0, s0, keyVal, keyCode, state) == Typed(b0, Forward(s0, keyVal, keyCode, state))
  {
  }

  /** The events of closeInputModeCandidates. */
  const CloseEvents: seq<Event> := [ClearLookupTable, HidePreedit, HideLookupTable, HideAuxiliaryText]

  /** The events of commitInputModeCandidate. */
  const SaveEvents: seq<Event> := [SaveConfig, RegisterProperties]

  /** The events of the mouse-capturing property. */
  function MouseEvents(propName: string, checked: bool): seq<Event>
  {
    if propName == PropKeyMouseCapturing then (if checked then [StartMouseCapturing] else [StopMouseCapturing]) else []
  }

  /** The std_tone_style property sets or clears the standard tone style flag. */
  function ToneStyleStep(cfg: Config, propName: string, checked: bool): Config
  {
    if propName == PropKeyStdToneStyle then cfg.(flags := WithBit(cfg.flags, EstdToneStyle, checked)) else cfg
  }

  /** The mouse_capturing property sets or clears the mouse-capturing option. */
  function MouseCapturingStep(cfg: Config, propName: string, checked: bool): Config
  {
    if propName == PropKeyMouseCapturing then cfg.(ibFlags := WithBit(cfg.ibFlags, IBmouseCapturing, checked)) else cfg
  }

  /** A checked charset or input-method property selects that charset or input method. */
  function ChoiceStep(p: Platform, cfg: Config, propName: string, checked: bool): Config
  {
    var cfg' := if propName in p.charsetOfPropKey && p.charsetOfPropKey[propName] in p.validCharsets && checked
                then cfg.(outputCharset := p.charsetOfPropKey[propName]) else cfg;
    if propName in cfg'.inputMethodDefinitions && checked then cfg'.(inputMethod := propName) else cfg'
  }

  /**
   * The configuration after activating `propName` (a property other than
   * About and Configuration): only the setting the property names changes.
   */
  function ActivatedConfig(p: Platform, cfg: Config, propName: string, checked: bool): (r: Config)
    ensures r.flags == (if propName == PropKeyStdToneStyle then WithBit(cfg.flags, EstdToneStyle, checked) else cfg.flags)
    ensures r.ibFlags == (if propName == PropKeyMouseCapturing then WithBit(cfg.ibFlags, IBmouseCapturing, checked) else cfg.ibFlags)
    ensures r.outputCharset == (if propName in p.charsetOfPropKey && p.charsetOfPropKey[propName] in p.validCharsets && checked
                                then p.charsetOfPropKey[propName] else cfg.outputCharset)
    ensures r.inputMethod == (if propName in cfg.inputMethodDefinitions && checked then propName else cfg.inputMethod)
    ensures r.inputMethodDefinitions == cfg.inputMethodDefinitions
    ensures r.defaultInputMode == cfg.defaultInputMode && r.inputModeMapping == cfg.inputModeMapping
    ensures !checked ==> r.outputCharset == cfg.outputCharset && r.inputMethod == cfg.inputMethod
  {
    ChoiceStep(p, MouseCapturingStep(ToneStyleStep(cfg, propName, checked), propName, checked), propName, checked)
  }

  /** Surrounding-text punctuation that the composition engine would process is replayed as a space. */
  function Sanitize(st: Setup, c: char): char
  {
    if st.helpers.isPunctuationMark(c as int) && CanProcess(st, c as int) then ' ' else c
  }

  /** The buffer after replaying `cs` from its last character to its first, each put in front. */
  function ReplayStep(st: Setup, s: Composed, cs: string): Composed
    decreases |cs|
  {
    if cs == [] then s
    else ProcessKeyStep(st, ReplayStep(st, s, cs[1..]), Sanitize(st, cs[0]) as int, EnglishMode | InReverseOrder)
  }

  /**
   * Replaying the text backwards in reverse order leaves it in the buffer
   * in its original order, one appending record per character, in front of
   * what was there.
   */
  lemma {:induction false} ReplayInOrder(st: Setup, s: Composed, cs: string)
    ensures var r := ReplayStep(st, s, cs);
      && |r.composition| == |cs| + |s.composition|
      && r.nextId == s.nextId + |cs|
      && r.composition[|cs|..] == s.composition
      && forall i :: 0 <= i < |cs| ==>
           r.composition[i] == NewAppendingTrans(s.nextId + |cs| - 1 - i, st.helpers.toLower(Sanitize(st, cs[i]) as int),
                                                 st.helpers.isUpper(Sanitize(st, cs[i]) as int))
  {
    if cs != [] {
      var m := ReplayStep(st, s, cs[1..]);
      ReplayInOrder(st, s, cs[1..]);
      var key := Sanitize(st, cs[0]) as int;
      ProcessKeyAppends(st, m, key, EnglishMode | InReverseOrder);
      var r := ReplayStep(st, s, cs);
      assert r.composition[1..] == m.composition;
      forall i | 0 <= i < |cs|
        ensures r.composition[i] == NewAppendingTrans(s.nextId + |cs| - 1 - i, st.helpers.toLower(Sanitize(st, cs[i]) as int),
                                                      st.helpers.isUpper(Sanitize(st, cs[i]) as int))
      {
        if i > 0 {
          assert cs[i] == cs[1..][i - 1];
          assert r.composition[i] == m.composition[i - 1];
        }
      }
      assert r.composition[|cs|..] == m.composition[|cs| - 1..];
    }
  }

  class IBusTelex {
    const platform: Platform
    const helpers: CoreHelpers
    var preeditor: TelexEngine
    var config: Config
    var wmClasses: string
    var isInputModeLTOpened: bool
    // inputModeLookupTable.CursorPos
    var lookupCursorPos: uint32
    var capabilities: bv32
    var keyPressDelay: int
    var nFakeBackSpace: int
    var isFirstTimeSendingBS: bool
    var isSurroundingTextReady: bool
    var lastKeyWithShift: bool
    // keyPressChan
    var keyPressQueue: seq<KeyPress>
    var events: seq<Event>

    ghost predicate Valid()
      reads this`preeditor, preeditor
    {
      preeditor.Valid()
    }

    /** The engine that GetIBusEngineCreator builds for a loaded configuration. */
    constructor (platform: Platform, helpers: CoreHelpers, config: Config)
      ensures Valid()
      ensures this.platform == platform && this.helpers == helpers && this.config == config
      ensures preeditor.composition == []
      ensures preeditor.setup == Setup(helpers, helpers.parseInputMethod(config.inputMethodDefinitions, config.inputMethod), config.flags)
      ensures wmClasses == "" && !isInputModeLTOpened && lookupCursorPos == 0 && capabilities == 0 && keyPressDelay == 0
      ensures nFakeBackSpace == 0 && !isFirstTimeSendingBS && !isSurroundingTextReady && !lastKeyWithShift
      ensures keyPressQueue == [] && events == []
    {
      this.platform := platform;
      this.helpers := helpers;
      var inputMethod := helpers.parseInputMethod(config.inputMethodDefinitions, config.inputMethod);
      preeditor := new TelexEngine(inputMethod, config.flags, helpers);
      this.config := config;
      wmClasses := "";
      isInputModeLTOpened := false;
      lookupCursorPos := 0;
      capabilities := 0;
      keyPressDelay := 0;
      nFakeBackSpace := 0;
      isFirstTimeSendingBS := false;
      isSurroundingTextReady := false;
      lastKeyWithShift := false;
      keyPressQueue := [];
      events := [];
    }

    // -------------------------------------------------------------------
    // Views of the engine's fields
    // -------------------------------------------------------------------

    /** getInputMode for the focused window. */
    function InputMode(): int
      reads this`wmClasses, this`config
    {
      GetInputMode(platform, wmClasses, config)
    }

    function InBackspaceList(): bool
      reads this`wmClasses, this`config
    {
      InputMode() in platform.backspaceModes
    }

    /** inBrowserList */
    function InBrowserList(): (r: bool)
      reads this`wmClasses
      ensures r <==> exists i :: 0 <= i < |platform.browsers| && platform.browsers[i] == wmClasses
    {
      wmClasses in platform.browsers
    }

    /** How text reaches the focused application. */
    function Out(): Output
      reads this`wmClasses, this`config
    {
      Output(platform, InputMode(), InBrowserList(), config.outputCharset)
    }

    function SenderState(): Sender
      reads this`events, this`nFakeBackSpace, this`isFirstTimeSendingBS
    {
      Sender(events, nFakeBackSpace, isFirstTimeSendingBS)
    }

    function Buffer(): Composed
      reads this`preeditor, preeditor
    {
      preeditor.State()
    }

    /** getRawKeyLen: the length of the whole composition as typed. */
    function RawKeyLen(): (n: nat)
      reads this`preeditor, preeditor
      ensures n == |preeditor.GetProcessedString(EnglishMode | FullText)|
    {
      RawLen(preeditor.setup, preeditor.composition)
    }

    /** getPreeditString */
    function PreeditString(): (r: string)
      reads this`config, this`preeditor, preeditor
      ensures ShouldFallback(true) ==> r == preeditor.GetProcessedString(EnglishMode)
      ensures !ShouldFallback(true) ==> r == preeditor.GetProcessedString(VietnameseMode)
    {
      PreeditStringOf(config.ibFlags, preeditor.setup, preeditor.composition)
    }

    /** shouldFallbackToEnglish(checkVnRune) */
    function ShouldFallback(checkVnRune: bool): bool
      reads this`config, this`preeditor, preeditor
    {
      ShouldFallbackOn(config.ibFlags, preeditor.setup, preeditor.composition, checkVnRune)
    }

    // -------------------------------------------------------------------
    // Committing and showing text (engine_preedit.go)
    // -------------------------------------------------------------------

    method CommitText(str: string)
      modifies this`events
      ensures events == old(events) + CommitEvents(config.outputCharset, str)
    {
      if str == "" {
        return;
      }
      events := events + [Commit(Encoder.Encode(config.outputCharset, str))];
    }

    method UpdatePreedit(processedStr: string)
      modifies this`events
      ensures events == old(events) + PreeditEvents(config, processedStr)
    {
      var encodedStr := Encoder.Encode(config.outputCharset, processedStr);
      if |encodedStr| == 0 {
        events := events + [HidePreedit, Commit("")];
        return;
      }
      events := events + [ShowPreedit(encodedStr)];
      if config.ibFlags & IBmouseCapturing != 0 {
        events := events + [MouseCaptureUnlock];
      }
    }

    /** commitPreedit: commit `s`, hide the preedit and empty the buffer. */
    method CommitPreedit(s: string)
      requires Valid()
      modifies this`events, preeditor
      ensures Valid()
      ensures events == old(events) + CommitEvents(config.outputCharset, s) + [HidePreedit]
      ensures preeditor.composition == [] && preeditor.nextId == old(preeditor.nextId)
    {
      CommitText(s);
      events := events + [HidePreedit];
      preeditor.Reset();
    }

    // -------------------------------------------------------------------
    // Small state updates (engine_utils.go)
    // -------------------------------------------------------------------

    /** resetBuffer: a non-empty buffer is committed in preedit mode and dropped in the other modes. */
    method ResetBuffer()
      requires Valid()
      modifies this`events, preeditor
      ensures Valid()
      ensures old(RawKeyLen()) == 0 ==> events == old(events) && unchanged(preeditor)
      ensures old(RawKeyLen()) != 0 ==> preeditor.composition == [] && preeditor.nextId == old(preeditor.nextId)
      ensures old(RawKeyLen()) != 0 && InputMode() == PreeditIM ==>
        events == old(events) + CommitEvents(config.outputCharset, old(PreeditString())) + [HidePreedit]
      ensures old(RawKeyLen()) != 0 && InputMode() != PreeditIM ==> events == old(events)
    {
      if RawKeyLen() == 0 {
        return;
      }
      if InputMode() == PreeditIM {
        CommitPreedit(PreeditString());
      } else {
        preeditor.Reset();
      }
    }

    method ResetFakeBackspace()
      modifies this`nFakeBackSpace
      ensures nFakeBackSpace == 0
    {
      nFakeBackSpace := 0;
    }

    method UpdateLastKeyWithShift(keyVal: bv32, state: bv32)
      modifies this`lastKeyWithShift
      ensures lastKeyWithShift == LastKeyWithShift(preeditor.setup, keyVal, state)
    {
      if CanProcessKeyVal(preeditor.setup, keyVal) {
        lastKeyWithShift := state & IBusShiftMask != 0;
      } else {
        lastKeyWithShift := false;
      }
    }

    /** inBackspaceWhiteList: whether the input mode is one that edits with backspaces. */
    method InBackspaceWhiteList() returns (found: bool)
      ensures found == InBackspaceList()
    {
      var inputMode := InputMode();
      var modes := platform.backspaceModes;
      for i := 0 to |modes|
        invariant inputMode !in modes[..i]
      {
        if modes[i] == inputMode {
          return true;
        }
        assert modes[..i + 1] == modes[..i] + [modes[i]];
      }
      assert modes[..|modes|] == modes;
      return false;
    }

    /** commitInputModeCandidate: the window's mode becomes CursorPos + 1, and the configuration is saved. */
    method CommitInputModeCandidate()
      modifies this`config, this`events
      ensures config == old(config).(inputModeMapping := old(config.inputModeMapping)[wmClasses := CandidateMode(lookupCursorPos)])
      ensures events == old(events) + SaveEvents
      ensures wmClasses != "" && KnownMode(platform, CandidateMode(lookupCursorPos)) ==> InputMode() == CandidateMode(lookupCursorPos)
    {
      var im := CandidateMode(lookupCursorPos);
      config := config.(inputModeMapping := config.inputModeMapping[wmClasses := im]);
      events := events + SaveEvents;
      if wmClasses != "" && KnownMode(platform, im) {
        GetInputModeAfterMapping(platform, wmClasses, old(config), im);
      }
    }

    method CloseInputModeCandidates()
      modifies this`isInputModeLTOpened, this`events
      ensures !isInputModeLTOpened
      ensures events == old(events) + CloseEvents
    {
      events := events + CloseEvents;
      isInputModeLTOpened := false;
    }

    // -------------------------------------------------------------------
    // Sending edits (engine_backspace.go)
    // -------------------------------------------------------------------

    method ForwardPairs(press: Event, release: Event, n: nat)
      modifies this`events
      ensures events == old(events) + KeyPairs(press, release, n)
    {
      for i := 0 to n
        invariant events == old(events) + KeyPairs(press, release, i)
      {
        events := events + [press, release];
      }
    }

    method SendBackSpace(n: nat)
      modifies this`events
      ensures events == old(events) + BackspaceEvents(InputMode(), n)
    {
      var inputMode := InputMode();
      if inputMode == XTestFakeKeyEventIM {
        events := events + [XTestBackspace(n)];
      } else if inputMode == SurroundingTextIM {
        events := events + [DeleteSurrounding(-(n as int), n)];
      } else if inputMode == ForwardAsCommitIM {
        ForwardPairs(BackspacePress, BackspaceRelease, n);
      } else if inputMode == ShiftLeftForwardingIM {
        ForwardPairs(ShiftLeftPress, ShiftLeftRelease, n);
      } else if inputMode == BackspaceForwardingIM {
        ForwardPairs(BackspacePress, BackspaceRelease, n);
      }
    }

    method SendText(rs: string)
      modifies this`events
      ensures events == old(events) + TextEvents(Out(), rs)
    {
      if |rs| == 0 {
        return;
      }
      if InputMode() == ForwardAsCommitIM {
        ForwardTaps(rs);
        return;
      }
      CommitText(rs);
    }

    /** SendText's forward-as-commit loop: a press and a release of each character's key symbol. */
    method ForwardTaps(rs: string)
      modifies this`events
      ensures events == old(events) + KeyTaps(platform, rs)
    {
      for i := 0 to |rs|
        invariant events == old(events) + KeyTaps(platform, rs[..i])
      {
        var c := rs[i];
        var keyVal: bv32 := if c in platform.vnSymMapping then platform.vnSymMapping[c] else 0;
        if keyVal == 0 {
          keyVal := c as bv32;
        }
        assert keyVal == KeySym(platform, c);
        assert rs[..i + 1] == rs[..i] + [c];
        KeyTapsSnoc(platform, rs[..i], c);
        events := events + [ForwardKey(keyVal, 0, 0), ForwardKey(keyVal, 0, IBusReleaseMask)];
      }
      assert rs[..|rs|] == rs;
    }

    method SendBackspaceAndNewRunes(nBackSpace: nat, newRunes: string)
      modifies this`events, this`nFakeBackSpace
      ensures SenderState() == SendBackspaceAndNewRunesStep(Out(), old(SenderState()), nBackSpace, newRunes)
    {
      if nBackSpace > 0 {
        if InputMode() == XTestFakeKeyEventIM {
          nFakeBackSpace := nBackSpace;
        }
        SendBackSpace(nBackSpace);
      }
      SendText(newRunes);
    }

    /** getPreeditOffset: the length of the common prefix of the two texts. */
    method GetPreeditOffset(newRunes: string, oldRunes: string) returns (offset: nat)
      ensures offset == CommonPrefixLen(newRunes, oldRunes)
    {
      var minLen := |oldRunes|;
      if |newRunes| < minLen {
        minLen := |newRunes|;
      }
      for i := 0 to minLen
        invariant newRunes[..i] == oldRunes[..i]
      {
        if oldRunes[i] != newRunes[i] {
          CommonPrefixLenUnique(newRunes, oldRunes, i);
          return i;
        }
        assert newRunes[..i + 1] == newRunes[..i] + [newRunes[i]];
        assert oldRunes[..i + 1] == oldRunes[..i] + [oldRunes[i]];
      }
      CommonPrefixLenUnique(newRunes, oldRunes, minLen);
      return minLen;
    }

    /** updatePreviousText: turns the shown `oldText` into `newText` (see UpdatePreviousTextEffect). */
    method UpdatePreviousText(newText: string, oldText: string)
      modifies this`events, this`nFakeBackSpace, this`isFirstTimeSendingBS
      ensures SenderState() == UpdatePreviousTextStep(Out(), old(SenderState()), newText, oldText)
    {
      ghost var o := Out();
      ghost var s0 := SenderState();
      ghost var e := PlanEdit(newText, oldText, WorkaroundApplies(o, s0));
      var oldRunes, newRunes := oldText, newText;
      var nBackSpace: nat := 0;
      var offset := GetPreeditOffset(newRunes, oldRunes);
      if offset < |oldRunes| {
        nBackSpace := nBackSpace + |oldRunes| - offset;
      }
      ghost var s1 := s0;
      if isFirstTimeSendingBS && offset < |newRunes| && offset < |oldRunes| && InBrowserList()
         && InputMode() != ShiftLeftForwardingIM {
        SendText(" ");
        nBackSpace := nBackSpace + 1;
        isFirstTimeSendingBS := false;
        s1 := SendTextStep(o, s0, " ").(isFirstTimeSendingBS := false);
      }
      assert SenderState() == s1;
      assert e.nBackSpace == nBackSpace && e.insert == newRunes[offset..];
      SendBackspaceAndNewRunes(nBackSpace, newRunes[offset..]);
    }

    // -------------------------------------------------------------------
    // Key handling in the backspace input modes (engine_backspace.go)
    // -------------------------------------------------------------------

    /**
     * bsProcessKeyEvent: movement keys drop the buffer; in the XTest and
     * surrounding-text modes backspaces first use up the fake-backspace
     * count; an idle engine takes a key directly, otherwise the key is
     * queued for keyPressHandler.
     */
    method BsProcessKeyEvent(keyVal: bv32, keyCode: bv32, state: bv32) returns (handled: bool)
      requires Valid()
      modifies this`nFakeBackSpace, this`isSurroundingTextReady, this`isFirstTimeSendingBS, this`lastKeyWithShift,
               this`keyPressQueue, preeditor
      ensures Valid()
      ensures keyVal in platform.movementKeys ==>
        && !handled && preeditor.composition == [] && nFakeBackSpace == 0 && isSurroundingTextReady
        && isFirstTimeSendingBS == old(isFirstTimeSendingBS) && lastKeyWithShift == old(lastKeyWithShift)
        && keyPressQueue == old(keyPressQueue)
      ensures keyVal !in platform.movementKeys && EditingKey(InputMode(), preeditor.setup, keyVal, state) ==>
        && !handled && isSurroundingTextReady == old(isSurroundingTextReady) && isFirstTimeSendingBS == old(isFirstTimeSendingBS)
        && lastKeyWithShift == old(lastKeyWithShift) && keyPressQueue == old(keyPressQueue)
        && (keyVal == IBusLeft && state & IBusShiftMask != 0 ==> nFakeBackSpace == old(nFakeBackSpace) && unchanged(preeditor))
        && (!(keyVal == IBusLeft && state & IBusShiftMask != 0) && !(IsValidState(state) && CanProcessKeyVal(preeditor.setup, keyVal)) ==>
              preeditor.composition == [] && nFakeBackSpace == 0)
        && (!(keyVal == IBusLeft && state & IBusShiftMask != 0) && IsValidState(state) && CanProcessKeyVal(preeditor.setup, keyVal) ==>
              && (old(nFakeBackSpace) > 0 ==> nFakeBackSpace == old(nFakeBackSpace) - 1 && unchanged(preeditor))
              && (old(nFakeBackSpace) <= 0 ==> nFakeBackSpace == old(nFakeBackSpace))
              && (old(nFakeBackSpace) <= 0 && old(RawKeyLen()) == 0 ==> unchanged(preeditor))
              && (old(nFakeBackSpace) <= 0 && old(RawKeyLen()) > 0 ==>
                    Buffer() == RemoveLastCharStep(preeditor.setup,
                                  if old(ShouldFallback(true)) then RestoreLastWordStep(preeditor.setup, old(Buffer())) else old(Buffer()),
                                  false)))
      ensures keyVal !in platform.movementKeys && !EditingKey(InputMode(), preeditor.setup, keyVal, state) ==>
        && isSurroundingTextReady == old(isSurroundingTextReady) && nFakeBackSpace == old(nFakeBackSpace)
        && (IdleFor(old(keyPressQueue), old(RawKeyLen()), preeditor.setup, keyVal) ==>
              && !handled && keyPressQueue == old(keyPressQueue)
              && lastKeyWithShift == LastKeyWithShift(preeditor.setup, keyVal, state)
              && (CanProcess(preeditor.setup, KeyRune(keyVal)) && IsValidState(state) ==>
                    isFirstTimeSendingBS && Buffer() == ProcessKeyStep(preeditor.setup, old(Buffer()), TypedKey(preeditor.setup, keyVal, state), VietnameseMode))
              && (!(CanProcess(preeditor.setup, KeyRune(keyVal)) && IsValidState(state)) ==>
                    isFirstTimeSendingBS == old(isFirstTimeSendingBS) && unchanged(preeditor)))
        && (!IdleFor(old(keyPressQueue), old(RawKeyLen()), preeditor.setup, keyVal) ==>
              && handled && keyPressQueue == old(keyPressQueue) + [KeyPress(keyVal, keyCode, state)]
              && lastKeyWithShift == old(lastKeyWithShift) && isFirstTimeSendingBS == old(isFirstTimeSendingBS)
              && unchanged(preeditor))
    {
      if keyVal in platform.movementKeys {
        preeditor.Reset();
        ResetFakeBackspace();
        isSurroundingTextReady := true;
        return false;
      }
      if EditingKey(InputMode(), preeditor.setup, keyVal, state) {
        BsEditingKey(keyVal, state);
        return false;
      }
      handled := BsTakeKey(keyVal, keyCode, state);
    }

    /**
     * bsProcessKeyEvent in the XTest and surrounding-text modes, for Shift+Left,
     * a shortcut or unusable key, and backspace.
     */
    method BsEditingKey(keyVal: bv32, state: bv32)
      requires Valid() && EditingKey(InputMode(), preeditor.setup, keyVal, state)
      modifies this`nFakeBackSpace, preeditor
      ensures Valid()
      ensures keyVal == IBusLeft && state & IBusShiftMask != 0 ==> nFakeBackSpace == old(nFakeBackSpace) && unchanged(preeditor)
      ensures !(keyVal == IBusLeft && state & IBusShiftMask != 0) && !(IsValidState(state) && CanProcessKeyVal(preeditor.setup, keyVal)) ==>
        preeditor.composition == [] && nFakeBackSpace == 0
      ensures !(keyVal == IBusLeft && state & IBusShiftMask != 0) && IsValidState(state) && CanProcessKeyVal(preeditor.setup, keyVal) ==>
        && (old(nFakeBackSpace) > 0 ==> nFakeBackSpace == old(nFakeBackSpace) - 1 && unchanged(preeditor))
        && (old(nFakeBackSpace) <= 0 ==> nFakeBackSpace == old(nFakeBackSpace))
        && (old(nFakeBackSpace) <= 0 && old(RawKeyLen()) == 0 ==> unchanged(preeditor))
        && (old(nFakeBackSpace) <= 0 && old(RawKeyLen()) > 0 ==>
              Buffer() == RemoveLastCharStep(preeditor.setup,
                            if old(ShouldFallback(true)) then RestoreLastWordStep(preeditor.setup, old(Buffer())) else old(Buffer()),
                            false))
    {
      if keyVal == IBusLeft && state & IBusShiftMask != 0 {
        return;
      }
      if !IsValidState(state) || !CanProcessKeyVal(preeditor.setup, keyVal) {
        preeditor.Reset();
        ResetFakeBackspace();
        return;
      }
      if nFakeBackSpace > 0 {
        nFakeBackSpace := nFakeBackSpace - 1;
        return;
      } else if RawKeyLen() > 0 {
        if ShouldFallback(true) {
          preeditor.RestoreLastWord();
        }
        preeditor.RemoveLastChar(false);
      }
    }

    /** bsProcessKeyEvent for any other key: an idle engine takes it at once, otherwise it is queued. */
    method BsTakeKey(keyVal: bv32, keyCode: bv32, state: bv32) returns (handled: bool)
      requires Valid()
      modifies this`isFirstTimeSendingBS, this`lastKeyWithShift, this`keyPressQueue, preeditor
      ensures Valid()
      ensures IdleFor(old(keyPressQueue), old(RawKeyLen()), preeditor.setup, keyVal) ==>
        && !handled && keyPressQueue == old(keyPressQueue)
        && lastKeyWithShift == LastKeyWithShift(preeditor.setup, keyVal, state)
        && (CanProcess(preeditor.setup, KeyRune(keyVal)) && IsValidState(state) ==>
              isFirstTimeSendingBS && Buffer() == ProcessKeyStep(preeditor.setup, old(Buffer()), TypedKey(preeditor.setup, keyVal, state), VietnameseMode))
        && (!(CanProcess(preeditor.setup, KeyRune(keyVal)) && IsValidState(state)) ==>
              isFirstTimeSendingBS == old(isFirstTimeSendingBS) && unchanged(preeditor))
      ensures !IdleFor(old(keyPressQueue), old(RawKeyLen()), preeditor.setup, keyVal) ==>
        && handled && keyPressQueue == old(keyPressQueue) + [KeyPress(keyVal, keyCode, state)]
        && lastKeyWithShift == old(lastKeyWithShift) && isFirstTimeSendingBS == old(isFirstTimeSendingBS)
        && unchanged(preeditor)
    {
      var keyRune := KeyRune(keyVal);
      if |keyPressQueue| == 0 && RawKeyLen() == 0 && keyRune !in preeditor.GetInputMethod().appendingKeys {
        UpdateLastKeyWithShift(keyVal, state);
        if preeditor.CanProcessKey(keyRune) && IsValidState(state) {
          isFirstTimeSendingBS := true;
          if state & IBusLockMask != 0 {
            keyRune := ToUpper(preeditor.GetInputMethod().appendingKeys, keyRune);
          }
          preeditor.ProcessKey(keyRune, VietnameseMode);
        }
        return false;
      }
      keyPressQueue := keyPressQueue + [KeyPress(keyVal, keyCode, state)];
      return true;
    }

    /** keyPressHandler, for a backspace key. */
    method BackspaceKeyPress(keyVal: bv32, keyCode: bv32, state: bv32)
      requires Valid() && keyVal == IBusBackSpace
      modifies this`events, this`nFakeBackSpace, this`isFirstTimeSendingBS, preeditor
      ensures Valid()
      ensures Typed(Buffer(), SenderState()) ==
              BackspaceStep(Out(), config.ibFlags, preeditor.setup, old(Buffer()), old(SenderState()), keyVal, keyCode, state)
    {
      ghost var s0 := SenderState();
      if RawKeyLen() > 0 {
        if config.ibFlags & IBautoNonVnRestore == 0 {
          preeditor.RemoveLastChar(false);
          events := events + [ForwardKey(keyVal, keyCode, state)];
          assert SenderState() == Forward(s0, keyVal, keyCode, state);
          return;
        }
        RestoringBackspace(keyVal, keyCode, state);
        return;
      }
      events := events + [ForwardKey(keyVal, keyCode, state)];
      assert SenderState() == Forward(s0, keyVal, keyCode, state);
    }

    /** keyPressHandler's backspace with the restore option on and a non-empty buffer. */
    method RestoringBackspace(keyVal: bv32, keyCode: bv32, state: bv32)
      requires Valid() && keyVal == IBusBackSpace && RawKeyLen() > 0 && config.ibFlags & IBautoNonVnRestore != 0
      modifies this`events, this`nFakeBackSpace, this`isFirstTimeSendingBS, preeditor
      ensures Valid()
      ensures Typed(Buffer(), SenderState()) ==
              BackspaceStep(Out(), config.ibFlags, preeditor.setup, old(Buffer()), old(SenderState()), keyVal, keyCode, state)
    {
      ghost var st, b0 := preeditor.setup, Buffer();
      var oldText := PreeditString();
      assert oldText == PreeditStringOf(config.ibFlags, st, b0.composition);
      preeditor.RemoveLastChar(true);
      SendRestoredEdit(oldText, keyVal, keyCode, state);
    }

    /** The sending half of RestoringBackspace, once the character is removed. */
    method SendRestoredEdit(oldText: string, keyVal: bv32, keyCode: bv32, state: bv32)
      modifies this`events, this`nFakeBackSpace, this`isFirstTimeSendingBS
      ensures SenderState() ==
              RestoredEditStep(Out(), config.ibFlags, preeditor.setup, Buffer(), old(SenderState()), oldText, keyVal, keyCode, state)
    {
      ghost var s0 := SenderState();
      var newText := PreeditString();
      var offset := GetPreeditOffset(newText, oldText);
      if oldText != "" && offset != |newText| {
        UpdatePreviousText(newText, oldText);
        return;
      }
      events := events + [ForwardKey(keyVal, keyCode, state)];
      assert SenderState() == Forward(s0, keyVal, keyCode, state);
    }

    /** keyPressHandler, for a key the composition engine processes. */
    method ProcessableKeyPress(keyVal: bv32, state: bv32)
      requires Valid() && CanProcess(preeditor.setup, KeyRune(keyVal))
      modifies this`events, this`nFakeBackSpace, this`isFirstTimeSendingBS, preeditor
      ensures Valid()
      ensures Typed(Buffer(), SenderState()) ==
              ProcessableStep(Out(), config.ibFlags, preeditor.setup, old(Buffer()), old(SenderState()), keyVal, state)
    {
      ghost var st := preeditor.setup;
      ghost var b0 := Buffer();
      var oldText := PreeditString();
      var keyRune := KeyRune(keyVal);
      if state & IBusLockMask != 0 {
        keyRune := ToUpper(preeditor.GetInputMethod().appendingKeys, keyRune);
      }
      ghost var o, s0 := Out(), SenderState();
      assert oldText == PreeditStringOf(config.ibFlags, st, b0.composition);
      assert keyRune == TypedKey(st, keyVal, state);
      preeditor.ProcessKey(keyRune, TelexInputMode(config.ibFlags, preeditor.setup, preeditor.composition));
      ghost var mid := Buffer();
      assert mid == ProcessKeyStep(st, b0, keyRune, TelexInputMode(config.ibFlags, st, b0.composition));
      SendAfterKey(keyRune, oldText);
      assert Typed(Buffer(), SenderState()) == SentAfterKeyStep(o, config.ibFlags, st, mid, s0, keyRune, oldText);
    }

    /** The rest of ProcessableKeyPress, once `keyRune` has been processed; `oldText` is the text shown before it. */
    method SendAfterKey(keyRune: Rune, oldText: string)
      requires Valid()
      modifies this`events, this`nFakeBackSpace, this`isFirstTimeSendingBS, preeditor
      ensures Valid()
      ensures Typed(Buffer(), SenderState()) ==
              SentAfterKeyStep(Out(), config.ibFlags, preeditor.setup, old(Buffer()), old(SenderState()), keyRune, oldText)
    {
      ghost var o, ibFlags, st, b0, s0 := Out(), config.ibFlags, preeditor.setup, Buffer(), SenderState();
      var outcome := AppendingKeyOutcome(config.ibFlags, preeditor.setup, preeditor.composition, keyRune);
      match outcome
      case WordEndsWithKey(fullSeq) =>
        UpdatePreviousText(fullSeq, oldText);
        ghost var s1 := SenderState();
        assert s1 == UpdatePreviousTextStep(o, s0, fullSeq, oldText);
        preeditor.Reset();
        assert SenderState() == s1 && Buffer() == Composed([], b0.nextId);
        assert Typed(Composed([], b0.nextId), s1) == SentAfterKeyStep(o, ibFlags, st, b0, s0, keyRune, oldText);
      case KeyEndsPreedit =>
        SendText(RuneString(keyRune));
        ghost var s1 := SenderState();
        assert s1 == SendTextStep(o, s0, RuneString(keyRune));
        preeditor.Reset();
        assert SenderState() == s1 && Buffer() == Composed([], b0.nextId);
        assert Typed(Composed([], b0.nextId), s1) == SentAfterKeyStep(o, ibFlags, st, b0, s0, keyRune, oldText);
      case KeepComposing =>
        var s := PreeditString();
        assert s == PreeditStringOf(ibFlags, st, b0.composition);
        UpdatePreviousText(s, oldText);
        assert SenderState() == UpdatePreviousTextStep(o, s0, s, oldText) && Buffer() == b0;
        assert Typed(b0, SenderState()) == SentAfterKeyStep(o, ibFlags, st, b0, s0, keyRune, oldText);
    }

    /** keyPressHandler, for a word-break key the composition engine does not process. */
    method WordBreakKeyPress(keyVal: bv32)
      requires Valid()
      modifies this`events, this`nFakeBackSpace, this`isFirstTimeSendingBS, preeditor
      ensures Valid()
      ensures Typed(Buffer(), SenderState()) ==
              WordBreakStep(Out(), config.ibFlags, preeditor.setup, old(Buffer()), old(SenderState()), KeyRune(keyVal))
    {
      ghost var o, ibFlags, st, b0, s0 := Out(), config.ibFlags, preeditor.setup, Buffer(), SenderState();
      var oldText := PreeditString();
      var keyRune := KeyRune(keyVal);
      if preeditor.setup.helpers.hasAnyVietnameseRune(oldText) && MustFallbackOn(config.ibFlags, preeditor.setup, preeditor.composition) {
        RetypeWord(keyRune, oldText);
      } else {
        TypeKeyInEnglish(keyRune);
      }
      assert Out() == o;
    }

    /** keyPressHandler's plain path for a word break: the key is added in English and sent. */
    method TypeKeyInEnglish(keyRune: Rune)
      requires Valid()
      modifies this`events, preeditor
      ensures Valid()
      ensures Buffer() == ProcessKeyStep(preeditor.setup, old(Buffer()), keyRune, EnglishMode)
      ensures SenderState() == SendTextStep(Out(), old(SenderState()), RuneString(keyRune))
    {
      ghost var o, st, b0, s0 := Out(), preeditor.setup, Buffer(), SenderState();
      preeditor.ProcessKey(keyRune, EnglishMode);
      ghost var b1 := Buffer();
      assert b1 == ProcessKeyStep(st, b0, keyRune, EnglishMode);
      SendText(RuneString(keyRune));
      assert SenderState() == SendTextStep(o, s0, RuneString(keyRune)) && Buffer() == b1;
      assert Out() == o;
    }

    /** keyPressHandler's restore path for a word break: the word as typed replaces the shown text. */
    method RetypeWord(keyRune: Rune, oldText: string)
      requires Valid()
      modifies this`events, this`nFakeBackSpace, this`isFirstTimeSendingBS, preeditor
      ensures Valid()
      ensures Typed(Buffer(), SenderState()) == RetypeStep(Out(), preeditor.setup, old(Buffer()), old(SenderState()), keyRune, oldText)
    {
      ghost var o, st, b0, s0 := Out(), preeditor.setup, Buffer(), SenderState();
      preeditor.RestoreLastWord();
      ghost var restored := Buffer();
      assert restored == RestoreLastWordStep(st, b0);
      var newText := preeditor.GetProcessedString(EnglishMode) + RuneString(keyRune);
      assert newText == ProcessedString(st, restored.composition, EnglishMode) + RuneString(keyRune);
      UpdatePreviousText(newText, oldText);
      ghost var s1 := SenderState();
      assert s1 == UpdatePreviousTextStep(o, s0, newText, oldText);
      preeditor.ProcessKey(keyRune, EnglishMode);
      assert SenderState() == s1 && Buffer() == ProcessKeyStep(st, restored, keyRune, EnglishMode);
      assert Out() == o;
    }

    /**
     * keyPressHandler: handles a queued key in a backspace input mode by
     * editing the text the application already shows.
     */
    method KeyPressHandler(keyVal: bv32, keyCode: bv32, state: bv32)
      requires Valid()
      modifies this`events, this`nFakeBackSpace, this`isFirstTimeSendingBS, this`lastKeyWithShift, this`keyPressDelay, preeditor
      ensures Valid()
      ensures Typed(Buffer(), SenderState()) ==
              KeyPressStep(Out(), config.ibFlags, preeditor.setup, old(Buffer()), old(SenderState()), keyVal, keyCode, state)
      ensures lastKeyWithShift == LastKeyWithShift(preeditor.setup, keyVal, state)
      ensures keyPressDelay == (if old(keyPressDelay) > 0 then 0 else old(keyPressDelay))
    {
      if keyPressDelay > 0 {
        keyPressDelay := 0;
      }
      DispatchKeyPress(keyVal, keyCode, state);
      UpdateLastKeyWithShift(keyVal, state);
    }

    /** keyPressHandler's branches, from the shortcut check to the fallback. */
    method DispatchKeyPress(keyVal: bv32, keyCode: bv32, state: bv32)
      requires Valid()
      modifies this`events, this`nFakeBackSpace, this`isFirstTimeSendingBS, preeditor
      ensures Valid()
      ensures Typed(Buffer(), SenderState()) ==
              KeyPressStep(Out(), config.ibFlags, preeditor.setup, old(Buffer()), old(SenderState()), keyVal, keyCode, state)
    {
      ghost var o, st, b0, s0 := Out(), preeditor.setup, Buffer(), SenderState();
      ghost var want := KeyPressStep(o, config.ibFlags, st, b0, s0, keyVal, keyCode, state);
      if !IsValidState(state) {
        preeditor.Reset();
        events := events + [ForwardKey(keyVal, keyCode, state)];
        assert SenderState() == Forward(s0, keyVal, keyCode, state) && Buffer() == Composed([], b0.nextId);
        assert Typed(Buffer(), SenderState()) == want;
      } else if keyVal == IBusBackSpace {
        BackspaceKeyPress(keyVal, keyCode, state);
        assert Typed(Buffer(), SenderState()) == BackspaceStep(o, config.ibFlags, st, b0, s0, keyVal, keyCode, state);
        assert Typed(Buffer(), SenderState()) == want;
      } else if keyVal == IBusTab {
        events := events + [ForwardKey(keyVal, keyCode, state)];
        preeditor.Reset();
        assert SenderState() == Forward(s0, keyVal, keyCode, state) && Buffer() == Composed([], b0.nextId);
        assert Typed(Buffer(), SenderState()) == want;
      } else {
        DispatchTypingKey(keyVal, keyCode, state);
        assert Typed(Buffer(), SenderState()) == TypingKeyStep(o, config.ibFlags, st, b0, s0, keyVal, keyCode, state);
        assert Typed(Buffer(), SenderState()) == want;
      }
      assert Out() == o;
    }

    /** keyPressHandler's branches for a processable key, a word break and any other key. */
    method DispatchTypingKey(keyVal: bv32, keyCode: bv32, state: bv32)
      requires Valid()
      modifies this`events, this`nFakeBackSpace, this`isFirstTimeSendingBS, preeditor
      ensures Valid()
      ensures Typed(Buffer(), SenderState()) ==
              TypingKeyStep(Out(), config.ibFlags, preeditor.setup, old(Buffer()), old(SenderState()), keyVal, keyCode, state)
    {
      ghost var o, st, b0, s0 := Out(), preeditor.setup, Buffer(), SenderState();
      ghost var want := TypingKeyStep(o, config.ibFlags, st, b0, s0, keyVal, keyCode, state);
      if preeditor.CanProcessKey(KeyRune(keyVal)) {
        ProcessableKeyPress(keyVal, state);
        assert Typed(Buffer(), SenderState()) == ProcessableStep(o, config.ibFlags, st, b0, s0, keyVal, state);
        assert Typed(Buffer(), SenderState()) == want;
      } else if preeditor.setup.helpers.isWordBreakSymbol(KeyRune(keyVal)) {
        WordBreakKeyPress(keyVal);
        assert Typed(Buffer(), SenderState()) == WordBreakStep(o, config.ibFlags, st, b0, s0, KeyRune(keyVal));
        assert Typed(Buffer(), SenderState()) == want;
      } else {
        preeditor.Reset();
        events := events + [ForwardKey(keyVal, keyCode, state)];
        assert SenderState() == Forward(s0, keyVal, keyCode, state) && Buffer() == Composed([], b0.nextId);
        assert Typed(Buffer(), SenderState()) == want;
      }
      assert Out() == o;
    }

    /** One step of keyPressCapturing: the oldest queued key goes to keyPressHandler. */
    method HandleQueuedKey()
      requires Valid() && |keyPressQueue| > 0
      modifies this`events, this`nFakeBackSpace, this`isFirstTimeSendingBS, this`lastKeyWithShift, this`keyPressDelay,
               this`keyPressQueue, preeditor
      ensures Valid()
      ensures keyPressQueue == old(keyPressQueue[1..])
      ensures var k := old(keyPressQueue[0]);
        && Typed(Buffer(), SenderState()) ==
                KeyPressStep(Out(), config.ibFlags, preeditor.setup, old(Buffer()), old(SenderState()), k.keyVal, k.keyCode, k.state)
        && lastKeyWithShift == LastKeyWithShift(preeditor.setup, k.keyVal, k.state)
    {
      var k := keyPressQueue[0];
      keyPressQueue := keyPressQueue[1..];
      KeyPressHandler(k.keyVal, k.keyCode, k.state);
    }

    // -------------------------------------------------------------------
    // Key handling in the preedit input mode (engine_preedit.go)
    // -------------------------------------------------------------------

    /**
     * preeditProcessKeyEvent: keys the engine cannot use commit the buffer
     * and pass through; backspace edits the buffer; Tab and word breaks
     * commit; other keys extend the preedit, except that an appending key
     * that ends the word commits it.
     */
    method PreeditProcessKeyEvent(keyVal: bv32, keyCode: bv32, state: bv32) returns (handled: bool)
      requires Valid()
      modifies this`events, this`lastKeyWithShift, preeditor
      ensures Valid()
      ensures handled == PreeditHandles(config, preeditor.setup, old(Buffer()), keyVal, state)
      ensures Shown(Buffer(), events) == PreeditKeyStep(config, preeditor.setup, old(Buffer()), old(events), keyVal, state)
      ensures lastKeyWithShift == LastKeyWithShift(preeditor.setup, keyVal, state)
    {
      ghost var st, b0, ev0 := preeditor.setup, Buffer(), events;
      handled := DispatchPreeditKey(keyVal, state);
      ghost var b1, ev1 := Buffer(), events;
      assert handled == PreeditHandles(config, st, b0, keyVal, state) && Shown(b1, ev1) == PreeditKeyStep(config, st, b0, ev0, keyVal, state);
      UpdateLastKeyWithShift(keyVal, state);
      assert Buffer() == b1 && events == ev1;
    }

    /** preeditProcessKeyEvent's branches. */
    method DispatchPreeditKey(keyVal: bv32, state: bv32) returns (handled: bool)
      requires Valid()
      modifies this`events, preeditor
      ensures Valid()
      ensures handled == PreeditHandles(config, preeditor.setup, old(Buffer()), keyVal, state)
      ensures Shown(Buffer(), events) == PreeditKeyStep(config, preeditor.setup, old(Buffer()), old(events), keyVal, state)
    {
      ghost var st, b0, ev0 := preeditor.setup, Buffer(), events;
      ghost var want := PreeditKeyStep(config, st, b0, ev0, keyVal, state);
      var rawKeyLen := RawKeyLen();
      var keyRune := KeyRune(keyVal);
      if !IsValidState(state) || !CanProcessKeyVal(preeditor.setup, keyVal) ||
         (rawKeyLen == 0 && !preeditor.CanProcessKey(keyRune)) {
        if rawKeyLen > 0 {
          events := events + [HidePreedit];
          CommitText(PreeditString());
          preeditor.Reset();
        }
        handled := false;
        assert Shown(Buffer(), events) == want;
      } else if keyVal == IBusBackSpace {
        if rawKeyLen > 0 {
          preeditor.RemoveLastChar(true);
          UpdatePreedit(PreeditString());
          handled := true;
        } else {
          handled := false;
        }
        assert Shown(Buffer(), events) == want;
      } else if keyVal == IBusTab {
        var oldText := PreeditString();
        CommitPreedit(ComposedStringOf(config.ibFlags, preeditor.setup, preeditor.composition, oldText));
        handled := false;
        assert Shown(Buffer(), events) == want;
      } else {
        handled := PreeditTypingKey(keyVal, state);
        assert Shown(Buffer(), events) == PreeditTypingStep(config, st, b0, ev0, keyVal, state);
        assert Shown(Buffer(), events) == want;
      }
    }

    /** preeditProcessKeyEvent's branches for a processable key, a word break and any other key. */
    method PreeditTypingKey(keyVal: bv32, state: bv32) returns (handled: bool)
      requires Valid()
      modifies this`events, preeditor
      ensures Valid()
      ensures handled == (CanProcess(preeditor.setup, KeyRune(keyVal)) || preeditor.setup.helpers.isWordBreakSymbol(KeyRune(keyVal)))
      ensures Shown(Buffer(), events) == PreeditTypingStep(config, preeditor.setup, old(Buffer()), old(events), keyVal, state)
    {
      ghost var st, b0, ev0 := preeditor.setup, Buffer(), events;
      ghost var want := PreeditTypingStep(config, st, b0, ev0, keyVal, state);
      var keyRune := KeyRune(keyVal);
      var oldText := PreeditString();
      assert oldText == PreeditStringOf(config.ibFlags, st, b0.composition);
      if preeditor.CanProcessKey(keyRune) {
        PreeditProcessableKey(keyVal, state);
        handled := true;
        assert Shown(Buffer(), events) == PreeditProcessStep(config, st, b0, ev0, keyVal, state);
        assert Shown(Buffer(), events) == want;
      } else if preeditor.setup.helpers.isWordBreakSymbol(keyRune) {
        CommitPreedit(ComposedStringOf(config.ibFlags, preeditor.setup, preeditor.composition, oldText) + RuneString(keyRune));
        handled := true;
        assert Shown(Buffer(), events) == want;
      } else {
        CommitPreedit(oldText);
        handled := false;
        assert Shown(Buffer(), events) == want;
      }
    }

    /** preeditProcessKeyEvent, for a key the composition engine processes. */
    method PreeditProcessableKey(keyVal: bv32, state: bv32)
      requires Valid() && CanProcess(preeditor.setup, KeyRune(keyVal))
      modifies this`events, preeditor
      ensures Valid()
      ensures Shown(Buffer(), events) == PreeditProcessStep(config, preeditor.setup, old(Buffer()), old(events), keyVal, state)
    {
      ghost var st := preeditor.setup;
      ghost var b0 := Buffer();
      var oldText := PreeditString();
      var keyRune := KeyRune(keyVal);
      if state & IBusLockMask != 0 {
        keyRune := ToUpper(preeditor.GetInputMethod().appendingKeys, keyRune);
      }
      ghost var ev0 := events;
      assert oldText == PreeditStringOf(config.ibFlags, st, b0.composition);
      assert keyRune == TypedKey(st, keyVal, state);
      preeditor.ProcessKey(keyRune, TelexInputMode(config.ibFlags, preeditor.setup, preeditor.composition));
      ghost var mid := Buffer();
      assert mid == ProcessKeyStep(st, b0, keyRune, TelexInputMode(config.ibFlags, st, b0.composition));
      PreeditAfterKey(keyRune, oldText);
      assert Shown(Buffer(), events) == ShownAfterKeyStep(config, st, mid, ev0, keyRune, oldText);
    }

    /** The rest of PreeditProcessableKey, once `keyRune` has been processed; `oldText` is the preedit before it. */
    method PreeditAfterKey(keyRune: Rune, oldText: string)
      requires Valid()
      modifies this`events, preeditor
      ensures Valid()
      ensures Shown(Buffer(), events) == ShownAfterKeyStep(config, preeditor.setup, old(Buffer()), old(events), keyRune, oldText)
    {
      ghost var cfg, st, b0, ev0 := config, preeditor.setup, Buffer(), events;
      var outcome := AppendingKeyOutcome(config.ibFlags, preeditor.setup, preeditor.composition, keyRune);
      match outcome
      case WordEndsWithKey(fullSeq) =>
        CommitPreedit(fullSeq);
        assert Shown(Buffer(), events) == ShownAfterKeyStep(cfg, st, b0, ev0, keyRune, oldText);
      case KeyEndsPreedit =>
        CommitPreedit(oldText + RuneString(keyRune));
        assert Shown(Buffer(), events) == ShownAfterKeyStep(cfg, st, b0, ev0, keyRune, oldText);
      case KeepComposing =>
        var s := PreeditString();
        UpdatePreedit(s);
        assert Shown(Buffer(), events) == ShownAfterKeyStep(cfg, st, b0, ev0, keyRune, oldText);
    }

    // -------------------------------------------------------------------
    // The bus methods (engine.go)
    // -------------------------------------------------------------------

    /** ltProcessKeyEvent: keys while the input-mode lookup table is open. */
    method LtProcessKeyEvent(keyVal: bv32, keyCode: bv32, state: bv32, focusClass: string, navCursor: uint32, cursorAccepted: bool)
      returns (handled: bool)
      modifies this`config, this`events, this`isInputModeLTOpened, this`lookupCursorPos
      ensures focusClass == "" ==> handled && unchanged(this)
      ensures focusClass != "" && keyVal == IBusOpenLookupTable ==>
        && !handled && !isInputModeLTOpened && config == old(config) && lookupCursorPos == old(lookupCursorPos)
        && events == old(events) + CloseEvents
      ensures focusClass != "" && keyVal in {IBusLeft, IBusUp, IBusRight, IBusDown, IBusPageUp, IBusPageDown} ==>
        && handled && config == old(config) && isInputModeLTOpened == old(isInputModeLTOpened)
        && (old(isInputModeLTOpened) ==> lookupCursorPos == navCursor && events == old(events) + [MoveLookupCursor(keyVal)])
        && (!old(isInputModeLTOpened) ==> unchanged(this))
      ensures focusClass != "" && keyVal == IBusReturn ==>
        && handled && !isInputModeLTOpened && lookupCursorPos == old(lookupCursorPos)
        && config == old(config).(inputModeMapping := old(config.inputModeMapping)[wmClasses := CandidateMode(lookupCursorPos)])
        && events == old(events) + SaveEvents + CloseEvents
      ensures focusClass != "" && DigitCursor(KeyRune(keyVal)).Some? ==>
        var pos := DigitCursor(KeyRune(keyVal)).value;
        && !isInputModeLTOpened
        && (cursorAccepted ==>
              && handled && lookupCursorPos == pos
              && config == old(config).(inputModeMapping := old(config.inputModeMapping)[wmClasses := CandidateMode(pos)])
              && events == old(events) + SaveEvents + CloseEvents)
        && (!cursorAccepted ==>
              && !handled && lookupCursorPos == old(lookupCursorPos) && config == old(config)
              && events == old(events) + CloseEvents + CloseEvents)
      ensures focusClass != "" && keyVal !in {IBusOpenLookupTable, IBusLeft, IBusUp, IBusRight, IBusDown, IBusPageUp, IBusPageDown, IBusReturn}
              && DigitCursor(KeyRune(keyVal)).None? ==>
        && !handled && !isInputModeLTOpened && config == old(config) && lookupCursorPos == old(lookupCursorPos)
        && events == old(events) + CloseEvents
    {
      if focusClass == "" {
        return true;
      }
      if keyVal == IBusOpenLookupTable {
        CloseInputModeCandidates();
        return false;
      }
      var keyRune := KeyRune(keyVal);
      if keyVal in {IBusLeft, IBusUp, IBusRight, IBusDown, IBusPageUp, IBusPageDown} {
        if isInputModeLTOpened {
          lookupCursorPos := navCursor;
          events := events + [MoveLookupCursor(keyVal)];
        }
        return true;
      }
      if keyVal == IBusReturn {
        CommitInputModeCandidate();
        CloseInputModeCandidates();
        return true;
      }
      var pos := DigitCursor(keyRune);
      if pos.Some? {
        if cursorAccepted {
          lookupCursorPos := pos.value;
          CommitInputModeCandidate();
          CloseInputModeCandidates();
          return true;
        } else {
          CloseInputModeCandidates();
        }
      }
      CloseInputModeCandidates();
      return false;
    }

    /**
     * ProcessKeyEvent: hands the key to the handler that Route picks (the
     * handlers' own contracts say what each does).
     */
    method ProcessKeyEvent(keyVal: bv32, keyCode: bv32, state: bv32, focusClass: string, navCursor: uint32, cursorAccepted: bool)
      returns (handled: bool)
      requires Valid()
      modifies this`config, this`events, this`isInputModeLTOpened, this`lookupCursorPos, this`nFakeBackSpace,
               this`isSurroundingTextReady, this`isFirstTimeSendingBS, this`lastKeyWithShift, this`keyPressQueue, preeditor
      ensures Valid()
      ensures var h := old(Route(IsIgnoredKey(keyVal, state, InputMode(), isInputModeLTOpened), isInputModeLTOpened, InBackspaceList()));
        && (h == Ignore ==> !handled && unchanged(this) && unchanged(preeditor))
        && (h == LookupTableHandler ==>
              && unchanged(preeditor) && nFakeBackSpace == old(nFakeBackSpace) && isSurroundingTextReady == old(isSurroundingTextReady)
              && isFirstTimeSendingBS == old(isFirstTimeSendingBS) && lastKeyWithShift == old(lastKeyWithShift)
              && keyPressQueue == old(keyPressQueue))
        && (h == BackspaceHandler ==>
              && config == old(config) && events == old(events) && isInputModeLTOpened == old(isInputModeLTOpened)
              && lookupCursorPos == old(lookupCursorPos))
        && (h == PreeditHandler ==>
              && config == old(config) && isInputModeLTOpened == old(isInputModeLTOpened) && lookupCursorPos == old(lookupCursorPos)
              && nFakeBackSpace == old(nFakeBackSpace) && isSurroundingTextReady == old(isSurroundingTextReady)
              && isFirstTimeSendingBS == old(isFirstTimeSendingBS) && keyPressQueue == old(keyPressQueue)
              && lastKeyWithShift == LastKeyWithShift(preeditor.setup, keyVal, state))
    {
      ghost var h := Route(IsIgnoredKey(keyVal, state, InputMode(), isInputModeLTOpened), isInputModeLTOpened, InBackspaceList());
      if IsIgnoredKey(keyVal, state, InputMode(), isInputModeLTOpened) {
        assert h == Ignore;
        return false;
      }
      if isInputModeLTOpened {
        assert h == LookupTableHandler;
        handled := LtProcessKeyEvent(keyVal, keyCode, state, focusClass, navCursor, cursorAccepted);
        return;
      }
      var inBackspaceList := InBackspaceWhiteList();
      if inBackspaceList {
        assert h == BackspaceHandler;
        handled := BsProcessKeyEvent(keyVal, keyCode, state);
        return;
      }
      assert h == PreeditHandler;
      handled := PreeditProcessKeyEvent(keyVal, keyCode, state);
    }

    /** FocusIn: the buffer and the fake-backspace count are reset only when the window class changed. */
    method FocusIn(focusClass: string)
      requires Valid()
      modifies this`wmClasses, this`events, this`nFakeBackSpace, preeditor
      ensures Valid()
      ensures wmClasses == focusClass
      ensures old(wmClasses) == focusClass ==>
        && events == old(events) + [RegisterProperties, RequireSurroundingText]
        && nFakeBackSpace == old(nFakeBackSpace) && unchanged(preeditor)
      ensures old(wmClasses) != focusClass ==>
        && nFakeBackSpace == 0 && preeditor.nextId == old(preeditor.nextId)
        && (old(RawKeyLen()) == 0 ==> unchanged(preeditor) && events == old(events) + [RegisterProperties, RequireSurroundingText])
        && (old(RawKeyLen()) != 0 ==> preeditor.composition == [])
        && (old(RawKeyLen()) != 0 && InputMode() == PreeditIM ==>
              events == old(events) + [RegisterProperties, RequireSurroundingText]
                                    + CommitEvents(config.outputCharset, old(PreeditString())) + [HidePreedit])
        && (old(RawKeyLen()) != 0 && InputMode() != PreeditIM ==>
              events == old(events) + [RegisterProperties, RequireSurroundingText])
    {
      var oldWmClasses := wmClasses;
      wmClasses := focusClass;
      events := events + [RegisterProperties, RequireSurroundingText];
      if oldWmClasses != wmClasses {
        ResetBuffer();
        ResetFakeBackspace();
      }
    }

    /** Reset: in preedit mode the preedit is committed. */
    method Reset()
      requires Valid()
      modifies this`events, preeditor
      ensures Valid()
      ensures InputMode() == PreeditIM ==>
        && events == old(events) + CommitEvents(config.outputCharset, old(PreeditString())) + [HidePreedit]
        && preeditor.composition == [] && preeditor.nextId == old(preeditor.nextId)
      ensures InputMode() != PreeditIM ==> events == old(events) && unchanged(preeditor)
    {
      if InputMode() == PreeditIM {
        CommitPreedit(PreeditString());
      }
    }

    method Enable()
      modifies this`events
      ensures events == old(events) + [RequireSurroundingText]
    {
      events := events + [RequireSurroundingText];
    }

    /**
     * SetSurroundingText: once after a mouse click, in a backspace mode, the
     * text before the cursor is loaded into the buffer (see ReplayInOrder).
     */
    method SetSurroundingText(text: string, cursorPos: uint32)
      requires Valid()
      modifies this`isSurroundingTextReady, preeditor
      ensures Valid()
      ensures !isSurroundingTextReady
      ensures !old(isSurroundingTextReady) ==> unchanged(preeditor)
      ensures old(isSurroundingTextReady) && (!InBackspaceList() || |text| < cursorPos as int) ==> unchanged(preeditor)
      ensures old(isSurroundingTextReady) && InBackspaceList() && cursorPos as int <= |text| ==>
        && Buffer() == ReplayStep(preeditor.setup, Composed([], old(preeditor.nextId)), text[..cursorPos])
        && |preeditor.composition| == cursorPos as int
        && forall i :: 0 <= i < cursorPos as int ==>
             preeditor.composition[i].rule == Rule(preeditor.setup.helpers.toLower(Sanitize(preeditor.setup, text[i]) as int), Appending)
    {
      if !isSurroundingTextReady {
        return;
      }
      var inBackspaceList := InBackspaceWhiteList();
      if inBackspaceList {
        var s := text;
        if |s| < cursorPos as int {
          isSurroundingTextReady := false;
          return;
        }
        var cs := s[..cursorPos];
        ghost var original := cs;
        preeditor.Reset();
        ghost var start := preeditor.State();
        var i := |cs|;
        while i > 0
          invariant 0 <= i <= |cs| == |original|
          invariant cs[..i] == original[..i]
          invariant preeditor.Valid()
          invariant preeditor.State() == ReplayStep(preeditor.setup, start, original[i..])
          decreases i
        {
          i := i - 1;
          if preeditor.setup.helpers.isPunctuationMark(cs[i] as int) && preeditor.CanProcessKey(cs[i] as int) {
            cs := cs[i := ' '];
          }
          assert cs[i] == Sanitize(preeditor.setup, original[i]) by {
            assert original[i] == original[..i + 1][i];
          }
          assert original[i..][1..] == original[i + 1..];
          preeditor.ProcessKey(cs[i] as int, EnglishMode | InReverseOrder);
        }
        assert original[0..] == original;
        ReplayInOrder(preeditor.setup, start, original);
      }
      isSurroundingTextReady := false;
    }

    /** CandidateClicked: a click on an accepted candidate records it as the window's mode. */
    method CandidateClicked(index: uint32, cursorAccepted: bool)
      modifies this`config, this`events, this`isInputModeLTOpened, this`lookupCursorPos
      ensures !(old(isInputModeLTOpened) && cursorAccepted) ==> unchanged(this)
      ensures old(isInputModeLTOpened) && cursorAccepted ==>
        && lookupCursorPos == index && !isInputModeLTOpened
        && config == old(config).(inputModeMapping := old(config.inputModeMapping)[wmClasses := CandidateMode(index)])
        && events == old(events) + SaveEvents + CloseEvents
    {
      if isInputModeLTOpened && cursorAccepted {
        lookupCursorPos := index;
        CommitInputModeCandidate();
        CloseInputModeCandidates();
      }
    }

    method SetCapabilities(cap: bv32)
      modifies this`capabilities
      ensures capabilities == cap
    {
      capabilities := cap;
    }

    /** PropertyActivate's updates of the configuration for a property other than About and Configuration. */
    method UpdateProperty(propName: string, checked: bool)
      modifies this`config, this`events
      ensures config == ActivatedConfig(platform, old(config), propName, checked)
      ensures events == old(events) + MouseEvents(propName, checked)
    {
      ghost var c0 := config;
      if propName == PropKeyStdToneStyle {
        config := config.(flags := WithBit(config.flags, EstdToneStyle, checked));
      }
      ghost var c1 := config;
      assert c1 == ToneStyleStep(c0, propName, checked);
      if propName == PropKeyMouseCapturing {
        config := config.(ibFlags := WithBit(config.ibFlags, IBmouseCapturing, checked));
        if checked {
          events := events + [StartMouseCapturing];
        } else {
          events := events + [StopMouseCapturing];
        }
      }
      ghost var c2 := config;
      assert c2 == MouseCapturingStep(c1, propName, checked);
      if propName in platform.charsetOfPropKey && platform.charsetOfPropKey[propName] in platform.validCharsets && checked {
        config := config.(outputCharset := platform.charsetOfPropKey[propName]);
      }
      if propName in config.inputMethodDefinitions && checked {
        config := config.(inputMethod := propName);
      }
      assert config == ChoiceStep(platform, c2, propName, checked);
    }

    /**
     * PropertyActivate: About and Configuration only open a document; any
     * other property updates the configuration it names, saves it (unless
     * the name is "-") and rebuilds the composition engine.
     */
    method PropertyActivate(propName: string, propState: bv32)
      requires Valid()
      modifies this`config, this`events, this`preeditor
      ensures Valid()
      ensures propName == PropKeyAbout ==>
        config == old(config) && preeditor == old(preeditor) && events == old(events) + [OpenHomePage]
      ensures propName == PropKeyConfiguration ==>
        config == old(config) && preeditor == old(preeditor) && events == old(events) + [OpenConfigFile]
      ensures propName != PropKeyAbout && propName != PropKeyConfiguration ==>
        var checked := propState == PropStateChecked;
        && config == ActivatedConfig(platform, old(config), propName, checked)
        && events == old(events) + MouseEvents(propName, checked) + (if propName != "-" then [SaveConfig] else [])
                                 + [RegisterProperties]
        && fresh(preeditor) && preeditor.composition == []
        && preeditor.setup == Setup(helpers, helpers.parseInputMethod(config.inputMethodDefinitions, config.inputMethod), config.flags)
    {
      if propName == PropKeyAbout {
        events := events + [OpenHomePage];
        return;
      }
      if propName == PropKeyConfiguration {
        events := events + [OpenConfigFile];
        return;
      }
      var checked := propState == PropStateChecked;
      UpdateProperty(propName, checked);
      if propName != "-" {
        events := events + [SaveConfig];
      }
      var inputMethod := helpers.parseInputMethod(config.inputMethodDefinitions, config.inputMethod);
      preeditor := new TelexEngine(inputMethod, config.flags, helpers);
      events := events + [RegisterProperties];
    }

    // -------------------------------------------------------------------
    // Mouse callbacks installed by init (engine_utils.go)
    // -------------------------------------------------------------------

    /** OnMouseMove: in preedit mode a non-empty preedit is committed. */
    method MouseMove()
      requires Valid()
      modifies this`events, preeditor
      ensures Valid()
      ensures InputMode() == PreeditIM && old(RawKeyLen()) != 0 ==>
        && events == old(events) + CommitEvents(config.outputCharset, old(PreeditString())) + [HidePreedit]
        && preeditor.composition == []
      ensures !(InputMode() == PreeditIM && old(RawKeyLen()) != 0) ==> events == old(events) && unchanged(preeditor)
    {
      if InputMode() == PreeditIM {
        if RawKeyLen() == 0 {
          return;
        }
        CommitPreedit(PreeditString());
      }
    }

    /**
     * OnMouseClick: the buffer and the fake-backspace count are reset; a
     * client with surrounding text is asked for it by a fake Shift_R.
     */
    method MouseClick()
      requires Valid()
      modifies this`events, this`nFakeBackSpace, this`keyPressDelay, this`isSurroundingTextReady, preeditor
      ensures Valid()
      ensures nFakeBackSpace == 0
      ensures old(RawKeyLen()) != 0 ==> preeditor.composition == []
      ensures old(RawKeyLen()) == 0 ==> unchanged(preeditor)
      ensures capabilities & IBusCapSurroundingText != 0 ==>
        && keyPressDelay == 100 && isSurroundingTextReady && |events| > 0 && events[|events| - 1] == XTestShiftR
      ensures capabilities & IBusCapSurroundingText == 0 ==>
        keyPressDelay == 10 && isSurroundingTextReady == old(isSurroundingTextReady)
    {
      ResetFakeBackspace();
      ResetBuffer();
      keyPressDelay := 10;
      if capabilities & IBusCapSurroundingText != 0 {
        events := events + [XTestShiftR];
        isSurroundingTextReady := true;
        keyPressDelay := 10 * 10;
      }
    }
  }
}
