# ibus-telex in Dafny

A model of the core of ibus-telex. ibus-telex is a Vietnamese Telex input-method engine for IBus, written in Go.

The engine receives key events from the input-method bus and feeds them to a composition engine, the "preeditor". The preeditor turns keystrokes into a sequence of transformation records: appended letters, and marks or tones that target earlier letters. The engine then shows the result to the focused application in one of two ways:

- **Preedit mode:** as an underlined preedit, committed when the word ends.
- **Backspace input modes:** by editing text the application already shows. The engine sends backspaces back to the common prefix of the old and the new text, then types the rest. Depending on the mode, the backspaces are fake XTest backspaces, a surrounding-text deletion, forwarded backspaces or Shift+Left selections.

The model has one module per source file:

| module | file | what it holds |
|---|---|---|
| `Telex` | `telex.dfy` | The composition engine (`TelexEngine`, src/core/telex.go). |
| `InputMethodDef` | `input_method_def.dfy` | The built-in Telex definition and its copy. |
| `Encoder` | `encoder.dfy` | The identity output encoder. src/core/encoder.go and src/github.com/andodevel/telex-core/encoder.go are identical, and both map to it. |
| `IBusConsts` | `ibus_consts.dfy` | Key symbols, modifier masks, the configuration and the event log. |
| `EngineUtils` | `engine_utils.dfy` | The key and input-mode decisions of src/engine/engine_utils.go. |
| `EnginePreedit` | `engine_preedit.dfy` | The fallback-to-English decisions and the preedit and commit events of src/ibus-telex/engine_preedit.go. |
| `EngineBackspace` | `engine_backspace.dfy` | The text difference and the backspace and typing events of src/engine/engine_backspace.go. |
| `IBusEngine` | `engine.dfy` | The engine object, class `IBusTelex`, and the functions that say what one key does to it. src/engine/engine.go and src/ibus-telex/engine.go are the same code under two type names (`IBusTelex` and `IBusandodevel`). Both are modelled by this one class, and the table below cites lines of both. |

Modelling choices:

- **Transformations.** In Go a transformation is a heap record and its target is a pointer. Here a transformation is a value with an `id` that stands for its address. The engine allocates ids from a counter, `nextId`. The invariant `FreshIds` says every id is below the counter and no two records share one. It plays the part of pointer distinctness, and every operation is proved to keep it.
- **Unseen helpers.** The Vietnamese orthography helpers of the core package are not part of this model, and neither are Go's `unicode` functions and `ParseInputMethod`. They are the function-valued fields of `Telex.CoreHelpers`. Their only assumed property is the one their use makes true by construction: `extractLastWord` and `extractLastSyllable` return a split point, so the two halves always concatenate to the composition. The model also assumes that `generate` (the engine's `generateTransformations`), `refreshLastToneTarget` and `breakComposition` only ever create new records: they return templates, and the model puts those at fresh addresses. None of them hands back a record already in the composition or changes one in place. `FreshIds` is proved to be kept under this assumption. Three more helpers are called in the modelled code but defined in files that are not part of this model, and the model gives them a definition of its own:
  - `findLastAppendingTrans` is `Telex.LastAppending`: the last record whose effect is Appending, as the comment at src/core/telex.go:212-213 describes.
  - `newAppendingTrans` is `Telex.NewAppendingTrans`: a fresh record that appends the key, with no target.
  - `inKeyList` is sequence membership (`in`).
- **I/O as events.** Everything the engine asks of the bus, of the X server or of the desktop is appended to the `events` log of `IBusEngine.IBusTelex`, as one `IBusConsts.Event` value each. The requests are: forward a key, commit, show or hide the preedit, delete surrounding text, XTest backspaces, the lookup table, save the configuration, and mouse capturing.
- **Step functions and contracts.** Each key handler is specified by a function of the state before the key (`KeyPressStep`, `PreeditKeyStep`, and the functions they call). Each method's contract ties its new state to such a function of its old state. The lemmas then prove properties of those functions:
  - the text edit turns the old text into the new one;
  - the fewest backspaces are sent;
  - addresses stay distinct;
  - the log only grows;
  - an unhandled preedit key leaves nothing composed.

## Model

| member | source | states |
|---|---|---|
| Telex.ExtractLastWord | src/core/telex.go:201 | the part before the last word and the last word together make up the composition |
| Telex.ExtractLastSyllable | src/core/telex.go:191 | the part before the last syllable and the last syllable together make up the composition |
| Telex.LastAppending | src/core/telex.go:215 | findLastAppendingTrans: the position found holds an appending record and no record after it is one; none is found only when no record is appending |
| Telex.FreshAfterStamp | src/core/telex.go:194 | records allocated at the next free addresses keep all addresses distinct |
| Telex.RulesForMembers | src/core/telex.go:106-114 | a rule is selected exactly when it is a rule of the input method with the given key |
| Telex.RulesForConcat | src/core/telex.go:106-114 | selection from a concatenation is the concatenation of the selections, so the original order is kept |
| Telex.WithoutMembers | src/core/telex.go:224-230 | a record survives the filter exactly when it neither is the removed record nor targets it |
| Telex.WithoutConcat | src/core/telex.go:224-230 | filtering distributes over concatenation, so survivors keep their relative order |
| Telex.FreshWithout | src/core/telex.go:223-234 | filtering the last word keeps addresses distinct |
| Telex.ProcessKeyAppends | src/core/telex.go:182-188 | in English mode or for an unprocessable key, exactly one appending record with the key's lower case is added, at the end or at the front in reverse order, and every other record is kept |
| Telex.ProcessKeyExtendsLastSyllable | src/core/telex.go:191-197 | in Vietnamese mode the records before the last syllable and the last syllable itself are kept, and new records only follow them |
| Telex.ProcessKeyFresh | src/core/telex.go:179-198 | every key keeps the composition's addresses distinct |
| Telex.ProcessStringConcat | src/core/telex.go:173-177 | processing a + b is processing a and then b |
| Telex.ProcessStringEnglish | src/core/telex.go:173-177 | in English mode processing a string appends one appending record per rune, in the string's order, and keeps what was there |
| Telex.RemoveLastCharFresh | src/core/telex.go:214-235 | removing a character keeps addresses distinct |
| Telex.RemoveLetterFresh | src/core/telex.go:223-234 | filtering the last word and then allocating refreshed tone records keeps addresses distinct |
| Telex.RemoveLastCharTrivialCases | src/core/telex.go:215-222 | without an appending record nothing changes; when the last appended key is unprocessable exactly the final record is dropped |
| Telex.RemoveLastCharRemovesLetter | src/core/telex.go:223-234 | otherwise the prefix before the last word is kept, and the last word keeps exactly the records that neither are the last appending record nor target it, in order, followed by the refreshed tone records only when asked |
| Telex.RestoreLastWordFresh | src/core/telex.go:200-206 | restoring the last word keeps addresses distinct |
| Telex.RestoreLastWordKeepsPrefix | src/core/telex.go:200-206 | an empty last word leaves the state alone, and the records before the last word are always kept |
| Telex.TelexEngine.constructor | src/core/telex.go:59-65 | NewEngine: the given input method and flags, and an empty composition |
| Telex.NewAppendingTrans | src/core/telex.go:184-187 | the new record has the given address, appends exactly the given key, has no target and keeps the case flag |
| Telex.ProcessedString | src/core/telex.go:96-104 | with FullText the whole composition is flattened, otherwise only its last word, in the given mode |
| Telex.IsValidWord | src/core/telex.go:91-94 | validity is decided by the core's isValid on the last word only |
| Telex.TelexEngine.GetProcessedString | src/core/telex.go:96-104 | with FullText the whole composition is flattened, otherwise only its last word |
| Telex.TelexEngine.IsValid | src/core/telex.go:91-94 | the core's isValid of the last word, with the given completeness flag |
| Telex.TelexEngine.CanProcessKey | src/core/telex.go:120-122 | the core's canProcessKey of the key over the input method's keys |
| Telex.TelexEngine.GetApplicableRules | src/core/telex.go:106-114 | the loop returns exactly the rules whose key is the key's lower case, in the input method's order |
| Telex.TelexEngine.ProcessKey | src/core/telex.go:179-198 | the new composition and counter are ProcessKeyStep of the old ones, and addresses stay distinct |
| Telex.TelexEngine.ProcessString | src/core/telex.go:173-177 | the loop applies ProcessKey to each rune from first to last |
| Telex.TelexEngine.RestoreLastWord | src/core/telex.go:200-206 | the new state is RestoreLastWordStep of the old one |
| Telex.TelexEngine.Reset | src/core/telex.go:208-210 | the composition is empty afterwards |
| Telex.TelexEngine.RemoveLastChar | src/core/telex.go:214-235 | the filtering loop yields RemoveLastCharStep of the old state |
| InputMethodDef.GetInputMethodDefinitions | src/core/input_method_def.go:29-35 | the copy has exactly the keys of the global table and the same definition under each key |
| InputMethodDef.TelexDefinition | src/core/input_method_def.go:13-27 | the Telex definition has eleven keys: "z" clears the tone, five keys are tones and "w" is UOA_ƯƠĂ |
| Encoder.EncodeIsIdentity | src/core/encoder.go:13-15 | encoding returns its input for every charset |
| Encoder.EncodeIdempotent | src/core/encoder.go:13-15 | encoding twice is encoding once, and the length is kept |
| Encoder.EncodeIgnoresCharset | src/github.com/andodevel/telex-core/encoder.go:13-15 | the charset argument has no effect |
| Encoder.GetCharsetNames | src/github.com/andodevel/telex-core/encoder.go:17-19 | the list is exactly ["Unicode"] |
| EngineUtils.IsValidState | src/engine/engine_utils.go:235-245 | a state is valid exactly when none of Control, Mod1, Ignored, Super, Hyper and Meta is set |
| EngineUtils.ValidStateIgnoresShiftLockRelease | src/engine/engine_utils.go:235-245 | Shift, CapsLock and the release bit never affect validity |
| EngineUtils.ToUpper | src/engine/engine_utils.go:111-123 | the brackets of the appending keys are swapped with their shifted forms, and every other key is unchanged |
| EngineUtils.ToUpperTwice | src/engine/engine_utils.go:111-123 | swapping twice gives the key back when both forms are appending keys |
| EngineUtils.IsIgnoredKey | src/engine/engine_utils.go:133-148 | releases and CapsLock are ignored; in US mode every other key is ignored unless the lookup table is open or it is the key that opens it; in other modes nothing else is ignored |
| EngineUtils.GetInputMode | src/engine/engine_utils.go:154-164 | a known per-window mode wins, then a known default mode, then preedit, and the result is always preedit or a known mode |
| EngineUtils.GetInputModeAfterMapping | src/engine/engine_utils.go:212-214 | recording a known mode for a window makes it that window's mode |
| EngineUtils.CanProcessKeyVal | src/engine/engine_utils.go:247-253 | space, backspace and word breaks are always processable; otherwise the composition engine decides |
| EngineUtils.LastKeyWithShift | src/engine/engine_utils.go:125-131 | the shift bit for a processable key, false otherwise |
| EngineUtils.DigitCursor | src/engine/engine_utils.go:197-199 | exactly the digits 1 to 7 select a cursor, and that cursor is the digit minus one |
| EngineUtils.CandidateMode | src/engine/engine_utils.go:213-214 | the recorded mode is the cursor plus one in 32-bit arithmetic |
| EngineUtils.DigitSelectsMode | src/engine/engine_utils.go:197-214 | selecting digit d records mode d |
| EngineUtils.WithBit | src/engine/engine.go:216-222 | the named bit is set when checked and cleared otherwise, and every other bit is kept |
| EnginePreedit.ShouldFallbackToEnglish | src/ibus-telex/engine_preedit.go:122-139 | false when the option is off, the word is empty, the dd free style applies, or a Vietnamese letter is required and missing; otherwise exactly the negation of word validity |
| EnginePreedit.MustFallbackToEnglish | src/ibus-telex/engine_preedit.go:141-151 | false when the option is off or the word is empty; otherwise exactly the negation of full-word validity |
| EnginePreedit.FallbackWithCheckImpliesWithout | src/ibus-telex/engine_preedit.go:135-138 | requiring a Vietnamese letter only ever prevents a fallback |
| EnginePreedit.TelexInputMode | src/ibus-telex/engine_preedit.go:115-120 | English exactly when the word should fall back without the letter check |
| EnginePreedit.PreeditStringOf | src/ibus-telex/engine_preedit.go:168-173 | the word as typed when it falls back, in Vietnamese otherwise |
| EnginePreedit.EnglishPreeditTypesEnglish | src/ibus-telex/engine_preedit.go:168-173 | a preedit shown in English is typed on in English |
| EnginePreedit.ComposedStringOf | src/ibus-telex/engine_preedit.go:153-158 | the word as typed only when the old text has a Vietnamese letter and must fall back; the old text otherwise, and always when the option is off |
| EnginePreedit.CommitEvents | src/ibus-telex/engine_preedit.go:186-192 | nothing for the empty string, exactly one commit otherwise |
| EnginePreedit.PreeditEvents | src/ibus-telex/engine_preedit.go:86-101 | an empty preedit is hidden and an empty commit sent; otherwise the preedit is shown, followed by a capture unlock exactly when mouse capturing is on |
| EnginePreedit.LastByte | src/ibus-telex/engine_preedit.go:67-69 | the last byte of the UTF-8 text: the last character when it is ASCII, a continuation byte otherwise |
| EnginePreedit.LastByteOfAsciiKey | src/ibus-telex/engine_preedit.go:69 | for an ASCII key, comparing the last byte is comparing the last character |
| EnginePreedit.RuneString | src/ibus-telex/engine_preedit.go:79 | one character: the rune itself when it is a scalar value, U+FFFD otherwise |
| EnginePreedit.AppendingKeyOutcome | src/ibus-telex/engine_preedit.go:66-76 | which of the three branches follows an appending key, with the byte comparisons that select it |
| EngineBackspace.CommonPrefixLen | src/engine/engine_backspace.go:161-172 | the offset is at most both lengths, the texts agree before it and differ at it when both go on |
| EngineBackspace.CommonPrefixLenUnique | src/engine/engine_backspace.go:161-172 | any length with those properties is the offset |
| EngineBackspace.CommonPrefixLenSymmetric | src/engine/engine_backspace.go:161-172 | the offset does not depend on the order of the texts |
| EngineBackspace.CommonPrefixIsLongest | src/engine/engine_backspace.go:161-172 | every common prefix is at most the offset long |
| EngineBackspace.PlanEdit | src/engine/engine_backspace.go:174-195 | the plan deletes back to the offset, plus one with the dead key, and types the rest of the new text, and applying it to the old text gives the new text |
| EngineBackspace.FewestBackspaces | src/engine/engine_backspace.go:177-194 | no edit of the form "delete k, then type" reaches the new text with fewer backspaces |
| EngineBackspace.KeyPairs | src/engine/engine_backspace.go:232-235 | n press and release pairs of the same key |
| EngineBackspace.BackspaceEvents | src/engine/engine_backspace.go:207-258 | one XTest request, one surrounding deletion of n characters, n backspace pairs or n Shift+Left pairs, according to the mode, and nothing in the other modes |
| EngineBackspace.KeySym | src/engine/engine_backspace.go:271-274 | a character's non-zero vnSymMapping entry, otherwise its code |
| EngineBackspace.KeyTaps | src/engine/engine_backspace.go:270-277 | two events per character |
| EngineBackspace.KeyTapsPairs | src/engine/engine_backspace.go:270-277 | event 2i is the press and event 2i+1 the release of character i's key symbol |
| EngineBackspace.TextEvents | src/engine/engine_backspace.go:264-282 | nothing for empty text, key taps in forward-as-commit mode, one commit otherwise |
| EngineBackspace.SendBackspaceAndNewRunesEffect | src/engine/engine_backspace.go:197-205 | the counter is set only for a non-zero count in XTest mode, and the text is always sent after the backspaces |
| EngineBackspace.UpdatePreviousTextEffect | src/engine/engine_backspace.go:174-195 | the sent edit turns the old text into the new text; without the workaround it is old length minus offset backspaces and the rest of the new text; with it a space, one more backspace, and the flag cleared |
| EngineBackspace.UpdatePreviousTextExtendsLog | src/engine/engine_backspace.go:174-195 | editing only adds to the event log |
| IBusEngine.RawLen | src/engine/engine_utils.go:150-152 | the length of the whole composition flattened as typed, and zero exactly when that text is empty |
| IBusEngine.IBusTelex.RawKeyLen | src/engine/engine_utils.go:150-152 | the length of the engine's GetProcessedString in English mode with FullText |
| IBusEngine.IBusTelex.InBrowserList | src/engine/engine_utils.go:265-267 | true exactly when some entry of the browser list equals the window class |
| IBusEngine.IBusTelex.PreeditString | src/ibus-telex/engine_preedit.go:168-173 | the last word as typed when it should fall back to English with the Vietnamese-letter check, and the last word in Vietnamese otherwise |
| IBusEngine.Route | src/engine/engine.go:68-80 | ignored keys first, then the open lookup table, then the backspace modes, then preedit, each exactly under its condition |
| IBusEngine.ReplayInOrder | src/engine/engine.go:144-151 | replaying the text backwards in reverse order leaves one appending record per character in front, in the text's original order, with sanitized lower-case letters |
| IBusEngine.ActivatedConfig | src/ibus-telex/engine.go:214-241 | only the setting the property names changes: the tone-style and mouse-capturing bits, a valid checked charset, a known checked input method |
| IBusEngine.ProcessableFresh | src/engine/engine_backspace.go:126-144 | a processable key in the backspace modes keeps addresses distinct |
| IBusEngine.WordBreakFresh | src/engine/engine_backspace.go:145-156 | a word break in the backspace modes keeps addresses distinct |
| IBusEngine.KeyPressFresh | src/engine/engine_backspace.go:87-159 | every key in the backspace modes keeps addresses distinct |
| IBusEngine.PreeditProcessFresh | src/ibus-telex/engine_preedit.go:61-77 | a processable key in preedit mode keeps addresses distinct |
| IBusEngine.PreeditKeyFresh | src/ibus-telex/engine_preedit.go:31-84 | every key in preedit mode keeps addresses distinct |
| IBusEngine.SendTextExtendsLog | src/engine/engine_backspace.go:264-282 | sending text only adds to the log |
| IBusEngine.ForwardExtendsLog | src/engine/engine_backspace.go:96 | forwarding a key only adds to the log |
| IBusEngine.SentAfterKeyExtendsLog | src/engine/engine_backspace.go:131-143 | what follows a processed key only adds to the log |
| IBusEngine.WordBreakExtendsLog | src/engine/engine_backspace.go:145-156 | a word break only adds to the log |
| IBusEngine.BackspaceExtendsLog | src/engine/engine_backspace.go:101-118 | a backspace only adds to the log |
| IBusEngine.TypingKeyExtendsLog | src/engine/engine_backspace.go:126-158 | a typed key only adds to the log |
| IBusEngine.KeyPressExtendsLog | src/engine/engine_backspace.go:87-159 | keyPressHandler only adds to the log |
| IBusEngine.ShownAfterKeyExtendsLog | src/ibus-telex/engine_preedit.go:66-76 | what follows a processed key in preedit mode only adds to the log |
| IBusEngine.PreeditTypingExtendsLog | src/ibus-telex/engine_preedit.go:61-83 | a typed key in preedit mode only adds to the log |
| IBusEngine.PreeditExtendsLog | src/ibus-telex/engine_preedit.go:31-84 | preeditProcessKeyEvent only adds to the log |
| IBusEngine.PreeditUnhandledCommits | src/ibus-telex/engine_preedit.go:38-83 | a key the preedit handler does not take leaves nothing composed when something was |
| IBusEngine.KeyPressPassesOn | src/engine/engine_backspace.go:94-124 | a shortcut or Tab empties the buffer and is forwarded; backspace on an empty buffer is only forwarded |
| IBusEngine.IBusTelex.constructor | src/engine/engine_utils.go:34-53 | the engine of a loaded configuration: its parsed input method and flags, an empty buffer, every other field zero |
| IBusEngine.IBusTelex.CommitText | src/ibus-telex/engine_preedit.go:186-192 | the log gains CommitEvents of the text |
| IBusEngine.IBusTelex.UpdatePreedit | src/ibus-telex/engine_preedit.go:86-101 | the log gains PreeditEvents of the text |
| IBusEngine.IBusTelex.CommitPreedit | src/ibus-telex/engine_preedit.go:180-184 | the text is committed, the preedit hidden and the buffer emptied |
| IBusEngine.IBusTelex.ResetBuffer | src/engine/engine_utils.go:100-109 | nothing for an empty buffer; otherwise the buffer is emptied, after committing the preedit in preedit mode |
| IBusEngine.IBusTelex.ResetFakeBackspace | src/engine/engine_backspace.go:260-262 | the counter is zero |
| IBusEngine.IBusTelex.UpdateLastKeyWithShift | src/engine/engine_utils.go:125-131 | the field is LastKeyWithShift of the key |
| IBusEngine.IBusTelex.InBackspaceWhiteList | src/engine/engine_utils.go:255-263 | the search finds the mode exactly when it is a backspace mode |
| IBusEngine.IBusTelex.CommitInputModeCandidate | src/engine/engine_utils.go:212-219 | the window's mapping gets the cursor plus one, the configuration is saved and the properties registered, and a known mode becomes the window's mode |
| IBusEngine.IBusTelex.CloseInputModeCandidates | src/engine/engine_utils.go:221-228 | the table is closed and the four hiding events are logged |
| IBusEngine.IBusTelex.ForwardPairs | src/engine/engine_backspace.go:232-235 | the loop logs n press and release pairs |
| IBusEngine.IBusTelex.SendBackSpace | src/engine/engine_backspace.go:207-258 | the log gains BackspaceEvents of the input mode |
| IBusEngine.IBusTelex.SendText | src/engine/engine_backspace.go:264-282 | the log gains TextEvents of the text |
| IBusEngine.IBusTelex.ForwardTaps | src/engine/engine_backspace.go:268-279 | the loop logs a press and a release of each character's key symbol |
| IBusEngine.IBusTelex.SendBackspaceAndNewRunes | src/engine/engine_backspace.go:197-205 | the sending state becomes SendBackspaceAndNewRunesStep of the old one |
| IBusEngine.IBusTelex.GetPreeditOffset | src/engine/engine_backspace.go:161-172 | the scan returns the common-prefix length |
| IBusEngine.IBusTelex.UpdatePreviousText | src/engine/engine_backspace.go:174-195 | the sending state becomes UpdatePreviousTextStep of the old one |
| IBusEngine.IBusTelex.BsProcessKeyEvent | src/engine/engine_backspace.go:32-85 | a movement key resets the buffer and counter and marks the text ready; a backspace on a pending fake backspace only decrements the counter; other editing keys reset or remove a character; an idle engine takes a key at once; otherwise the key is queued and reported handled |
| IBusEngine.IBusTelex.BsEditingKey | src/engine/engine_backspace.go:46-69 | the XTest and surrounding-text branch of bsProcessKeyEvent, including the counter decrement |
| IBusEngine.IBusTelex.BsTakeKey | src/engine/engine_backspace.go:70-84 | an idle engine composes the key itself; otherwise the key is queued |
| IBusEngine.IBusTelex.BackspaceKeyPress | src/engine/engine_backspace.go:101-117 | the buffer and sending state become BackspaceStep of the old ones |
| IBusEngine.IBusTelex.RestoringBackspace | src/engine/engine_backspace.go:108-116 | with the restore option, the same |
| IBusEngine.IBusTelex.SendRestoredEdit | src/engine/engine_backspace.go:109-116 | the edit to the new text is sent when it changes what is shown, and the backspace is forwarded otherwise |
| IBusEngine.IBusTelex.ProcessableKeyPress | src/engine/engine_backspace.go:126-144 | the buffer and sending state become ProcessableStep of the old ones |
| IBusEngine.IBusTelex.SendAfterKey | src/engine/engine_backspace.go:131-143 | the same for SentAfterKeyStep |
| IBusEngine.IBusTelex.WordBreakKeyPress | src/engine/engine_backspace.go:145-156 | the same for WordBreakStep |
| IBusEngine.IBusTelex.TypeKeyInEnglish | src/engine/engine_backspace.go:153-154 | the key is added in English and sent |
| IBusEngine.IBusTelex.RetypeWord | src/engine/engine_backspace.go:146-151 | the same for RetypeStep |
| IBusEngine.IBusTelex.KeyPressHandler | src/engine/engine_backspace.go:87-159 | the buffer and sending state become KeyPressStep of the old ones, the delay is cleared and lastKeyWithShift updated |
| IBusEngine.IBusTelex.DispatchKeyPress | src/engine/engine_backspace.go:94-158 | the same for KeyPressStep |
| IBusEngine.IBusTelex.DispatchTypingKey | src/engine/engine_backspace.go:126-158 | the same for TypingKeyStep |
| IBusEngine.IBusTelex.HandleQueuedKey | src/engine/engine_utils.go:93-98 | the first queued key is removed and handled by keyPressHandler |
| IBusEngine.IBusTelex.PreeditProcessKeyEvent | src/ibus-telex/engine_preedit.go:31-84 | the result is PreeditHandles, the buffer and the log become PreeditKeyStep of the old ones, and lastKeyWithShift is updated |
| IBusEngine.IBusTelex.DispatchPreeditKey | src/ibus-telex/engine_preedit.go:38-83 | the same without the deferred update |
| IBusEngine.IBusTelex.PreeditTypingKey | src/ibus-telex/engine_preedit.go:61-83 | handled exactly for processable keys and word breaks, with PreeditTypingStep |
| IBusEngine.IBusTelex.PreeditProcessableKey | src/ibus-telex/engine_preedit.go:61-77 | the same for PreeditProcessStep |
| IBusEngine.IBusTelex.PreeditAfterKey | src/ibus-telex/engine_preedit.go:66-76 | the same for ShownAfterKeyStep |
| IBusEngine.IBusTelex.LtProcessKeyEvent | src/engine/engine_utils.go:166-210 | no focused window: handled with no change; the opening key closes the table; the navigation keys move the cursor; Return records the candidate; a digit records its mode when the table accepts the cursor; anything else closes the table |
| IBusEngine.IBusTelex.ProcessKeyEvent | src/engine/engine.go:68-80 | an ignored key changes nothing and each handler changes only its own fields |
| IBusEngine.IBusTelex.FocusIn | src/ibus-telex/engine.go:81-94 | the window class is recorded and the properties are registered; the buffer and the counter are reset only when the class changed |
| IBusEngine.IBusTelex.Reset | src/ibus-telex/engine.go:102-108 | in preedit mode the preedit is committed and the buffer emptied; nothing happens otherwise |
| IBusEngine.IBusTelex.Enable | src/ibus-telex/engine.go:110-114 | surrounding text is requested |
| IBusEngine.IBusTelex.SetSurroundingText | src/engine/engine.go:123-154 | nothing unless ready, and never ready afterwards; outside a backspace mode, or with the cursor past the end of the text, the buffer is unchanged; in a backspace mode with the cursor in range, the buffer is the replay of the text before the cursor, one appending record per character in the text's order |
| IBusEngine.IBusTelex.CandidateClicked | src/ibus-telex/engine.go:183-189 | with the table open and the cursor accepted, the clicked mode is recorded and the table closed; nothing otherwise |
| IBusEngine.IBusTelex.SetCapabilities | src/ibus-telex/engine.go:191-194 | the capabilities are stored as given |
| IBusEngine.IBusTelex.UpdateProperty | src/engine/engine.go:216-239 | the configuration becomes ActivatedConfig and the mouse-capturing request is logged |
| IBusEngine.IBusTelex.PropertyActivate | src/engine/engine.go:206-249 | About and Configuration only open a page and change nothing; otherwise the property's setting changes, the configuration is saved unless the name is "-", and a fresh engine with an empty buffer is built from the new configuration |
| IBusEngine.IBusTelex.MouseMove | src/engine/engine_utils.go:64-73 | in preedit mode a non-empty preedit is committed; nothing happens otherwise |
| IBusEngine.IBusTelex.MouseClick | src/engine/engine_utils.go:74-87 | the counter and the buffer are reset and the delay set; with surrounding-text support a Shift_R is sent, the text marked ready and the delay ten times longer |

## Left out

- Concurrency and timing. The goroutine that reads keyPressChan is `HandleQueuedKey`, one call per queued key. The channel is the `keyPressQueue` sequence, without its capacity of 100 or blocking. The mutex and every `time.Sleep` wait are not modelled.
- D-Bus, X11 and the desktop. Their calls are logged as events and nothing of their effect is modelled: `saveConfig` and `loadConfig` file I/O, `xdg-open`, mouse recording and capture, `notify`, `RequireSurroundingText`, `RegisterProperties`, property lists and object paths. `GetIBusEngineCreator` is modelled by the constructor, which is given the loaded configuration. The constructor starts with an empty event log. The start-up requests of `init` (src/engine/engine_utils.go:49, 57-63) are not logged: `x11.StartMouseRecording()`, and `x11.StartMouseCapturing()` when IBmouseCapturing is set. The same goes for installing the mouse callbacks; `MouseMove` and `MouseClick` model those callbacks.
- The orthography helpers of the core package are function-valued fields. Their behaviour is not modelled beyond the two assumptions under "Unseen helpers": the split point, and new records only. The helpers are `extractLastWord`, `extractLastSyllable`, `Flatten`, `isValid`, `breakComposition`, `canProcessKey`, `IsWordBreakSymbol`, `IsPunctuationMark`, `HasAnyVietnameseRune`, `ParseInputMethod`, `refreshLastToneTarget`, and `unicode.ToLower` and `unicode.IsUpper`. Their source is not part of this model.
- The engine's own `generateTransformations` is not modelled: its fallback transformations, the `applyUowShortcut` virtual horn, `findTargetByKey` and the tone refresh. It is one helper field, `generate`, because everything it calls is unseen. `isSuperKey`, `isToneKey`, `isEffectiveKey`, `SetFlag` and `GetFlag` are not called by the modelled operations and are left out.
- The lookup table belongs to the IBus library and is outside the model:
  - Whether `SetCursorPos` accepts a position is the parameter `cursorAccepted`.
  - The cursor after a navigation key is the parameter `navCursor`.
  - `PageUp`, `PageDown`, `CursorUp`, `CursorDown` and `updateInputModeLT` are one `MoveLookupCursor` event.
- IBusEngine.IBusTelex.LtProcessKeyEvent: the `MoveLookupCursor` event does not record whether the library moved the cursor. The source redraws the table only when it did.
- `x11.GetFocusWindowClass` is the parameter `focusClass` of `FocusIn` and `LtProcessKeyEvent`. The surrounding text and cursor of `SetSurroundingText` are parameters. The source extracts them from a D-Bus variant and recovers from a panic; neither is modelled.
- InputMethodDef.GetInputMethodDefinitions: in Go the copied map is shallow, so each definition in the copy still shares its inner maps with the global table. The model's maps are values, so that sharing, and what a later change to one of them would do to the other, is not captured.
- The dd free-style check at src/ibus-telex/engine_preedit.go:132 reads as a two-character rune literal "Ä‘" in the text of the source. That is the letter đ (UTF-8 `c4 91`) decoded as Windows-1252 and encoded again, and a two-character rune literal is not valid Go. `EnginePreedit.LetterDd` is therefore 'đ', and the model checks for đ in the word. Read literally, a check for a character that never occurs in a Vietnamese word would never match, and the dd free-style exception would then apply only to words ending in 'd'.
- `FocusOut`, `Disable`, `SetCursorLocation`, `SetContentType`, `getWhiteList`, `resetPreedit`, `getVnSeq` and `encodeText` are left out. They do nothing in the source or are never called; encoding is the identity.
- Go strings are UTF-8 bytes, and the model's strings are sequences of characters. Where the source looks at a byte, the model computes that byte (`LastByte`). `getRawKeyLen` counts bytes while `RawLen` counts characters; both are only ever compared with zero. Integers are unbounded: the `-int32(n)` and `uint32(n)` conversions of the surrounding-text deletion at src/engine/engine_backspace.go:227 are not modelled, so a count of 2^31 or more, which would wrap in the source, is sent unchanged.
- The input-mode numbers, property keys, option bits, the open-lookup-table key and the hardware key codes are defined in files that are not part of this model. They are distinct stand-in values in `ibus_consts.dfy`. The tables `imLookupTable`, `imBackspaceList`, `DefaultBrowserList`, `vnSymMapping`, `isMovementKey` and `getCharsetFromPropKey` are fields of `IBusConsts.Platform`.
- IBusEngine.IBusTelex.ProcessKeyEvent: states which fields each handler leaves alone and that an ignored key changes nothing. What each handler does is stated by the handler's own contract, not repeated here.
- IBusEngine.IBusTelex.MouseClick: states only the last event, the Shift_R press, not the whole event log. It does state every field.
- The byte-indexed last-character checks at src/engine/engine_backspace.go:132-135 and src/ibus-telex/engine_preedit.go:67-69 are modelled as written, byte against rune, and not corrected.
