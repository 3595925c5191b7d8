/**
 * How the backspace input modes edit text that the application already
 * shows: the new text is reached from the old one by deleting back to
 * their common prefix and typing the rest.  The events that deleting and
 * typing produce depend on the input mode.
 */
module EngineBackspace {
  import opened Telex
  import opened IBusConsts
  import opened EnginePreedit

  // ---------------------------------------------------------------------
  // The text difference
  // ---------------------------------------------------------------------

  /** The length of the longest common prefix of `a` and `b`. */
  function CommonPrefixLen(a: string, b: string): (n: nat)
    ensures n <= |a| && n <= |b|
    ensures a[..n] == b[..n]
    ensures n < |a| && n < |b| ==> a[n] != b[n]
  {
    if |a| == 0 || |b| == 0 || a[0] != b[0] then 0
    else
      var n := 1 + CommonPrefixLen(a[1..], b[1..]);
      assert a[..n] == a[..1] + a[1..][..n - 1];
      assert b[..n] == b[..1] + b[1..][..n - 1];
      n
  }

  /** Any length with the common-prefix properties is the common-prefix length. */
  lemma {:induction false} CommonPrefixLenUnique(a: string, b: string, n: nat)
    requires n <= |a| && n <= |b| && a[..n] == b[..n]
    requires n < |a| && n < |b| ==> a[n] != b[n]
    ensures CommonPrefixLen(a, b) == n
  {
    if n > 0 {
      assert a[0] == a[..n][0] == b[..n][0] == b[0];
      assert a[1..][..n - 1] == a[..n][1..] == b[..n][1..] == b[1..][..n - 1];
      CommonPrefixLenUnique(a[1..], b[1..], n - 1);
    }
  }

  /** The common prefix does not depend on the order of the arguments. */
  lemma CommonPrefixLenSymmetric(a: string, b: string)
    ensures CommonPrefixLen(a, b) == CommonPrefixLen(b, a)
  {
    CommonPrefixLenUnique(b, a, CommonPrefixLen(a, b));
  }

  /** An edit of the application's text: an optional dead key, backspaces, then text. */
  datatype Edit = Edit(deadKey: bool, nBackSpace: nat, insert: string)

  /** The text after the edit: the dead key is typed, n characters deleted, the rest typed. */
  function ApplyEdit(text: string, e: Edit): string
    requires e.nBackSpace <= |text| + (if e.deadKey then 1 else 0)
  {
    var typed := if e.deadKey then text + " " else text;
    typed[..|typed| - e.nBackSpace] + e.insert
  }

  /**
   * updatePreviousText's plan: delete back to the common prefix of the old
   * and the new text and type the rest of the new text.  When the browser
   * workaround applies and both texts go on past the prefix, a space is
   * typed first and deleted with one more backspace.
   */
  function PlanEdit(newText: string, oldText: string, workaround: bool): (e: Edit)
    ensures var offset := CommonPrefixLen(newText, oldText);
      && (e.deadKey <==> workaround && offset < |newText| && offset < |oldText|)
      && e.nBackSpace == |oldText| - offset + (if e.deadKey then 1 else 0)
      && e.insert == newText[offset..]
    ensures e.nBackSpace <= |oldText| + (if e.deadKey then 1 else 0)
    ensures ApplyEdit(oldText, e) == newText
  {
    var offset := CommonPrefixLen(newText, oldText);
    var deadKey := workaround && offset < |newText| && offset < |oldText|;
    var e := Edit(deadKey, |oldText| - offset + (if deadKey then 1 else 0), newText[offset..]);
    var typed := if deadKey then oldText + " " else oldText;
    assert typed[..|typed| - e.nBackSpace] == oldText[..offset];
    assert newText == newText[..offset] + newText[offset..];
    e
  }

  /** Every common prefix is at most as long as the common-prefix length. */
  lemma {:induction false} CommonPrefixIsLongest(a: string, b: string, m: nat)
    requires m <= |a| && m <= |b| && a[..m] == b[..m]
    ensures m <= CommonPrefixLen(a, b)
  {
    if m > 0 {
      assert a[0] == a[..m][0] == b[..m][0] == b[0];
      assert a[1..][..m - 1] == a[..m][1..] == b[..m][1..] == b[1..][..m - 1];
      CommonPrefixIsLongest(a[1..], b[1..], m - 1);
    }
  }

  /** No edit of the form "delete k, then type" reaches the new text with fewer backspaces. */
  lemma FewestBackspaces(newText: string, oldText: string, k: nat, insert: string)
    requires k <= |oldText| && oldText[..|oldText| - k] + insert == newText
    ensures k >= |oldText| - CommonPrefixLen(newText, oldText)
  {
    var kept := |oldText| - k;
    assert newText[..kept] == oldText[..kept];
    CommonPrefixIsLongest(newText, oldText, kept);
  }

  // ---------------------------------------------------------------------
  // Events for deleting and typing
  // ---------------------------------------------------------------------

  /** `n` press/release pairs of the same key. */
  function KeyPairs(press: Event, release: Event, n: nat): (evs: seq<Event>)
    ensures |evs| == 2 * n
    ensures forall i :: 0 <= i < n ==> evs[2 * i] == press && evs[2 * i + 1] == release
  {
    if n == 0 then []
    else
      var evs := KeyPairs(press, release, n - 1) + [press, release];
      assert forall i :: 0 <= i < n - 1 ==> evs[2 * i] == press && evs[2 * i + 1] == release;
      evs
  }

  const BackspacePress: Event := ForwardKey(IBusBackSpace, XkBackspace - 8, 0)
  const BackspaceRelease: Event := ForwardKey(IBusBackSpace, XkBackspace - 8, IBusReleaseMask)
  const ShiftLeftPress: Event := ForwardKey(IBusLeft, XkLeft - 8, IBusShiftMask)
  const ShiftLeftRelease: Event := ForwardKey(IBusLeft, XkLeft - 8, IBusReleaseMask)

  /**
   * SendBackSpace(n): one XTest request, one surrounding-text deletion,
   * or n forwarded backspaces (Shift+Left selections in the shift-left
   * mode); nothing in the other modes.
   */
  function BackspaceEvents(inputMode: int, n: nat): (evs: seq<Event>)
    ensures inputMode == XTestFakeKeyEventIM ==> evs == [XTestBackspace(n)]
    ensures inputMode == SurroundingTextIM ==> evs == [DeleteSurrounding(-(n as int), n)]
    ensures inputMode == ForwardAsCommitIM || inputMode == BackspaceForwardingIM ==>
      |evs| == 2 * n && forall i :: 0 <= i < n ==> evs[2 * i] == BackspacePress && evs[2 * i + 1] == BackspaceRelease
    ensures inputMode == ShiftLeftForwardingIM ==>
      |evs| == 2 * n && forall i :: 0 <= i < n ==> evs[2 * i] == ShiftLeftPress && evs[2 * i + 1] == ShiftLeftRelease
    ensures inputMode !in {XTestFakeKeyEventIM, SurroundingTextIM, ForwardAsCommitIM, ShiftLeftForwardingIM, BackspaceForwardingIM}
            ==> evs == []
  {
    if inputMode == XTestFakeKeyEventIM then [XTestBackspace(n)]
    else if inputMode == SurroundingTextIM then [DeleteSurrounding(-(n as int), n)]
    else if inputMode == ForwardAsCommitIM then KeyPairs(BackspacePress, BackspaceRelease, n)
    else if inputMode == ShiftLeftForwardingIM then KeyPairs(ShiftLeftPress, ShiftLeftRelease, n)
    else if inputMode == BackspaceForwardingIM then KeyPairs(BackspacePress, BackspaceRelease, n)
    else []
  }

  /** The key symbol forwarded for a character: its vnSymMapping entry when non-zero, else its code. */
  function KeySym(p: Platform, chr: char): (k: bv32)
    ensures chr in p.vnSymMapping && p.vnSymMapping[chr] != 0 ==> k == p.vnSymMapping[chr]
    ensures !(chr in p.vnSymMapping && p.vnSymMapping[chr] != 0) ==> k == chr as bv32
  {
    if chr in p.vnSymMapping && p.vnSymMapping[chr] != 0 then p.vnSymMapping[chr] else chr as bv32
  }

  /** A press and a release of each character's key symbol, in order. */
  function KeyTaps(p: Platform, rs: string): (evs: seq<Event>)
    ensures |evs| == 2 * |rs|
  {
    if rs == [] then []
    else KeyTaps(p, rs[..|rs| - 1]) + [ForwardKey(KeySym(p, rs[|rs| - 1]), 0, 0),
                                       ForwardKey(KeySym(p, rs[|rs| - 1]), 0, IBusReleaseMask)]
  }

  /** Event 2i is the press and event 2i+1 the release of character i's key symbol. */
  lemma {:induction false} KeyTapsPairs(p: Platform, rs: string)
    ensures forall i :: 0 <= i < |rs| ==>
      KeyTaps(p, rs)[2 * i] == ForwardKey(KeySym(p, rs[i]), 0, 0)
      && KeyTaps(p, rs)[2 * i + 1] == ForwardKey(KeySym(p, rs[i]), 0, IBusReleaseMask)
  {
    if rs != [] {
      var front := rs[..|rs| - 1];
      KeyTapsPairs(p, front);
      var evs := KeyTaps(p, rs);
      assert evs == KeyTaps(p, front) + [ForwardKey(KeySym(p, rs[|rs| - 1]), 0, 0), ForwardKey(KeySym(p, rs[|rs| - 1]), 0, IBusReleaseMask)];
      forall i | 0 <= i < |rs|
        ensures evs[2 * i] == ForwardKey(KeySym(p, rs[i]), 0, 0) && evs[2 * i + 1] == ForwardKey(KeySym(p, rs[i]), 0, IBusReleaseMask)
      {
        if i < |front| {
          assert front[i] == rs[i];
        }
      }
    }
  }

  /** Typing one more character adds its press and release. */
  lemma KeyTapsSnoc(p: Platform, rs: string, c: char)
    ensures KeyTaps(p, rs + [c]) == KeyTaps(p, rs) + [ForwardKey(KeySym(p, c), 0, 0), ForwardKey(KeySym(p, c), 0, IBusReleaseMask)]
  {
    assert (rs + [c])[..|rs + [c]| - 1] == rs;
  }

  /** What the engine needs to know about the focused application to send to it. */
  datatype Output = Output(platform: Platform, inputMode: int, inBrowser: bool, charset: string)

  /** SendText(rs): nothing for no text; key taps in forward-as-commit mode; one commit otherwise. */
  function TextEvents(o: Output, rs: string): (evs: seq<Event>)
    ensures rs == [] ==> evs == []
    ensures rs != [] && o.inputMode == ForwardAsCommitIM ==> evs == KeyTaps(o.platform, rs)
    ensures rs != [] && o.inputMode != ForwardAsCommitIM ==> evs == [Commit(rs)]
  {
    if |rs| == 0 then []
    else if o.inputMode == ForwardAsCommitIM then KeyTaps(o.platform, rs)
    else CommitEvents(o.charset, rs)
  }

  // ---------------------------------------------------------------------
  // The sending state
  // ---------------------------------------------------------------------

  /** The engine fields that sending changes: the event log, the fake-backspace counter and the dead-key flag. */
  datatype Sender = Sender(events: seq<Event>, nFakeBackSpace: int, isFirstTimeSendingBS: bool)

  /** After SendText(rs). */
  function SendTextStep(o: Output, s: Sender, rs: string): Sender
  {
    s.(events := s.events + TextEvents(o, rs))
  }

  /** After sendBackspaceAndNewRunes(n, rs). */
  function SendBackspaceAndNewRunesStep(o: Output, s: Sender, nBackSpace: nat, rs: string): Sender
  {
    var s' := if nBackSpace > 0 then
      s.(nFakeBackSpace := if o.inputMode == XTestFakeKeyEventIM then nBackSpace else s.nFakeBackSpace,
         events := s.events + BackspaceEvents(o.inputMode, nBackSpace))
    else s;
    SendTextStep(o, s', rs)
  }

  /** Whether the browser-address-bar workaround may apply. */
  function WorkaroundApplies(o: Output, s: Sender): bool
  {
    s.isFirstTimeSendingBS && o.inBrowser && o.inputMode != ShiftLeftForwardingIM
  }

  /** After updatePreviousText(newText, oldText). */
  function UpdatePreviousTextStep(o: Output, s: Sender, newText: string, oldText: string): Sender
  {
    var e := PlanEdit(newText, oldText, WorkaroundApplies(o, s));
    var s' := if e.deadKey then SendTextStep(o, s, " ").(isFirstTimeSendingBS := false) else s;
    SendBackspaceAndNewRunesStep(o, s', e.nBackSpace, e.insert)
  }

  /** sendBackspaceAndNewRunes sets the counter only for a non-zero count in XTest mode, and always sends the text. */
  lemma SendBackspaceAndNewRunesEffect(o: Output, s: Sender, nBackSpace: nat, rs: string)
    ensures var r := SendBackspaceAndNewRunesStep(o, s, nBackSpace, rs);
      && r.nFakeBackSpace == (if nBackSpace > 0 && o.inputMode == XTestFakeKeyEventIM then nBackSpace else s.nFakeBackSpace)
      && r.isFirstTimeSendingBS == s.isFirstTimeSendingBS
      && r.events == s.events + (if nBackSpace > 0 then BackspaceEvents(o.inputMode, nBackSpace) else [])
                              + TextEvents(o, rs)
  {
  }

  /**
   * updatePreviousText: without the workaround it sends |old| - offset
   * backspaces and new[offset..]; with it a space first and one more
   * backspace, and the flag is cleared.  Either way the sent edit turns the
   * old text into the new one.
   */
  lemma UpdatePreviousTextEffect(o: Output, s: Sender, newText: string, oldText: string)
    ensures var r := UpdatePreviousTextStep(o, s, newText, oldText);
      var offset := CommonPrefixLen(newText, oldText);
      var e := PlanEdit(newText, oldText, WorkaroundApplies(o, s));
      && ApplyEdit(oldText, e) == newText
      && (!e.deadKey ==>
           && e.nBackSpace == |oldText| - offset
           && r.isFirstTimeSendingBS == s.isFirstTimeSendingBS
           && r.events == s.events + (if e.nBackSpace > 0 then BackspaceEvents(o.inputMode, e.nBackSpace) else [])
                                   + TextEvents(o, newText[offset..]))
      && (e.deadKey ==>
           && WorkaroundApplies(o, s)
           && e.nBackSpace == |oldText| - offset + 1
           && !r.isFirstTimeSendingBS
           && r.events == s.events + TextEvents(o, " ") + BackspaceEvents(o.inputMode, e.nBackSpace)
                                   + TextEvents(o, newText[offset..]))
  {
  }

  /** Sending only ever adds to the event log. */
  lemma UpdatePreviousTextExtendsLog(o: Output, s: Sender, newText: string, oldText: string)
    ensures s.events <= UpdatePreviousTextStep(o, s, newText, oldText).events
  {
    UpdatePreviousTextEffect(o, s, newText, oldText);
  }
}
