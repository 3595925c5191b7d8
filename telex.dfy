/**
 * The Telex composition engine of the core package.
 *
 * An engine keeps a composition: the sequence of transformations that the
 * keystrokes of the current text produced.  A keystroke either appends a
 * transformation that adds a letter ("appending") or adds transformations
 * that put a mark or a tone on earlier letters of the last syllable.
 *
 * In the source a transformation is a heap record reached through pointers,
 * and a transformation's target is a pointer to another one.  Here a
 * transformation is a value with an `id` that stands for its address; the
 * engine hands out ids from a counter, so "a newly allocated record" is
 * "the next id", and pointer equality is id equality.
 *
 * The Vietnamese orthography helpers of the package (splitting off the last
 * word or syllable, flattening to text, validity, generating mark and tone
 * transformations, ...) are not part of this model; they are the
 * function-valued fields of `CoreHelpers`.
 */
module Telex {
  import opened Wrappers

  /** A Go rune: a 32-bit signed code point. */
  type Rune = int

  /** The rendering mode, a set of bit flags (Go `uint`). */
  type Mode = bv64

  const VietnameseMode: Mode := 1
  const EnglishMode: Mode := 2
  const ToneLess: Mode := 4
  const MarkLess: Mode := 8
  const LowerCase: Mode := 16
  const FullText: Mode := 32
  const InReverseOrder: Mode := 64

  /** Engine flag bits (Go `uint`). */
  const EstdToneStyle: bv64 := 1
  const EautoCorrectEnabled: bv64 := 2
  const EstdFlags: bv64 := EstdToneStyle | EautoCorrectEnabled

  /** What a rule does: add a letter, or transform an earlier one (the kind is opaque here). */
  datatype Effect = Appending | Transforming(code: nat)

  /** An input-method rule, triggered by its (lower-case) key. */
  datatype Rule = Rule(key: Rune, effect: Effect)

  /** A transformation record; `id` stands for its address, `target` for the address it points to. */
  datatype Trans = Trans(id: nat, rule: Rule, target: Option<nat>, isUpperCase: bool)

  /** A transformation that a helper has built but that has no address yet. */
  datatype Template = Template(rule: Rule, target: Option<nat>, isUpperCase: bool)

  datatype InputMethod = InputMethod(
    name: string,
    rules: seq<Rule>,
    superKeys: seq<Rune>,
    toneKeys: seq<Rune>,
    appendingKeys: seq<Rune>,
    keys: seq<Rune>)

  /**
   * The helpers of the core package (and of Go's `unicode` package) whose
   * source is not part of this model.  A helper that allocates records
   * receives the first free id so that its templates can refer to the
   * records being created.
   */
  datatype CoreHelpers = CoreHelpers(
    // extractLastWord(c, keys) splits c at this index
    lastWordStart: (seq<Trans>, seq<Rune>) -> nat,
    // extractLastSyllable(c) splits c at this index
    lastSyllableStart: seq<Trans> -> nat,
    flatten: (seq<Trans>, Mode) -> string,
    isValid: (seq<Trans>, bool) -> bool,
    // the engine's generateTransformations: syllable, applicable rules, flags, key, upper case, first free id
    generate: (seq<Trans>, seq<Rule>, bv64, Rune, bool, nat) -> seq<Template>,
    // the package-level refreshLastToneTarget: syllable, standard tone style, first free id
    refreshLastToneTarget: (seq<Trans>, bool, nat) -> seq<Template>,
    breakComposition: (seq<Trans>, nat) -> seq<Template>,
    canProcessKey: (Rune, seq<Rune>) -> bool,
    isWordBreakSymbol: Rune -> bool,
    isPunctuationMark: Rune -> bool,
    hasAnyVietnameseRune: string -> bool,
    parseInputMethod: (map<string, map<string, string>>, string) -> InputMethod,
    toLower: Rune -> Rune,
    isUpper: Rune -> bool)

  /** What an engine is built from; none of it changes during the engine's life. */
  datatype Setup = Setup(helpers: CoreHelpers, inputMethod: InputMethod, flags: bv64)

  /** The mutable part of an engine: its composition and the next free address. */
  datatype Composed = Composed(composition: seq<Trans>, nextId: nat)

  // ---------------------------------------------------------------------
  // Addresses
  // ---------------------------------------------------------------------

  /** Every record of `c` has an address below `next`, and no two records share one. */
  ghost predicate FreshIds(c: seq<Trans>, next: nat)
  {
    && (forall i :: 0 <= i < |c| ==> c[i].id < next)
    && (forall i, j :: 0 <= i < j < |c| ==> c[i].id != c[j].id)
  }

  /** Allocates the templates `ts` at consecutive addresses from `from` on. */
  function Stamp(ts: seq<Template>, from: nat): (r: seq<Trans>)
    ensures |r| == |ts|
    ensures forall i :: 0 <= i < |r| ==>
      r[i] == Trans(from + i, ts[i].rule, ts[i].target, ts[i].isUpperCase)
  {
    if ts == [] then []
    else [Trans(from, ts[0].rule, ts[0].target, ts[0].isUpperCase)] + Stamp(ts[1..], from + 1)
  }

  /** Fresh allocations keep addresses distinct. */
  lemma {:induction false} FreshAfterStamp(c: seq<Trans>, next: nat, ts: seq<Template>)
    requires FreshIds(c, next)
    ensures FreshIds(c + Stamp(ts, next), next + |ts|)
  {
    var r := c + Stamp(ts, next);
    forall i, j | 0 <= i < j < |r| ensures r[i].id != r[j].id {
      if j >= |c| {
        assert r[j].id == next + (j - |c|);
        if i < |c| { assert r[i].id < next; }
      }
    }
  }

  /** A record whose address is below `next` and unused may be added at either end. */
  lemma FreshExtend(c: seq<Trans>, next: nat, t: Trans)
    requires FreshIds(c, next) && t.id < next
    requires forall i :: 0 <= i < |c| ==> c[i].id != t.id
    ensures FreshIds(c + [t], next) && FreshIds([t] + c, next)
  {
    var r, l := c + [t], [t] + c;
    forall i | 0 <= i < |r| ensures r[i].id < next && l[i].id < next {
      if i < |c| { assert r[i] == c[i]; }
      if i > 0 { assert l[i] == c[i - 1]; }
    }
    forall i, j | 0 <= i < j < |r| ensures r[i].id != r[j].id && l[i].id != l[j].id {
      assert r[i] == c[i];
      assert l[j] == c[j - 1];
      if j < |c| { assert r[j] == c[j]; }
      if i > 0 { assert l[i] == c[i - 1]; }
    }
  }

  /** The record allocated at `next` may be added at either end. */
  lemma FreshExtendNew(c: seq<Trans>, next: nat, t: Trans)
    requires FreshIds(c, next) && t.id == next
    ensures FreshIds(c + [t], next + 1) && FreshIds([t] + c, next + 1)
  {
    assert FreshIds(c, next + 1);
    FreshExtend(c, next + 1, t);
  }

  /** A prefix of a composition with distinct addresses has distinct addresses. */
  lemma FreshPrefix(c: seq<Trans>, next: nat, k: nat)
    requires FreshIds(c, next) && k <= |c|
    ensures FreshIds(c[..k], next)
  {
  }

  // ---------------------------------------------------------------------
  // Splitting and searching
  // ---------------------------------------------------------------------

  /** Splits `c` at `k`, or keeps all of `c` in front when `k` is past its end. */
  function SplitAt(c: seq<Trans>, k: nat): (r: (seq<Trans>, seq<Trans>))
    ensures r.0 + r.1 == c
    ensures k <= |c| ==> |r.0| == k
  {
    var j := if k <= |c| then k else |c|;
    (c[..j], c[j..])
  }

  /** extractLastWord: the composition before the last word, and the last word. */
  function ExtractLastWord(st: Setup, c: seq<Trans>): (r: (seq<Trans>, seq<Trans>))
    ensures r.0 + r.1 == c
  {
    SplitAt(c, st.helpers.lastWordStart(c, st.inputMethod.keys))
  }

  /** extractLastSyllable: the composition before the last syllable, and the last syllable. */
  function ExtractLastSyllable(st: Setup, c: seq<Trans>): (r: (seq<Trans>, seq<Trans>))
    ensures r.0 + r.1 == c
  {
    SplitAt(c, st.helpers.lastSyllableStart(c))
  }

  predicate IsAppending(t: Trans)
  {
    t.rule.effect.Appending?
  }

  /** findLastAppendingTrans: the position of the last appending transformation, if any. */
  function LastAppending(c: seq<Trans>): (r: Option<nat>)
    ensures r.Some? ==> r.value < |c| && IsAppending(c[r.value])
    ensures r.Some? ==> forall j :: r.value < j < |c| ==> !IsAppending(c[j])
    ensures r.None? ==> forall j :: 0 <= j < |c| ==> !IsAppending(c[j])
  {
    if c == [] then None
    else if IsAppending(c[|c| - 1]) then Some(|c| - 1)
    else LastAppending(c[..|c| - 1])
  }

  /** The rules of `rules` whose key is `key`, in their original order. */
  function RulesFor(rules: seq<Rule>, key: Rune): seq<Rule>
  {
    if rules == [] then []
    else
      var last := rules[|rules| - 1];
      RulesFor(rules[..|rules| - 1], key) + (if last.key == key then [last] else [])
  }

  /** A rule is selected exactly when it is one of the rules and has the key. */
  lemma {:induction false} RulesForMembers(rules: seq<Rule>, key: Rune, r: Rule)
    ensures r in RulesFor(rules, key) <==> r in rules && r.key == key
  {
    if rules != [] {
      var front := rules[..|rules| - 1];
      RulesForMembers(front, key, r);
      assert rules == front + [rules[|rules| - 1]];
    }
  }

  /** Selecting from a concatenation selects from each part, keeping the order. */
  lemma {:induction false} RulesForConcat(a: seq<Rule>, b: seq<Rule>, key: Rune)
    ensures RulesFor(a + b, key) == RulesFor(a, key) + RulesFor(b, key)
  {
    if b == [] {
      assert a + b == a;
    } else {
      var front := b[..|b| - 1];
      assert (a + b)[..|a + b| - 1] == a + front;
      assert (a + b)[|a + b| - 1] == b[|b| - 1];
      RulesForConcat(a, front, key);
    }
  }

  /** The transformations of `ts` other than record `id` and those that target it. */
  function Without(ts: seq<Trans>, id: nat): seq<Trans>
  {
    if ts == [] then []
    else
      var last := ts[|ts| - 1];
      Without(ts[..|ts| - 1], id) + (if Affects(last, id) then [] else [last])
  }

  predicate Affects(t: Trans, id: nat)
  {
    t.target == Some(id) || t.id == id
  }

  /** A transformation survives exactly when it neither is record `id` nor targets it. */
  lemma {:induction false} WithoutMembers(ts: seq<Trans>, id: nat, t: Trans)
    ensures t in Without(ts, id) <==> t in ts && !Affects(t, id)
  {
    if ts != [] {
      var front := ts[..|ts| - 1];
      WithoutMembers(front, id, t);
      assert ts == front + [ts[|ts| - 1]];
    }
  }

  /** Filtering a concatenation filters each part: survivors keep their relative order. */
  lemma {:induction false} WithoutConcat(a: seq<Trans>, b: seq<Trans>, id: nat)
    ensures Without(a + b, id) == Without(a, id) + Without(b, id)
  {
    if b == [] {
      assert a + b == a;
    } else {
      var front := b[..|b| - 1];
      assert (a + b)[..|a + b| - 1] == a + front;
      assert (a + b)[|a + b| - 1] == b[|b| - 1];
      WithoutConcat(a, front, id);
    }
  }

  /** Filtering the tail of a composition keeps its addresses distinct. */
  lemma {:induction false} FreshWithout(prefix: seq<Trans>, ts: seq<Trans>, id: nat, next: nat)
    requires FreshIds(prefix + ts, next)
    ensures FreshIds(prefix + Without(ts, id), next)
  {
    if ts != [] {
      var front := ts[..|ts| - 1];
      var x := ts[|ts| - 1];
      assert prefix + ts == (prefix + front) + [x];
      assert FreshIds(prefix + front, next) by {
        assert prefix + front == (prefix + ts)[..|prefix| + |front|];
      }
      FreshWithout(prefix, front, id, next);
      if !Affects(x, id) {
        var r := prefix + Without(front, id);
        assert x.id < next by { assert (prefix + ts)[|prefix| + |front|] == x; }
        forall i | 0 <= i < |r| ensures r[i].id != x.id {
          if i < |prefix| {
            assert (prefix + ts)[i] == r[i];
            assert (prefix + ts)[i].id != (prefix + ts)[|prefix| + |front|].id;
          } else {
            var t := r[i];
            assert t in Without(front, id);
            WithoutMembers(front, id, t);
            var k :| 0 <= k < |front| && front[k] == t;
            assert (prefix + ts)[|prefix| + k] == t;
            assert (prefix + ts)[|prefix| + |front|] == x;
            assert (prefix + ts)[|prefix| + k].id != (prefix + ts)[|prefix| + |front|].id;
          }
        }
        FreshExtend(r, next, x);
        assert prefix + Without(ts, id) == r + [x];
      } else {
        assert prefix + Without(ts, id) == prefix + Without(front, id);
      }
    }
  }

  // ---------------------------------------------------------------------
  // The operations, as functions of the engine state
  // ---------------------------------------------------------------------

  /** newAppendingTrans: a record at address `id` that adds the letter `key`. */
  function NewAppendingTrans(id: nat, key: Rune, isUpperCase: bool): (t: Trans)
    ensures t.id == id && IsAppending(t) && t.rule.key == key && t.target == None && t.isUpperCase == isUpperCase
  {
    Trans(id, Rule(key, Appending), None, isUpperCase)
  }

  function CanProcess(st: Setup, key: Rune): bool
  {
    st.helpers.canProcessKey(key, st.inputMethod.keys)
  }

  /** getApplicableRules: the input method's rules for the lower case of `key`. */
  function ApplicableRules(st: Setup, key: Rune): seq<Rule>
  {
    RulesFor(st.inputMethod.rules, st.helpers.toLower(key))
  }

  /** The engine's refreshLastToneTarget: only a valid syllable has its tone moved. */
  function RefreshLastToneTarget(st: Setup, syllable: seq<Trans>, firstId: nat): seq<Template>
  {
    if st.helpers.isValid(syllable, false)
    then st.helpers.refreshLastToneTarget(syllable, st.flags & EstdToneStyle != 0, firstId)
    else []
  }

  /** What GetProcessedString(mode) renders: the whole composition with FullText, otherwise its last word. */
  function ProcessedString(st: Setup, c: seq<Trans>, mode: Mode): (r: string)
    ensures mode & FullText != 0 ==> r == st.helpers.flatten(c, mode)
    ensures mode & FullText == 0 ==> r == st.helpers.flatten(ExtractLastWord(st, c).1, mode)
  {
    st.helpers.flatten(if mode & FullText != 0 then c else ExtractLastWord(st, c).1, mode)
  }

  /** What IsValid(full) decides: whether the last word of `c` is a valid Vietnamese word. */
  function IsValidWord(st: Setup, c: seq<Trans>, inputIsFullComplete: bool): (r: bool)
    ensures r == st.helpers.isValid(ExtractLastWord(st, c).1, inputIsFullComplete)
  {
    st.helpers.isValid(ExtractLastWord(st, c).1, inputIsFullComplete)
  }

  /** The state after ProcessKey(key, mode). */
  function ProcessKeyStep(st: Setup, s: Composed, key: Rune, mode: Mode): Composed
  {
    var lowerKey := st.helpers.toLower(key);
    var isUpperCase := st.helpers.isUpper(key);
    if mode & EnglishMode != 0 || !CanProcess(st, lowerKey) then
      var t := NewAppendingTrans(s.nextId, lowerKey, isUpperCase);
      if mode & InReverseOrder != 0 then Composed([t] + s.composition, s.nextId + 1)
      else Composed(s.composition + [t], s.nextId + 1)
    else
      var split := ExtractLastSyllable(st, s.composition);
      var generated := Stamp(st.helpers.generate(split.1, ApplicableRules(st, lowerKey), st.flags,
                                                 lowerKey, isUpperCase, s.nextId), s.nextId);
      Composed(split.0 + (split.1 + generated), s.nextId + |generated|)
  }

  /** The state after ProcessString(str, mode): ProcessKey on each rune, first to last. */
  function ProcessStringStep(st: Setup, s: Composed, str: string, mode: Mode): Composed
    decreases |str|
  {
    if str == [] then s
    else ProcessKeyStep(st, ProcessStringStep(st, s, str[..|str| - 1], mode), str[|str| - 1] as int, mode)
  }

  /** The state after RestoreLastWord(). */
  function RestoreLastWordStep(st: Setup, s: Composed): Composed
  {
    var split := ExtractLastWord(st, s.composition);
    if |split.1| == 0 then s
    else
      var broken := Stamp(st.helpers.breakComposition(split.1, s.nextId), s.nextId);
      Composed(split.0 + broken, s.nextId + |broken|)
  }

  /** The state after RemoveLastChar(refresh). */
  function RemoveLastCharStep(st: Setup, s: Composed, refresh: bool): Composed
  {
    match LastAppending(s.composition)
    case None => s
    case Some(k) =>
      var lastAppending := s.composition[k];
      if !CanProcess(st, lastAppending.rule.key) then
        Composed(s.composition[..|s.composition| - 1], s.nextId)
      else
        var split := ExtractLastWord(st, s.composition);
        var newComb := Without(split.1, lastAppending.id);
        var extra := if refresh then Stamp(RefreshLastToneTarget(st, newComb, s.nextId), s.nextId) else [];
        Composed(split.0 + (newComb + extra), s.nextId + |extra|)
  }

  // ---------------------------------------------------------------------
  // Properties of the operations
  // ---------------------------------------------------------------------

  /**
   * In English mode, or for a key the input method cannot process, a key
   * adds exactly one appending record holding its lower case: at the end, or
   * at the front in reverse order; the other records stay as they were.
   */
  lemma ProcessKeyAppends(st: Setup, s: Composed, key: Rune, mode: Mode)
    requires mode & EnglishMode != 0 || !CanProcess(st, st.helpers.toLower(key))
    ensures var r := ProcessKeyStep(st, s, key, mode);
      var t := NewAppendingTrans(s.nextId, st.helpers.toLower(key), st.helpers.isUpper(key));
      && |r.composition| == |s.composition| + 1
      && r.nextId == s.nextId + 1
      && (mode & InReverseOrder == 0 ==>
            r.composition[..|s.composition|] == s.composition && r.composition[|s.composition|] == t)
      && (mode & InReverseOrder != 0 ==>
            r.composition[0] == t && r.composition[1..] == s.composition)
  {
  }

  /**
   * In Vietnamese mode, a processable key keeps every record up to the end
   * of the last syllable and only adds records after it.
   */
  lemma ProcessKeyExtendsLastSyllable(st: Setup, s: Composed, key: Rune, mode: Mode)
    requires mode & EnglishMode == 0 && CanProcess(st, st.helpers.toLower(key))
    ensures var r := ProcessKeyStep(st, s, key, mode);
      var split := ExtractLastSyllable(st, s.composition);
      && r.composition[..|split.0|] == split.0
      && r.composition[|split.0|..|s.composition|] == split.1
      && r.composition[..|s.composition|] == s.composition
      && r.nextId == s.nextId + (|r.composition| - |s.composition|)
  {
    var r := ProcessKeyStep(st, s, key, mode);
    var split := ExtractLastSyllable(st, s.composition);
    var lowerKey := st.helpers.toLower(key);
    var generated := Stamp(st.helpers.generate(split.1, ApplicableRules(st, lowerKey), st.flags,
                                               lowerKey, st.helpers.isUpper(key), s.nextId), s.nextId);
    assert r == Composed(split.0 + (split.1 + generated), s.nextId + |generated|);
    assert r.composition == s.composition + generated;
    assert r.composition[..|s.composition|] == s.composition;
    assert r.composition[..|split.0|] == split.0;
    assert r.composition[|split.0|..|s.composition|] == split.1;
  }

  /** Every key keeps the addresses of the composition distinct. */
  lemma ProcessKeyFresh(st: Setup, s: Composed, key: Rune, mode: Mode)
    requires FreshIds(s.composition, s.nextId)
    ensures var r := ProcessKeyStep(st, s, key, mode); FreshIds(r.composition, r.nextId)
  {
    var lowerKey := st.helpers.toLower(key);
    if mode & EnglishMode != 0 || !CanProcess(st, lowerKey) {
      FreshExtendNew(s.composition, s.nextId, NewAppendingTrans(s.nextId, lowerKey, st.helpers.isUpper(key)));
    } else {
      var split := ExtractLastSyllable(st, s.composition);
      var ts := st.helpers.generate(split.1, ApplicableRules(st, lowerKey), st.flags,
                                    lowerKey, st.helpers.isUpper(key), s.nextId);
      FreshAfterStamp(s.composition, s.nextId, ts);
      assert split.0 + (split.1 + Stamp(ts, s.nextId)) == s.composition + Stamp(ts, s.nextId);
    }
  }

  /** Processing `a + b` is processing `a` and then `b`. */
  lemma {:induction false} ProcessStringConcat(st: Setup, s: Composed, a: string, b: string, mode: Mode)
    ensures ProcessStringStep(st, s, a + b, mode)
         == ProcessStringStep(st, ProcessStringStep(st, s, a, mode), b, mode)
  {
    if b == [] {
      assert a + b == a;
    } else {
      var front := b[..|b| - 1];
      assert (a + b)[..|a + b| - 1] == a + front;
      assert (a + b)[|a + b| - 1] == b[|b| - 1];
      ProcessStringConcat(st, s, a, front, mode);
    }
  }

  /**
   * In English mode (and in order), ProcessString appends one appending
   * record per rune of the text, in the order of the text.
   */
  lemma {:induction false} ProcessStringEnglish(st: Setup, s: Composed, str: string, mode: Mode)
    requires mode & EnglishMode != 0 && mode & InReverseOrder == 0
    ensures var r := ProcessStringStep(st, s, str, mode);
      && |r.composition| == |s.composition| + |str|
      && r.nextId == s.nextId + |str|
      && r.composition[..|s.composition|] == s.composition
      && forall i :: 0 <= i < |str| ==>
           r.composition[|s.composition| + i]
             == NewAppendingTrans(s.nextId + i, st.helpers.toLower(str[i] as int), st.helpers.isUpper(str[i] as int))
  {
    if str != [] {
      var front := str[..|str| - 1];
      ProcessStringEnglish(st, s, front, mode);
      var m := ProcessStringStep(st, s, front, mode);
      var r := ProcessStringStep(st, s, str, mode);
      assert r == ProcessKeyStep(st, m, str[|str| - 1] as int, mode);
      assert r.composition == m.composition + [r.composition[|m.composition|]];
      forall i | 0 <= i < |str|
        ensures r.composition[|s.composition| + i]
             == NewAppendingTrans(s.nextId + i, st.helpers.toLower(str[i] as int), st.helpers.isUpper(str[i] as int))
      {
        if i < |front| {
          assert str[i] == front[i];
          assert r.composition[|s.composition| + i] == m.composition[|s.composition| + i];
        }
      }
    }
  }

  /** Removing a character keeps the addresses of the composition distinct. */
  lemma RemoveLastCharFresh(st: Setup, s: Composed, refresh: bool)
    requires FreshIds(s.composition, s.nextId)
    ensures var r := RemoveLastCharStep(st, s, refresh); FreshIds(r.composition, r.nextId)
  {
    var found := LastAppending(s.composition);
    if found.Some? {
      var lastAppending := s.composition[found.value];
      if !CanProcess(st, lastAppending.rule.key) {
        FreshPrefix(s.composition, s.nextId, |s.composition| - 1);
      } else {
        var split := ExtractLastWord(st, s.composition);
        var newComb := Without(split.1, lastAppending.id);
        var ts := if refresh then RefreshLastToneTarget(st, newComb, s.nextId) else [];
        RemoveLetterFresh(split.0, split.1, lastAppending.id, s.nextId, ts);
        assert !refresh ==> Stamp(ts, s.nextId) == [];
      }
    }
  }

  /** The general case of RemoveLastCharFresh: filter the last word, then allocate `ts`. */
  lemma RemoveLetterFresh(previous: seq<Trans>, lastComb: seq<Trans>, id: nat, next: nat, ts: seq<Template>)
    requires FreshIds(previous + lastComb, next)
    ensures FreshIds(previous + (Without(lastComb, id) + Stamp(ts, next)), next + |ts|)
  {
    var newComb := Without(lastComb, id);
    FreshWithout(previous, lastComb, id, next);
    FreshAfterStamp(previous + newComb, next, ts);
    assert previous + (newComb + Stamp(ts, next)) == (previous + newComb) + Stamp(ts, next);
  }

  /**
   * RemoveLastChar leaves the composition alone when nothing was appended,
   * and drops exactly the final record when the last appended key is one the
   * input method cannot process.
   */
  lemma RemoveLastCharTrivialCases(st: Setup, s: Composed, refresh: bool)
    ensures LastAppending(s.composition).None? ==> RemoveLastCharStep(st, s, refresh) == s
    ensures LastAppending(s.composition).Some? ==>
      var la := s.composition[LastAppending(s.composition).value];
      !CanProcess(st, la.rule.key) ==>
        RemoveLastCharStep(st, s, refresh) == Composed(s.composition[..|s.composition| - 1], s.nextId)
  {
  }

  /**
   * Otherwise RemoveLastChar keeps the records before the last word, and of
   * the last word keeps exactly the records that neither are the last
   * appending record nor target it, in their original order, followed by
   * the refreshed tone records (none unless `refresh`).
   */
  lemma RemoveLastCharRemovesLetter(st: Setup, s: Composed, refresh: bool)
    requires LastAppending(s.composition).Some?
    requires CanProcess(st, s.composition[LastAppending(s.composition).value].rule.key)
    ensures var la := s.composition[LastAppending(s.composition).value];
      var split := ExtractLastWord(st, s.composition);
      var r := RemoveLastCharStep(st, s, refresh);
      var kept := Without(split.1, la.id);
      && r.composition[..|split.0|] == split.0
      && r.composition[|split.0|..|split.0| + |kept|] == kept
      && (!refresh ==> r.composition == split.0 + kept && r.nextId == s.nextId)
      && (forall t :: t in kept <==> t in split.1 && t.id != la.id && t.target != Some(la.id))
  {
    var la := s.composition[LastAppending(s.composition).value];
    var split := ExtractLastWord(st, s.composition);
    forall t ensures t in Without(split.1, la.id) <==> t in split.1 && t.id != la.id && t.target != Some(la.id) {
      WithoutMembers(split.1, la.id, t);
    }
  }

  /** Restoring the last word keeps the addresses of the composition distinct. */
  lemma RestoreLastWordFresh(st: Setup, s: Composed)
    requires FreshIds(s.composition, s.nextId)
    ensures var r := RestoreLastWordStep(st, s); FreshIds(r.composition, r.nextId)
  {
    var split := ExtractLastWord(st, s.composition);
    if |split.1| != 0 {
      FreshPrefix(s.composition, s.nextId, |split.0|);
      assert split.0 == s.composition[..|split.0|];
      FreshAfterStamp(split.0, s.nextId, st.helpers.breakComposition(split.1, s.nextId));
    }
  }

  /** RestoreLastWord keeps the records before the last word and does nothing when the last word is empty. */
  lemma RestoreLastWordKeepsPrefix(st: Setup, s: Composed)
    ensures var split := ExtractLastWord(st, s.composition);
      var r := RestoreLastWordStep(st, s);
      && (|split.1| == 0 ==> r == s)
      && r.composition[..|split.0|] == split.0
  {
  }

  // ---------------------------------------------------------------------
  // The engine object
  // ---------------------------------------------------------------------

  class TelexEngine {
    const setup: Setup
    var composition: seq<Trans>
    var nextId: nat

    function State(): Composed
      reads this
    {
      Composed(composition, nextId)
    }

    ghost predicate Valid()
      reads this
    {
      FreshIds(composition, nextId)
    }

    /** NewEngine: an engine with an empty composition. */
    constructor (inputMethod: InputMethod, flags: bv64, helpers: CoreHelpers)
      ensures Valid()
      ensures setup.inputMethod == inputMethod && setup.flags == flags && setup.helpers == helpers
      ensures composition == []
    {
      setup := Setup(helpers, inputMethod, flags);
      composition := [];
      nextId := 0;
    }

    function GetInputMethod(): InputMethod
    {
      setup.inputMethod
    }

    /** CanProcessKey: the core's canProcessKey over the input method's keys. */
    function CanProcessKey(key: Rune): (r: bool)
      ensures r == setup.helpers.canProcessKey(key, setup.inputMethod.keys)
    {
      CanProcess(setup, key)
    }

    /** IsValid: whether the last word is a valid Vietnamese word. */
    function IsValid(inputIsFullComplete: bool): (r: bool)
      reads this
      ensures r == setup.helpers.isValid(ExtractLastWord(setup, composition).1, inputIsFullComplete)
    {
      IsValidWord(setup, composition, inputIsFullComplete)
    }

    /** GetProcessedString: the whole composition with FullText, otherwise its last word, flattened. */
    function GetProcessedString(mode: Mode): (r: string)
      reads this
      ensures mode & FullText != 0 ==> r == setup.helpers.flatten(composition, mode)
      ensures mode & FullText == 0 ==> r == setup.helpers.flatten(ExtractLastWord(setup, composition).1, mode)
    {
      ProcessedString(setup, composition, mode)
    }

    /** getApplicableRules: the rules for the lower case of `key`, in the input method's order. */
    method GetApplicableRules(key: Rune) returns (applicableRules: seq<Rule>)
      ensures applicableRules == ApplicableRules(setup, key)
      ensures forall r :: r in applicableRules <==> r in setup.inputMethod.rules && r.key == setup.helpers.toLower(key)
    {
      var rules := setup.inputMethod.rules;
      var lowerKey := setup.helpers.toLower(key);
      applicableRules := [];
      for i := 0 to |rules|
        invariant applicableRules == RulesFor(rules[..i], lowerKey)
      {
        assert rules[..i + 1][..i] == rules[..i];
        if rules[i].key == lowerKey {
          applicableRules := applicableRules + [rules[i]];
        }
      }
      assert rules[..|rules|] == rules;
      forall r ensures r in applicableRules <==> r in rules && r.key == lowerKey {
        RulesForMembers(rules, lowerKey, r);
      }
    }

    method ProcessKey(key: Rune, mode: Mode)
      requires Valid()
      modifies this
      ensures Valid()
      ensures State() == ProcessKeyStep(setup, old(State()), key, mode)
    {
      ProcessKeyFresh(setup, State(), key, mode);
      var lowerKey := setup.helpers.toLower(key);
      var isUpperCase := setup.helpers.isUpper(key);
      if mode & EnglishMode != 0 || !CanProcessKey(lowerKey) {
        var t := NewAppendingTrans(nextId, lowerKey, isUpperCase);
        if mode & InReverseOrder != 0 {
          composition := [t] + composition;
        } else {
          composition := composition + [t];
        }
        nextId := nextId + 1;
        return;
      }
      var split := ExtractLastSyllable(setup, composition);
      var previousTransformations, lastSyllable := split.0, split.1;
      var rules := GetApplicableRules(lowerKey);
      var generated := Stamp(setup.helpers.generate(lastSyllable, rules, setup.flags, lowerKey, isUpperCase, nextId), nextId);
      lastSyllable := lastSyllable + generated;
      composition := previousTransformations + lastSyllable;
      nextId := nextId + |generated|;
    }

    method ProcessString(str: string, mode: Mode)
      requires Valid()
      modifies this
      ensures Valid()
      ensures State() == ProcessStringStep(setup, old(State()), str, mode)
    {
      for i := 0 to |str|
        invariant Valid()
        invariant State() == ProcessStringStep(setup, old(State()), str[..i], mode)
      {
        assert str[..i + 1][..i] == str[..i];
        ProcessKey(str[i] as int, mode);
      }
      assert str[..|str|] == str;
    }

    method RestoreLastWord()
      requires Valid()
      modifies this
      ensures Valid()
      ensures State() == RestoreLastWordStep(setup, old(State()))
    {
      RestoreLastWordFresh(setup, State());
      var split := ExtractLastWord(setup, composition);
      var previous, lastComb := split.0, split.1;
      if |lastComb| == 0 {
        return;
      }
      var broken := Stamp(setup.helpers.breakComposition(lastComb, nextId), nextId);
      composition := previous + broken;
      nextId := nextId + |broken|;
    }

    method Reset()
      modifies this
      ensures Valid()
      ensures composition == [] && nextId == old(nextId)
    {
      composition := [];
    }

    /**
     * Finds the last appending record and removes it together with every
     * record that adds an effect to it.
     */
    method RemoveLastChar(refreshLastToneTarget: bool)
      requires Valid()
      modifies this
      ensures Valid()
      ensures State() == RemoveLastCharStep(setup, old(State()), refreshLastToneTarget)
    {
      RemoveLastCharFresh(setup, State(), refreshLastToneTarget);
      var found := LastAppending(composition);
      if found.None? {
        return;
      }
      var lastAppending := composition[found.value];
      if !CanProcessKey(lastAppending.rule.key) {
        composition := composition[..|composition| - 1];
        return;
      }
      var split := ExtractLastWord(setup, composition);
      var previous, lastComb := split.0, split.1;
      var newComb: seq<Trans> := [];
      for i := 0 to |lastComb|
        invariant newComb == Without(lastComb[..i], lastAppending.id)
      {
        assert lastComb[..i + 1][..i] == lastComb[..i];
        var t := lastComb[i];
        if t.target == Some(lastAppending.id) || t.id == lastAppending.id {
          continue;
        }
        newComb := newComb + [t];
      }
      assert lastComb[..|lastComb|] == lastComb;
      var extra: seq<Trans> := [];
      if refreshLastToneTarget {
        extra := Stamp(RefreshLastToneTarget(setup, newComb, nextId), nextId);
      }
      composition := previous + (newComb + extra);
      nextId := nextId + |extra|;
    }
  }
}
