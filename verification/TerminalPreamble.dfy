/**
 * The preamble: the text that recreates the visible modes in a fresh tracker. It does so
 * exactly for flags that print as plain digits; from 10^21 on a number prints with an
 * exponent, and the scanner does not read that back.
 */
module TerminalPreamble {
  import opened Wrappers
  import opened Sequences
  import opened Numerals
  import opened ControlSequences
  import opened TerminalInputMode

  const FRESH: Tracker := Tracker(INITIAL, "")

  // ---------------------------------------------------------------------------
  // The parts
  // ---------------------------------------------------------------------------

  lemma DecimalParams(n: nat)
    ensures IsParams(Decimal(n) + ";1")
    ensures FirstParam(Decimal(n) + ";1") == Some(n) && SecondParam(Decimal(n) + ";1") == Some(1)
  {
    var digits := Decimal(n);
    ParseDecimal(n);
    assert ';' !in digits by {
      assert forall i :: 0 <= i < |digits| ==> IsDigit(digits[i]);
    }
    SplitHead(digits, ';', "1");
    SplitAtom("1", ';');
    assert digits + [';'] + "1" == digits + ";1";
    ParseDecimal(1);
    assert Decimal(1) == "1";
  }

  /** A set sequence with plain digits sets exactly those flags. */
  lemma SetFlags(m: Modes, n: nat)
    requires 0 < n < EXPONENT_FORM_FROM
    ensures Run(Ground, KittyPreamble(n)) == Scanned(Ground, [Kitty("=", PrintNumber(n) + ";1")])
    ensures Apply(m, Kitty("=", PrintNumber(n) + ";1")) == Applied(m.(flags := n), n != m.flags, [])
  {
    var t := Kitty("=", PrintNumber(n) + ";1");
    DecimalParams(n);
    RunSequence(Ground, t);
    assert KittyPreamble(n) == Sequence(t) by {
      assert PrintNumber(n) + ";1u" == PrintNumber(n) + ";1" + "u";
    }
  }

  lemma NumeralHasNoEscape(s: string)
    requires IsNumeral(s)
    ensures ESC !in s
  {
  }

  /** An exponent form: one digit, then a character no sequence body continues with. */
  lemma ExponentFormShape(n: nat)
    ensures var s := ExponentForm(n);
            |s| >= 2 && IsDigit(s[0]) && (s[1] == '.' || s[1] == 'e') && ESC !in s
  {
    var significant := StripTrailingZeros(Decimal(n));
    var exponent := Decimal(|Decimal(n)| - 1);
    NumeralHasNoEscape(significant);
    NumeralHasNoEscape(exponent);
    assert ESC !in significant[1..];
  }

  /** A sequence body that is broken off recognises nothing. */
  lemma RunBrokenSequence(body: string, c: char, rest: string)
    requires IsBody(body) && Step(Csi(body), c) == Scanned(Ground, []) && ESC !in rest
    ensures Run(Ground, [ESC, '['] + body + ([c] + rest)) == Scanned(Ground, [])
  {
    RunAppend(Ground, [ESC, '['] + body, [c] + rest);
    RunBody(Ground, body);
    RunAppend(Csi(body), [c], rest);
    RunOne(Csi(body), c);
    RunWithoutEscape(rest);
  }

  /** A number in exponent form breaks its sequence off: nothing is recognised. */
  lemma ExponentFormIsIgnored(n: nat)
    requires n >= EXPONENT_FORM_FROM
    ensures Run(Ground, KittyPreamble(n)) == Scanned(Ground, [])
  {
    hide ExponentForm;
    hide Run;
    var printed := ExponentForm(n);
    ExponentFormShape(n);
    var body, c, rest := ['=', printed[0]], printed[1], printed[2..] + ";1u";
    assert body[1..] == [printed[0]];
    assert Step(Csi(body), c) == Scanned(Ground, []);
    RunBrokenSequence(body, c, rest);
    assert printed == [printed[0], printed[1]] + printed[2..];
    assert KittyPreamble(n) == [ESC, '['] + body + ([c] + rest);
  }

  predicate PreambleMode(mode: string, value: nat) {
    IsNumeral(mode) && ParseNat(mode) == value
  }

  /** A private mode sequence with one numeral names exactly that mode. */
  lemma SingleMode(mode: string, value: nat)
    requires PreambleMode(mode, value)
    ensures PrivateModes(mode) == {value}
    ensures Run(Ground, ModePreamble(true, mode)) == Scanned(Ground, [PrivateMode(mode, 'h')])
  {
    assert ';' !in mode by {
      assert forall i :: 0 <= i < |mode| ==> IsDigit(mode[i]);
    }
    SplitAtom(mode, ';');
    assert Split(mode, ';')[0] == mode;
    var t := PrivateMode(mode, 'h');
    RunSequence(Ground, t);
    assert ModePreamble(true, mode) == Sequence(t);
  }

  lemma ModeNumerals()
    ensures PreambleMode("9001", WIN32_INPUT_MODE)
    ensures PreambleMode("1", APPLICATION_CURSOR_KEYS_MODE)
    ensures PreambleMode("2004", BRACKETED_PASTE_MODE)
  {
    ParseDecimal(9001);
    assert Decimal(9001) == "9001";
    ParseDecimal(1);
    assert Decimal(1) == "1";
    ParseDecimal(2004);
    assert Decimal(2004) == "2004";
  }

  // ---------------------------------------------------------------------------
  // The whole text
  // ---------------------------------------------------------------------------

  function KittyTokens(flags: nat): seq<Token> {
    if 0 < flags < EXPONENT_FORM_FROM then [Kitty("=", PrintNumber(flags) + ";1")] else []
  }

  function ModeTokens(on: bool, mode: string): seq<Token> {
    if on then [PrivateMode(mode, 'h')] else []
  }

  function PreambleTokens(m: Modes): seq<Token> {
    KittyTokens(m.flags) + ModeTokens(m.win32, "9001") + ModeTokens(m.applicationCursorKeys, "1")
    + ModeTokens(m.bracketedPaste, "2004")
  }

  lemma RunFromGround(a: string, x: seq<Token>, b: string, y: seq<Token>)
    requires Run(Ground, a) == Scanned(Ground, x) && Run(Ground, b) == Scanned(Ground, y)
    ensures Run(Ground, a + b) == Scanned(Ground, x + y)
  {
    RunAppend(Ground, a, b);
  }

  lemma RunModePreamble(on: bool, mode: string, value: nat)
    requires PreambleMode(mode, value)
    ensures Run(Ground, ModePreamble(on, mode)) == Scanned(Ground, ModeTokens(on, mode))
  {
    SingleMode(mode, value);
  }

  lemma RunPreamble(m: Modes)
    ensures Run(Ground, Preamble(m)) == Scanned(Ground, PreambleTokens(m))
  {
    ModeNumerals();
    if m.flags > 0 {
      if m.flags < EXPONENT_FORM_FROM {
        SetFlags(INITIAL, m.flags);
      } else {
        ExponentFormIsIgnored(m.flags);
      }
    }
    RunModePreamble(m.win32, "9001", WIN32_INPUT_MODE);
    RunModePreamble(m.applicationCursorKeys, "1", APPLICATION_CURSOR_KEYS_MODE);
    RunModePreamble(m.bracketedPaste, "2004", BRACKETED_PASTE_MODE);
    var text, tokens := KittyPreamble(m.flags), KittyTokens(m.flags);
    RunFromGround(text, tokens, ModePreamble(m.win32, "9001"), ModeTokens(m.win32, "9001"));
    text, tokens := text + ModePreamble(m.win32, "9001"), tokens + ModeTokens(m.win32, "9001");
    RunFromGround(text, tokens, ModePreamble(m.applicationCursorKeys, "1"), ModeTokens(m.applicationCursorKeys, "1"));
    text := text + ModePreamble(m.applicationCursorKeys, "1");
    tokens := tokens + ModeTokens(m.applicationCursorKeys, "1");
    RunFromGround(text, tokens, ModePreamble(m.bracketedPaste, "2004"), ModeTokens(m.bracketedPaste, "2004"));
  }

  /** The part of the state the preamble carries over. */
  function Replayed(m: Modes): Modes {
    m.(flags := if m.flags < EXPONENT_FORM_FROM then m.flags else 0, stack := [])
  }

  /** One more mode sequence behind those applied so far. */
  lemma ApplyModeTokens(tokens: seq<Token>, on: bool, mode: string, value: nat)
    requires PreambleMode(mode, value)
    ensures var before := ApplyAll(INITIAL, tokens);
            var after := ApplyAll(INITIAL, tokens + ModeTokens(on, mode));
            && after.responses == before.responses
            && after.modes == if on then ApplyPrivate(before.modes, mode, 'h').modes else before.modes
  {
    if on {
      ApplyAllSnoc(INITIAL, tokens, PrivateMode(mode, 'h'));
    } else {
      assert tokens + [] == tokens;
    }
  }

  lemma ApplyKittyTokens(flags: nat)
    ensures var applied := ApplyAll(INITIAL, KittyTokens(flags));
            && applied.modes == INITIAL.(flags := if flags < EXPONENT_FORM_FROM then flags else 0)
            && applied.responses == []
  {
    var tokens := KittyTokens(flags);
    if tokens != [] {
      SetFlags(INITIAL, flags);
      ApplyAllSnoc(INITIAL, [], tokens[0]);
      assert [] + [tokens[0]] == tokens;
    }
  }

  /** Each mode sequence of the preamble switches on its own mode and no other. */
  lemma SwitchOn(m: Modes)
    ensures ApplyPrivate(m, "9001", 'h').modes == m.(win32 := true)
    ensures ApplyPrivate(m, "1", 'h').modes == m.(applicationCursorKeys := true)
    ensures ApplyPrivate(m, "2004", 'h').modes == m.(bracketedPaste := true)
  {
    ModeNumerals();
    SingleMode("9001", WIN32_INPUT_MODE);
    SingleMode("1", APPLICATION_CURSOR_KEYS_MODE);
    SingleMode("2004", BRACKETED_PASTE_MODE);
  }

  lemma ApplyPreamble(m: Modes)
    ensures ApplyAll(INITIAL, PreambleTokens(m)).modes == Replayed(m)
    ensures ApplyAll(INITIAL, PreambleTokens(m)).responses == []
  {
    ModeNumerals();
    var t0 := KittyTokens(m.flags);
    var t1 := t0 + ModeTokens(m.win32, "9001");
    var t2 := t1 + ModeTokens(m.applicationCursorKeys, "1");
    ApplyKittyTokens(m.flags);
    ApplyModeTokens(t0, m.win32, "9001", WIN32_INPUT_MODE);
    SwitchOn(ApplyAll(INITIAL, t0).modes);
    ApplyModeTokens(t1, m.applicationCursorKeys, "1", APPLICATION_CURSOR_KEYS_MODE);
    SwitchOn(ApplyAll(INITIAL, t1).modes);
    ApplyModeTokens(t2, m.bracketedPaste, "2004", BRACKETED_PASTE_MODE);
    SwitchOn(ApplyAll(INITIAL, t2).modes);
  }

  /** What a fresh tracker becomes on a preamble: nothing pending, nothing answered. */
  lemma PreambleReplay(m: Modes)
    ensures var fed := FeedTracker(FRESH, Preamble(m));
            fed.tracker == Tracker(Replayed(m), "") && fed.responses == []
  {
    RunPreamble(m);
    ApplyPreamble(m);
  }

  /** The preamble recreates the visible state exactly when the flags print as plain digits. */
  lemma PreambleRoundTrip(m: Modes)
    ensures StatesEqual(FeedTracker(FRESH, Preamble(m)).tracker.modes, m) <==> m.flags < EXPONENT_FORM_FROM
  {
    PreambleReplay(m);
  }

  /** A set sequence that a tracker accepts, but whose flags no preamble brings back: those of 10^21. */
  lemma HugeFlagsAreLost()
    ensures var sent := [ESC, '['] + ("=" + (Decimal(EXPONENT_FORM_FROM) + ";1")) + "u";
            var fed := FeedTracker(FRESH, sent).tracker;
            && fed == Tracker(INITIAL.(flags := EXPONENT_FORM_FROM), "")
            && !StatesEqual(FeedTracker(FRESH, Preamble(fed.modes)).tracker.modes, fed.modes)
  {
    hide Decimal;
    var params := Decimal(EXPONENT_FORM_FROM) + ";1";
    var token := Kitty("=", params);
    DecimalParams(EXPONENT_FORM_FROM);
    hide FirstParam, SecondParam;
    RunSequence(Ground, token);
    assert [ESC, '['] + ("=" + params) + "u" == Sequence(token);
    assert Apply(INITIAL, token).modes == INITIAL.(flags := EXPONENT_FORM_FROM);
    ApplyAllSnoc(INITIAL, [], token);
    assert [] + [token] == [token];
    hide Run, Apply, ApplyAll, Sequence, Preamble;
    PreambleRoundTrip(INITIAL.(flags := EXPONENT_FORM_FROM));
  }
}
