/**
 * The terminal input mode tracker: the kitty keyboard flags with their stack, three DEC
 * private modes, and the scanner that feeds them from a stream delivered in chunks.
 */
module TerminalInputMode {
  import opened Wrappers
  import opened Sequences
  import opened Numerals
  import opened ControlSequences

  // ---------------------------------------------------------------------------
  // What the sequences do
  // ---------------------------------------------------------------------------

  datatype Modes = Modes(
    flags: nat, stack: seq<nat>, win32: bool, applicationCursorKeys: bool, bracketedPaste: bool)

  const INITIAL: Modes := Modes(0, [], false, false, false)

  const APPLICATION_CURSOR_KEYS_MODE: nat := 1
  const WIN32_INPUT_MODE: nat := 9001
  const BRACKETED_PASTE_MODE: nat := 2004

  /** `terminalInputModeStatesEqual`: the visible state, without the stack. */
  predicate StatesEqual(a: Modes, b: Modes) {
    && a.flags == b.flags
    && a.win32 == b.win32
    && a.applicationCursorKeys == b.applicationCursorKeys
    && a.bracketedPaste == b.bracketedPaste
  }

  /** The comparison sees everything but the stack. */
  lemma StatesEqualExactly(a: Modes, b: Modes)
    ensures StatesEqual(a, b) <==> a.(stack := []) == b.(stack := [])
  {
  }

  function NumeralValue(s: string): Option<nat> {
    if IsNumeral(s) then Some(ParseNat(s)) else None
  }

  function FirstParam(params: string): Option<nat> {
    NumeralValue(Split(params, ';')[0])
  }

  function SecondParam(params: string): Option<nat> {
    var parts := Split(params, ';');
    if |parts| < 2 then None else NumeralValue(parts[1])
  }

  function PrivateModes(params: string): set<nat> {
    var parts := Split(params, ';');
    set i | 0 <= i < |parts| && IsNumeral(parts[i]) :: ParseNat(parts[i])
  }

  function PopOnce(m: Modes): Modes {
    if m.stack == [] then m.(flags := 0)
    else m.(flags := m.stack[|m.stack| - 1], stack := m.stack[..|m.stack| - 1])
  }

  function PopTimes(m: Modes, count: nat): Modes
    decreases count
  {
    if count == 0 then m else PopTimes(PopOnce(m), count - 1)
  }

  function PopCount(params: string): (count: nat)
    ensures count >= 1
  {
    var first := FirstParam(params).GetOr(1);
    if first < 1 then 1 else first
  }

  datatype Applied = Applied(modes: Modes, changed: bool, responses: seq<string>)

  function ApplyKitty(m: Modes, prefix: string, params: string): Applied {
    if prefix == "?" then Applied(m, false, [[ESC, '['] + "?" + PrintNumber(m.flags) + "u"])
    else
      var after :=
        if prefix == ">" then m.(stack := m.stack + [m.flags], flags := FirstParam(params).GetOr(1))
        else if prefix == "=" then
          m.(flags := if SecondParam(params).GetOr(1) == 0 then 0 else FirstParam(params).GetOr(0))
        else if prefix == "<" then PopTimes(m, PopCount(params))
        else m;
      Applied(after, after.flags != m.flags, [])
  }

  function ApplyPrivate(m: Modes, params: string, final: char): Applied {
    var modes := PrivateModes(params);
    var on := final == 'h';
    var after := m.(
      win32 := if WIN32_INPUT_MODE in modes then on else m.win32,
      applicationCursorKeys := if APPLICATION_CURSOR_KEYS_MODE in modes then on else m.applicationCursorKeys,
      bracketedPaste := if BRACKETED_PASTE_MODE in modes then on else m.bracketedPaste);
    Applied(after, after != m, [])
  }

  function Apply(m: Modes, t: Token): Applied {
    match t
    case Kitty(prefix, params) => ApplyKitty(m, prefix, params)
    case PrivateMode(params, final) => ApplyPrivate(m, params, final)
  }

  function Combine(first: Applied, rest: Applied): Applied {
    Applied(rest.modes, first.changed || rest.changed, first.responses + rest.responses)
  }

  /** The left fold of the sequences over the modes. */
  function ApplyAll(m: Modes, tokens: seq<Token>): Applied
    decreases tokens
  {
    if tokens == [] then Applied(m, false, [])
    else
      var first := Apply(m, tokens[0]);
      Combine(first, ApplyAll(first.modes, tokens[1..]))
  }

  lemma {:induction false} ApplyAllAppend(m: Modes, a: seq<Token>, b: seq<Token>)
    ensures ApplyAll(m, a + b) == Combine(ApplyAll(m, a), ApplyAll(ApplyAll(m, a).modes, b))
    decreases a
  {
    if a == [] {
      assert a + b == b;
      assert [] + ApplyAll(m, b).responses == ApplyAll(m, b).responses;
    } else {
      hide Apply;
      assert (a + b)[0] == a[0] && (a + b)[1..] == a[1..] + b;
      var first := Apply(m, a[0]);
      var middle := ApplyAll(first.modes, a[1..]);
      ApplyAllAppend(first.modes, a[1..], b);
      CombineAssociative(first, middle, ApplyAll(middle.modes, b));
    }
  }

  lemma CombineAssociative(a: Applied, b: Applied, c: Applied)
    ensures Combine(a, Combine(b, c)) == Combine(Combine(a, b), c)
  {
    assert a.responses + (b.responses + c.responses) == a.responses + b.responses + c.responses;
  }

  lemma ApplyAllSnoc(m: Modes, tokens: seq<Token>, t: Token)
    ensures ApplyAll(m, tokens + [t]) == Combine(ApplyAll(m, tokens), Apply(ApplyAll(m, tokens).modes, t))
  {
    ApplyAllAppend(m, tokens, [t]);
    var before := ApplyAll(m, tokens).modes;
    assert [t][1..] == [];
    var applied := Apply(before, t);
    assert ApplyAll(before, [t]) == Combine(applied, Applied(applied.modes, false, []));
    assert applied.responses + [] == applied.responses;
  }

  // ---------------------------------------------------------------------------
  // Feeding
  // ---------------------------------------------------------------------------

  datatype Tracker = Tracker(modes: Modes, pending: string)

  datatype FeedResult = FeedResult(tracker: Tracker, changed: bool, responses: seq<string>)

  /** The states a tracker can be in between calls. */
  predicate IsPending(pending: string) {
    pending == "" || (IntroducerAt(pending, 0) && IsBody(pending[2..]))
  }

  function ScanOf(pending: string): Scan
    requires IsPending(pending)
  {
    if pending == "" then Ground else Csi(pending[2..])
  }

  /** One call: fold the sequences the scanner completes, keep the one it is inside of. */
  function FeedTracker(t: Tracker, data: string): FeedResult
    requires IsPending(t.pending)
  {
    var run := Run(ScanOf(t.pending), data);
    var applied := ApplyAll(t.modes, run.tokens);
    FeedResult(Tracker(applied.modes, PendingText(Settle(run.scan))), applied.changed, applied.responses)
  }

  lemma RunPending(pending: string)
    requires IsPending(pending)
    ensures Run(Ground, pending) == Scanned(ScanOf(pending), [])
  {
    if pending != "" {
      assert pending == [ESC, '['] + pending[2..];
      RunBody(Ground, pending[2..]);
    }
  }

  lemma FindAllStep(text: string, from: nat, applied: seq<Token>)
    requires from <= |text| && NextMatch(text, from).Some?
    ensures var m := NextMatch(text, from).value.1;
            && FindAll(text, from).consumed == FindAll(text, m.end).consumed
            && applied + FindAll(text, from).tokens == applied + [m.token] + FindAll(text, m.end).tokens
  {
  }

  /** Searching the pending text with the new data is scanning the new data from where the last call stopped. */
  lemma FedTextSearch(pending: string, data: string)
    requires IsPending(pending)
    ensures FindAll(pending + data, 0).tokens == Run(ScanOf(pending), data).tokens
    ensures PendingOf((pending + data)[FindAll(pending + data, 0).consumed..])
         == PendingText(Settle(Run(ScanOf(pending), data).scan))
  {
    var text := pending + data;
    RunPending(pending);
    RunAppend(Ground, pending, data);
    SearchIsRun(text, 0);
    assert text[0..] == text;
  }

  /** A scanner started between calls always stands in a state with a well-formed body. */
  lemma {:induction false} RunKeepsBody(q: Scan, text: string)
    requires q.Csi? ==> IsBody(q.body)
    ensures Run(q, text).scan.Csi? ==> IsBody(Run(q, text).scan.body)
    decreases text
  {
    if text != "" {
      StepKeepsBody(q, text[0]);
      RunKeepsBody(Step(q, text[0]).scan, text[1..]);
    }
  }

  lemma SettledPending(q: Scan)
    requires q.Csi? ==> IsBody(q.body)
    ensures IsPending(PendingText(Settle(q))) && ScanOf(PendingText(Settle(q))) == Settle(q)
  {
    if q.Csi? {
      assert PendingText(q)[2..] == q.body;
    }
  }

  lemma FeedKeepsPending(t: Tracker, data: string)
    requires IsPending(t.pending)
    ensures IsPending(FeedTracker(t, data).tracker.pending)
  {
    RunKeepsBody(ScanOf(t.pending), data);
    SettledPending(Run(ScanOf(t.pending), data).scan);
  }

  // ---------------------------------------------------------------------------
  // The tracker as the program has it
  // ---------------------------------------------------------------------------

  class TerminalInputModeTracker {
    var kittyKeyboardFlags: nat
    var win32InputMode: bool
    var applicationCursorKeys: bool
    var bracketedPaste: bool
    var kittyKeyboardStack: seq<nat>
    var pending: string

    ghost predicate Valid()
      reads this
    {
      IsPending(pending)
    }

    function Current(): Modes
      reads this
    {
      Modes(kittyKeyboardFlags, kittyKeyboardStack, win32InputMode, applicationCursorKeys, bracketedPaste)
    }

    function State(): Tracker
      reads this
    {
      Tracker(Current(), pending)
    }

    constructor ()
      ensures Valid() && State() == Tracker(INITIAL, "")
    {
      kittyKeyboardFlags, kittyKeyboardStack := 0, [];
      win32InputMode, applicationCursorKeys, bracketedPaste := false, false, false;
      pending := "";
    }

    method Reset()
      modifies this
      ensures Valid() && State() == Tracker(INITIAL, "")
    {
      kittyKeyboardFlags, kittyKeyboardStack := 0, [];
      win32InputMode, applicationCursorKeys, bracketedPaste := false, false, false;
      pending := "";
    }

    method Feed(data: string) returns (changed: bool, responses: seq<string>)
      requires Valid()
      modifies this
      ensures Valid()
      ensures FeedResult(State(), changed, responses) == FeedTracker(old(State()), data)
    {
      if |data| == 0 {
        return false, [];
      }
      var text := pending + data;
      ghost var before := State();
      ghost var run := Run(ScanOf(before.pending), data);
      assert FindAll(text, 0).tokens == run.tokens
          && PendingOf(text[FindAll(text, 0).consumed..]) == PendingText(Settle(run.scan)) by {
        FedTextSearch(before.pending, data);
      }
      FeedKeepsPending(before, data);
      pending := "";
      var consumedUntil;
      consumedUntil, changed, responses := ApplyMatches(text);
      var tail := text[consumedUntil..];
      var pendingStart := LastIntroducer(tail);
      if pendingStart.Some? {
        var rest := tail[pendingStart.value..];
        if IsIncomplete(rest) {
          pending := rest;
        }
      }
      assert pending == PendingOf(tail);
    }

    /** The search loop of `feed`: every match is applied, and the end of the last one reported. */
    method ApplyMatches(text: string) returns (consumedUntil: nat, changed: bool, responses: seq<string>)
      modifies `kittyKeyboardFlags, `kittyKeyboardStack
      modifies `win32InputMode, `applicationCursorKeys, `bracketedPaste
      ensures consumedUntil == FindAll(text, 0).consumed
      ensures Applied(Current(), changed, responses) == ApplyAll(old(Current()), FindAll(text, 0).tokens)
    {
      consumedUntil, changed, responses := 0, false, [];
      ghost var before := Current();
      ghost var all := FindAll(text, 0);
      ghost var applied: seq<Token> := [];
      var next := NextMatch(text, 0);
      while next.Some?
        invariant consumedUntil <= |text| && next == NextMatch(text, consumedUntil)
        invariant all == Found(applied + FindAll(text, consumedUntil).tokens, FindAll(text, consumedUntil).consumed)
        invariant ApplyAll(before, applied) == Applied(Current(), changed, responses)
        decreases |text| - consumedUntil
      {
        var m := next.value.1;
        FindAllStep(text, consumedUntil, applied);
        ApplyAllSnoc(before, applied, m.token);
        consumedUntil := m.end;
        var changedNow, answers := ApplySequence(m.token);
        changed, responses := changed || changedNow, responses + answers;
        applied := applied + [m.token];
        next := NextMatch(text, consumedUntil);
      }
      assert applied == applied + [];
    }

    method ApplySequence(t: Token) returns (changed: bool, responses: seq<string>)
      modifies `kittyKeyboardFlags, `kittyKeyboardStack
      modifies `win32InputMode, `applicationCursorKeys, `bracketedPaste
      ensures Applied(Current(), changed, responses) == Apply(old(Current()), t)
    {
      responses := [];
      match t {
        case PrivateMode(params, final) =>
          changed := ApplyPrivateModeSequence(params, final);
        case Kitty(prefix, params) =>
          changed, responses := ApplyKittyKeyboardSequence(prefix, params);
      }
    }

    /** The pop loop. */
    method PopKeyboard(count: nat)
      modifies `kittyKeyboardFlags, `kittyKeyboardStack
      ensures Current() == PopTimes(old(Current()), count)
    {
      var index := 0;
      while index < count
        invariant index <= count && PopTimes(Current(), count - index) == PopTimes(old(Current()), count)
      {
        if |kittyKeyboardStack| > 0 {
          kittyKeyboardFlags := kittyKeyboardStack[|kittyKeyboardStack| - 1];
          kittyKeyboardStack := kittyKeyboardStack[..|kittyKeyboardStack| - 1];
        } else {
          kittyKeyboardFlags := 0;
        }
        index := index + 1;
      }
    }

    method ApplyKittyKeyboardSequence(prefix: string, params: string)
      returns (changed: bool, responses: seq<string>)
      modifies `kittyKeyboardFlags, `kittyKeyboardStack
      ensures Applied(Current(), changed, responses) == ApplyKitty(old(Current()), prefix, params)
    {
      hide PopTimes, PopCount, FirstParam, SecondParam, PrintNumber;
      var previousFlags := kittyKeyboardFlags;
      responses := [];
      if prefix == ">" {
        kittyKeyboardStack := kittyKeyboardStack + [kittyKeyboardFlags];
        kittyKeyboardFlags := FirstParam(params).GetOr(1);
      } else if prefix == "=" {
        var mode := SecondParam(params).GetOr(1);
        kittyKeyboardFlags := if mode == 0 then 0 else FirstParam(params).GetOr(0);
      } else if prefix == "<" {
        PopKeyboard(PopCount(params));
      } else if prefix == "?" {
        return false, [[ESC, '['] + "?" + PrintNumber(kittyKeyboardFlags) + "u"];
      } else {
        return false, [];
      }
      changed := kittyKeyboardFlags != previousFlags;
    }

    method ApplyPrivateModeSequence(params: string, final: char) returns (changed: bool)
      modifies `win32InputMode, `applicationCursorKeys, `bracketedPaste
      ensures Applied(Current(), changed, []) == ApplyPrivate(old(Current()), params, final)
    {
      var modes := PrivateModes(params);
      changed := false;
      if WIN32_INPUT_MODE in modes {
        var previous := win32InputMode;
        win32InputMode := final == 'h';
        changed := win32InputMode != previous || changed;
      }
      if APPLICATION_CURSOR_KEYS_MODE in modes {
        var previous := applicationCursorKeys;
        applicationCursorKeys := final == 'h';
        changed := applicationCursorKeys != previous || changed;
      }
      if BRACKETED_PASTE_MODE in modes {
        var previous := bracketedPaste;
        bracketedPaste := final == 'h';
        changed := bracketedPaste != previous || changed;
      }
    }

    method GetPreamble() returns (text: string)
      ensures text == Preamble(Current())
    {
      var parts: seq<string> := [];
      if kittyKeyboardFlags > 0 {
        parts := parts + [[ESC, '['] + "=" + PrintNumber(kittyKeyboardFlags) + ";1u"];
      }
      assert Flatten(parts) == KittyPreamble(kittyKeyboardFlags);
      parts := PushMode(parts, win32InputMode, "9001");
      parts := PushMode(parts, applicationCursorKeys, "1");
      parts := PushMode(parts, bracketedPaste, "2004");
      text := Flatten(parts);
    }
  }

  /** Adding one part to the preamble. */
  function PushMode(parts: seq<string>, on: bool, mode: string): (r: seq<string>)
    ensures Flatten(r) == Flatten(parts) + ModePreamble(on, mode)
  {
    var part := [ESC, '['] + "?" + mode + "h";
    FlattenAppend(parts, [part]);
    FlattenOne(part);
    if on then parts + [part] else parts
  }

  function KittyPreamble(flags: nat): string {
    if flags > 0 then [ESC, '['] + "=" + PrintNumber(flags) + ";1u" else ""
  }

  function ModePreamble(on: bool, mode: string): string {
    if on then [ESC, '['] + "?" + mode + "h" else ""
  }

  function Preamble(m: Modes): string {
    KittyPreamble(m.flags) + ModePreamble(m.win32, "9001") + ModePreamble(m.applicationCursorKeys, "1")
    + ModePreamble(m.bracketedPaste, "2004")
  }
}
