/**
 * What a tracker makes of one sequence, said from its characters: the parameters are numerals
 * between semicolons, each of which may be missing.
 */
module TerminalReading {
  import opened Wrappers
  import opened Sequences
  import opened Numerals
  import opened ControlSequences
  import opened TerminalInputMode
  import opened KittyStack

  /** Parameters: at least one, each a numeral or nothing. */
  predicate AreParams(parts: seq<string>) {
    |parts| > 0 && forall i :: 0 <= i < |parts| ==> forall k :: 0 <= k < |parts[i]| ==> IsDigit(parts[i][k])
  }

  /** The number given at a place, if there is one. */
  function Given(parts: seq<string>, i: nat): Option<nat>
    requires AreParams(parts)
  {
    if i < |parts| && parts[i] != "" then Some(ParseNat(parts[i])) else None
  }

  predicate Lists(parts: seq<string>, n: nat)
    requires AreParams(parts)
  {
    exists i: nat :: i < |parts| && Given(parts, i) == Some(n)
  }

  /** A tracker between two sequences reads a text. */
  function Reads(m: Modes, text: string): FeedResult {
    FeedTracker(Tracker(m, ""), text)
  }

  lemma {:induction false} JoinedParams(parts: seq<string>)
    requires AreParams(parts)
    ensures IsParams(Join(parts, ';'))
    decreases parts
  {
    if |parts| > 1 {
      JoinedParams(parts[1..]);
    }
  }

  lemma SplitParams(parts: seq<string>)
    requires AreParams(parts)
    ensures Split(Join(parts, ';'), ';') == parts
  {
    forall i | 0 <= i < |parts| ensures ';' !in parts[i] {
      assert forall k :: 0 <= k < |parts[i]| ==> IsDigit(parts[i][k]);
    }
    SplitJoin(parts, ';');
  }

  lemma ReadsOne(m: Modes, t: Token)
    requires WellFormed(t)
    ensures var applied := Apply(m, t);
            Reads(m, Sequence(t)) == FeedResult(Tracker(applied.modes, ""), applied.changed, applied.responses)
  {
    RunSequence(Ground, t);
    hide Apply, Run;
    ApplyAllSnoc(m, [], t);
    assert [] + [t] == [t] && ApplyAll(m, []) == Applied(m, false, []);
    assert [] + Apply(m, t).responses == Apply(m, t).responses;
  }

  lemma PrivateSet(parts: seq<string>, n: nat)
    requires AreParams(parts)
    ensures n in PrivateModes(Join(parts, ';')) <==> Lists(parts, n)
  {
    SplitParams(parts);
    hide Join, Split;
    if n in PrivateModes(Join(parts, ';')) {
      var i :| 0 <= i < |parts| && IsNumeral(parts[i]) && ParseNat(parts[i]) == n;
      assert Given(parts, i) == Some(n);
    }
    if Lists(parts, n) {
      var i: nat :| i < |parts| && Given(parts, i) == Some(n);
      assert IsNumeral(parts[i]);
    }
  }

  /**
   * `ESC [ ? numbers h` switches on, and `ESC [ ? numbers l` off, each of the three modes whose
   * number is listed, and nothing else; it tells of a change if one of them was otherwise before.
   */
  lemma PrivateModeReads(m: Modes, parts: seq<string>, final: char)
    requires AreParams(parts) && (final == 'h' || final == 'l')
    ensures var read := Reads(m, [ESC, '['] + "?" + Join(parts, ';') + [final]);
            var on := final == 'h';
            && read.tracker.pending == "" && read.responses == []
            && read.tracker.modes.flags == m.flags && read.tracker.modes.stack == m.stack
            && read.tracker.modes.win32 == (if Lists(parts, 9001) then on else m.win32)
            && read.tracker.modes.applicationCursorKeys == (if Lists(parts, 1) then on else m.applicationCursorKeys)
            && read.tracker.modes.bracketedPaste == (if Lists(parts, 2004) then on else m.bracketedPaste)
            && (read.changed <==>
                  || (Lists(parts, 9001) && m.win32 != on)
                  || (Lists(parts, 1) && m.applicationCursorKeys != on)
                  || (Lists(parts, 2004) && m.bracketedPaste != on))
  {
    var params := Join(parts, ';');
    JoinedParams(parts);
    PrivateSet(parts, 9001);
    PrivateSet(parts, 1);
    PrivateSet(parts, 2004);
    hide Lists, PrivateModes, Join, AreParams;
    ReadsOne(m, PrivateMode(params, final));
  }

  /** Bracketed paste, switched on and off again. */
  lemma OnAndOff()
    ensures Reads(INITIAL, [ESC] + "[?2004h").tracker.modes == INITIAL.(bracketedPaste := true)
    ensures Reads(INITIAL.(bracketedPaste := true), [ESC] + "[?2004l")
         == FeedResult(Tracker(INITIAL, ""), true, [])
  {
    var parts := ["2004"];
    assert "2004"[..3] == "200" && "200"[..2] == "20" && "20"[..1] == "2" && "2"[..0] == "";
    assert ParseNat("2") == 2;
    assert ParseNat("20") == 20;
    assert ParseNat("200") == 200;
    assert ParseNat("2004") == 2004;
    assert Given(parts, 0) == Some(2004);
    assert Lists(parts, 2004) && !Lists(parts, 1) && !Lists(parts, 9001);
    assert Join(parts, ';') == "2004";
    assert [ESC, '['] + "?" + "2004" + ['h'] == [ESC] + "[?2004h";
    assert [ESC, '['] + "?" + "2004" + ['l'] == [ESC] + "[?2004l";
    hide Reads, ParseNat;
    PrivateModeReads(INITIAL, parts, 'h');
    PrivateModeReads(INITIAL.(bracketedPaste := true), parts, 'l');
  }

  /** How a kitty sequence is read: the characters of its prefix and its parameters. */
  function Spelled(prefix: string, parts: seq<string>): string
    requires |parts| > 0
  {
    [ESC, '['] + prefix + Join(parts, ';') + "u"
  }

  lemma KittyReads(m: Modes, prefix: string, parts: seq<string>)
    requires AreParams(parts) && (prefix == "" || prefix == ">" || prefix == "=" || prefix == "<" || prefix == "?")
    ensures var applied := ApplyKitty(m, prefix, Join(parts, ';'));
            Reads(m, Spelled(prefix, parts))
            == FeedResult(Tracker(applied.modes, ""), applied.changed, applied.responses)
    ensures FirstParam(Join(parts, ';')) == Given(parts, 0) && SecondParam(Join(parts, ';')) == Given(parts, 1)
  {
    JoinedParams(parts);
    SplitParams(parts);
    hide Join, Split;
    ReadsOne(m, Kitty(prefix, Join(parts, ';')));
  }

  /** Only the flags and the stack are touched, and a change is told exactly if the flags are others. */
  predicate TouchesKeyboard(m: Modes, read: FeedResult) {
    && read.tracker == Tracker(m.(flags := read.tracker.modes.flags, stack := read.tracker.modes.stack), "")
    && (read.changed <==> read.tracker.modes.flags != m.flags) && read.responses == []
  }

  /** `ESC [ > flags u` saves the flags and sets new ones, 1 if none are given. */
  lemma PushReads(m: Modes, parts: seq<string>)
    requires AreParams(parts)
    ensures var read := Reads(m, Spelled(">", parts));
            && TouchesKeyboard(m, read)
            && read.tracker.modes.stack == m.stack + [m.flags]
            && read.tracker.modes.flags == (if Given(parts, 0).Some? then Given(parts, 0).value else 1)
  {
    hide Reads, Spelled, FirstParam, SecondParam;
    KittyReads(m, ">", parts);
  }

  /** `ESC [ = flags ; mode u` sets the flags, to 0 if none are given or the mode is 0. */
  lemma SetReads(m: Modes, parts: seq<string>)
    requires AreParams(parts)
    ensures var read := Reads(m, Spelled("=", parts));
            && TouchesKeyboard(m, read)
            && read.tracker.modes.stack == m.stack
            && read.tracker.modes.flags
               == (if Given(parts, 0).None? || Given(parts, 1) == Some(0) then 0 else Given(parts, 0).value)
  {
    hide Reads, Spelled, FirstParam, SecondParam;
    KittyReads(m, "=", parts);
  }

  /** `ESC [ < count u` goes back that many pushes, one if no positive count is given. */
  lemma PopReads(m: Modes, parts: seq<string>)
    requires AreParams(parts)
    ensures var read := Reads(m, Spelled("<", parts));
            var count := if Given(parts, 0).Some? && Given(parts, 0).value > 0 then Given(parts, 0).value else 1;
            && TouchesKeyboard(m, read)
            && read.tracker.modes.flags == (if count <= |m.stack| then m.stack[|m.stack| - count] else 0)
            && read.tracker.modes.stack == (if count <= |m.stack| then m.stack[..|m.stack| - count] else [])
  {
    hide Reads, Spelled, FirstParam, SecondParam;
    KittyReads(m, "<", parts);
    hide PopTimes;
    PopRestores(m, PopCount(Join(parts, ';')));
  }

  /** `ESC [ ? u` is answered with the flags, and a sequence without a prefix is a key report; neither does anything. */
  lemma QueryReads(m: Modes, parts: seq<string>)
    requires AreParams(parts)
    ensures var read := Reads(m, Spelled("?", parts));
            && read.tracker == Tracker(m, "") && !read.changed
            && (m.flags < EXPONENT_FORM_FROM ==> read.responses == [[ESC, '['] + "?" + Decimal(m.flags) + "u"])
    ensures Reads(m, Spelled("", parts)) == FeedResult(Tracker(m, ""), false, [])
  {
    hide Reads, Spelled, FirstParam, SecondParam, Decimal;
    KittyReads(m, "?", parts);
    KittyReads(m, "", parts);
  }
}
