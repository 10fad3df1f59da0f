/**
 * The control sequences the input mode tracker looks for, a subset of the CSI sequences
 * of section 5.4 of ECMA-48, read in two ways: by the repeated regular expression search
 * of the program, and by a character automaton. The two are proved to agree on every text.
 */
module ControlSequences {
  import opened Wrappers
  import opened Sequences
  import opened Numerals

  const ESC: char := '\U{1b}'

  /** What one complete control sequence says. */
  datatype Token =
    | Kitty(prefix: string, params: string)
    | PrivateMode(params: string, final: char)

  predicate IsPrefixChar(c: char) { c == '<' || c == '>' || c == '=' || c == '?' }

  predicate IsParamChar(c: char) { IsDigit(c) || c == ';' }

  predicate IsParams(s: string) { forall i :: 0 <= i < |s| ==> IsParamChar(s[i]) }

  predicate IsPrefix(s: string) { s == "" || (|s| == 1 && IsPrefixChar(s[0])) }

  predicate WellFormed(t: Token) {
    match t
    case Kitty(prefix, params) => IsPrefix(prefix) && IsParams(params)
    case PrivateMode(params, final) => IsParams(params) && (final == 'h' || final == 'l')
  }

  /** The characters of a control sequence; the regular expression's language is the image of this. */
  function Sequence(t: Token): string {
    match t
    case Kitty(prefix, params) => [ESC, '['] + prefix + params + "u"
    case PrivateMode(params, final) => [ESC, '['] + "?" + params + [final]
  }

  /** What can stand between the introducer and the final character. */
  predicate IsBody(body: string) {
    IsParams(body) || (body != "" && IsPrefixChar(body[0]) && IsParams(body[1..]))
  }

  function BodyPrefix(body: string): string {
    if body != "" && IsPrefixChar(body[0]) then [body[0]] else ""
  }

  function BodyParams(body: string): string {
    if body != "" && IsPrefixChar(body[0]) then body[1..] else body
  }

  function TokenBody(t: Token): string {
    (if t.Kitty? then t.prefix else "?") + t.params
  }

  lemma TokenBodyParts(t: Token)
    requires WellFormed(t)
    ensures IsBody(TokenBody(t)) && BodyParams(TokenBody(t)) == t.params
    ensures BodyPrefix(TokenBody(t)) == if t.Kitty? then t.prefix else "?"
  {
    var body := TokenBody(t);
    if t.Kitty? && t.prefix == "" {
      assert body == t.params;
      assert body != "" ==> IsParamChar(body[0]);
    } else {
      assert body[1..] == t.params;
    }
  }

  lemma SequenceParts(t: Token)
    ensures Sequence(t) == [ESC, '['] + TokenBody(t) + [if t.Kitty? then 'u' else t.final]
  {
    assert [ESC, '['] + (if t.Kitty? then t.prefix else "?") + t.params == [ESC, '['] + TokenBody(t);
  }

  // ---------------------------------------------------------------------------
  // The regular expression and the search loop
  // ---------------------------------------------------------------------------

  /** The characters from `from` up to `end` are all parameter characters. */
  predicate ParamsBetween(text: string, from: nat, end: nat)
    requires end <= |text|
  {
    forall i :: from <= i < end ==> IsParamChar(text[i])
  }

  function ParamsEnd(text: string, from: nat): (end: nat)
    requires from <= |text|
    ensures from <= end <= |text| && ParamsBetween(text, from, end)
    ensures end == |text| || !IsParamChar(text[end])
    decreases |text| - from
  {
    if from < |text| && IsParamChar(text[from]) then ParamsEnd(text, from + 1) else from
  }

  lemma {:induction false} ParamsEndUnique(text: string, from: nat, end: nat)
    requires from <= end <= |text| && ParamsBetween(text, from, end)
    requires end == |text| || !IsParamChar(text[end])
    ensures ParamsEnd(text, from) == end
  {
  }

  function PrefixEnd(text: string, from: nat): (end: nat)
    requires from <= |text|
    ensures from <= end <= |text|
  {
    if from < |text| && IsPrefixChar(text[from]) then from + 1 else from
  }

  datatype Match = Match(token: Token, end: nat)

  predicate IntroducerAt(text: string, p: nat) {
    p + 1 < |text| && text[p] == ESC && text[p + 1] == '['
  }

  /** `CSI_INPUT_MODE_SEQUENCE` tried at one position. */
  function MatchAt(text: string, p: nat): (r: Option<Match>)
    ensures r.Some? ==> p < r.value.end <= |text|
  {
    if !IntroducerAt(text, p) then None
    else
      var body := PrefixEnd(text, p + 2);
      var end := ParamsEnd(text, body);
      if end == |text| then None else Finish(text[p + 2..body], text[body..end], text[end], end + 1)
  }

  /** The last character decides between the two alternatives of the expression. */
  function Finish(prefix: string, params: string, final: char, end: nat): (r: Option<Match>)
    ensures r.Some? ==> r.value.end == end
  {
    if final == 'u' then Some(Match(Kitty(prefix, params), end))
    else if prefix == "?" && (final == 'h' || final == 'l') then Some(Match(PrivateMode(params, final), end))
    else None
  }

  /** `INCOMPLETE_CSI_INPUT_MODE_SEQUENCE` tried on a text that begins with an introducer. */
  predicate IsIncomplete(text: string) {
    IntroducerAt(text, 0) && ParamsEnd(text, PrefixEnd(text, 2)) == |text|
  }

  /** `s` stands in the text at `p`. */
  predicate Spells(text: string, p: nat, s: string) {
    p + |s| <= |text| && forall i :: 0 <= i < |s| ==> text[p + i] == s[i]
  }

  lemma SpellsSlice(text: string, p: nat, s: string)
    ensures Spells(text, p, s) <==> p + |s| <= |text| && text[p..p + |s|] == s
  {
    if p + |s| <= |text| {
      var slice := text[p..p + |s|];
      assert forall i :: 0 <= i < |s| ==> slice[i] == text[p + i];
    }
  }

  lemma SpellsTail(text: string, p: nat, s: string, k: nat)
    requires Spells(text, p, s) && k <= |s|
    ensures Spells(text, p + k, s[k..])
  {
    forall i | 0 <= i < |s[k..]| ensures text[p + k + i] == s[k..][i] {
      assert s[k..][i] == s[k + i];
    }
  }

  /** The characters that cannot continue a body. */
  predicate Ends(text: string, end: nat, body: string) {
    end < |text| ==> !IsParamChar(text[end]) && (body == "" ==> !IsPrefixChar(text[end]))
  }

  lemma BodyParts(body: string)
    requires IsBody(body)
    ensures var k := |BodyPrefix(body)|;
            k <= |body| && BodyPrefix(body) == body[..k] && BodyParams(body) == body[k..] && IsParams(BodyParams(body))
  {
  }

  lemma PrefixIsRead(text: string, p: nat, body: string)
    requires IsBody(body) && Spells(text, p, body) && Ends(text, p + |body|, body)
    ensures PrefixEnd(text, p) == p + |BodyPrefix(body)|
  {
    assert body != "" ==> text[p + 0] == body[0];
    hide IsParams;
  }

  lemma ParamsAreRead(text: string, from: nat, params: string)
    requires IsParams(params) && Spells(text, from, params)
    requires from + |params| < |text| ==> !IsParamChar(text[from + |params|])
    ensures ParamsEnd(text, from) == from + |params|
  {
    hide IsParamChar;
    forall i | from <= i < from + |params| ensures IsParamChar(text[i]) {
      assert text[from + (i - from)] == params[i - from];
    }
    ParamsEndUnique(text, from, from + |params|);
  }

  /** How the matcher reads an introducer followed by a body that the next character does not continue. */
  lemma BodyIsRead(text: string, p: nat, body: string)
    requires IsBody(body) && Spells(text, p, body) && Ends(text, p + |body|, body)
    ensures var from := p + |BodyPrefix(body)|;
            && PrefixEnd(text, p) == from <= p + |body|
            && ParamsEnd(text, from) == p + |body|
            && Spells(text, p, BodyPrefix(body))
            && Spells(text, from, BodyParams(body))
  {
    hide IsParams, BodyPrefix, BodyParams, IsBody, PrefixEnd, ParamsEnd;
    var k := |BodyPrefix(body)|;
    BodyParts(body);
    PrefixIsRead(text, p, body);
    SpellsTail(text, p, body, k);
    ParamsAreRead(text, p + k, BodyParams(body));
  }

  lemma FinishSpells(prefix: string, params: string, final: char, end: nat)
    requires IsPrefix(prefix) && IsParams(params) && Finish(prefix, params, final, end).Some?
    ensures var t := Finish(prefix, params, final, end).value.token;
            WellFormed(t) && Sequence(t) == [ESC, '['] + prefix + params + [final]
  {
  }

  lemma MatchAtUnfolds(text: string, p: nat, body: nat, end: nat)
    requires IntroducerAt(text, p) && PrefixEnd(text, p + 2) == body && ParamsEnd(text, body) == end < |text|
    ensures MatchAt(text, p) == Finish(text[p + 2..body], text[body..end], text[end], end + 1)
  {
    hide IntroducerAt, PrefixEnd, ParamsEnd, Finish;
  }

  lemma SliceInParts(text: string, a: nat, b: nat, c: nat, d: nat)
    requires a <= b <= c <= d < |text|
    ensures text[a..d + 1] == text[a..b] + text[b..c] + text[c..d] + [text[d]]
  {
  }

  lemma IsPrefixSlice(text: string, from: nat)
    requires from <= |text|
    ensures IsPrefix(text[from..PrefixEnd(text, from)])
  {
    hide IsPrefixChar;
  }

  lemma IsParamsSlice(text: string, from: nat)
    requires from <= |text|
    ensures IsParams(text[from..ParamsEnd(text, from)])
  {
    hide IsParamChar;
  }

  lemma MatchAtSpells(text: string, p: nat)
    requires MatchAt(text, p).Some?
    ensures var m := MatchAt(text, p).value; WellFormed(m.token) && text[p..m.end] == Sequence(m.token)
  {
    var body := PrefixEnd(text, p + 2);
    var end := ParamsEnd(text, body);
    var prefix, params := text[p + 2..body], text[body..end];
    assert IntroducerAt(text, p) && end < |text|;
    hide MatchAt, Finish, Sequence, WellFormed, PrefixEnd, ParamsEnd, IsPrefix, IsParams;
    IsPrefixSlice(text, p + 2);
    IsParamsSlice(text, body);
    MatchAtUnfolds(text, p, body, end);
    FinishSpells(prefix, params, text[end], end + 1);
    SliceInParts(text, p, p + 2, body, end);
    assert text[p..p + 2] == [ESC, '['];
  }

  /** The matcher on a body behind an introducer. */
  lemma MatchAtReads(text: string, p: nat, body: string)
    requires IntroducerAt(text, p) && IsBody(body) && Spells(text, p + 2, body)
    requires p + 2 + |body| < |text| && Ends(text, p + 2 + |body|, body)
    ensures MatchAt(text, p)
         == Finish(BodyPrefix(body), BodyParams(body), text[p + 2 + |body|], p + 3 + |body|)
  {
    hide IsBody, BodyPrefix, BodyParams, ParamsEnd, PrefixEnd, MatchAt, Finish, Spells, Ends, IntroducerAt;
    var from := p + 2 + |BodyPrefix(body)|;
    BodyIsRead(text, p + 2, body);
    BodyParts(body);
    SpellsSlice(text, p + 2, BodyPrefix(body));
    SpellsSlice(text, from, BodyParams(body));
    MatchAtUnfolds(text, p, from, p + 2 + |body|);
  }

  /** A body behind an introducer, and a character that completes it, make a match. */
  lemma MatchAtBody(text: string, p: nat, t: Token)
    requires WellFormed(t) && IntroducerAt(text, p) && Spells(text, p + 2, TokenBody(t))
    requires p + 2 + |TokenBody(t)| < |text|
    requires text[p + 2 + |TokenBody(t)|] == if t.Kitty? then 'u' else t.final
    ensures MatchAt(text, p) == Some(Match(t, p + 3 + |TokenBody(t)|))
  {
    hide MatchAt;
    hide Spells;
    TokenBodyParts(t);
    MatchAtReads(text, p, TokenBody(t));
  }

  lemma MatchAtFindsSequence(text: string, p: nat, t: Token, end: nat)
    requires p <= end <= |text| && WellFormed(t) && text[p..end] == Sequence(t)
    ensures MatchAt(text, p) == Some(Match(t, end))
  {
    hide Sequence, TokenBody, WellFormed, MatchAt;
    var s, body := Sequence(t), TokenBody(t);
    SequenceParts(t);
    SpellsSlice(text, p, s);
    assert text[p + 0] == s[0] && text[p + 1] == s[1] && text[p + (|s| - 1)] == s[|s| - 1];
    forall i | 0 <= i < |body| ensures text[p + 2 + i] == body[i] {
      assert s[2 + i] == text[p + (2 + i)];
    }
    MatchAtBody(text, p, t);
  }

  /** The matcher accepts exactly the spelling of a well-formed token. */
  lemma MatchAtIsSequence(text: string, p: nat, t: Token, end: nat)
    requires p <= end <= |text|
    ensures MatchAt(text, p) == Some(Match(t, end)) <==> WellFormed(t) && text[p..end] == Sequence(t)
  {
    if MatchAt(text, p) == Some(Match(t, end)) {
      MatchAtSpells(text, p);
    } else if WellFormed(t) && text[p..end] == Sequence(t) {
      MatchAtFindsSequence(text, p, t, end);
    }
  }

  /** `exec` from `lastIndex`: the leftmost match at or after a position. */
  function NextMatch(text: string, from: nat): (r: Option<(nat, Match)>)
    requires from <= |text|
    ensures r.Some? ==> from <= r.value.0 < r.value.1.end <= |text| && MatchAt(text, r.value.0) == Some(r.value.1)
    ensures r.Some? ==> forall p: nat :: from <= p < r.value.0 ==> MatchAt(text, p).None?
    ensures r.None? ==> forall p: nat :: from <= p < |text| ==> MatchAt(text, p).None?
    decreases |text| - from
  {
    if from == |text| then None
    else if MatchAt(text, from).Some? then Some((from, MatchAt(text, from).value))
    else NextMatch(text, from + 1)
  }

  datatype Found = Found(tokens: seq<Token>, consumed: nat)

  /** Every match of the repeated search, and where the last one ended. */
  function FindAll(text: string, from: nat): (r: Found)
    requires from <= |text|
    ensures from <= r.consumed <= |text|
    decreases |text| - from
  {
    match NextMatch(text, from)
    case None => Found([], from)
    case Some((p, m)) =>
      var rest := FindAll(text, m.end);
      Found([m.token] + rest.tokens, rest.consumed)
  }

  /** `tail.lastIndexOf("ESC[")`. */
  function LastIntroducer(text: string): (r: Option<nat>)
    ensures r.Some? ==> IntroducerAt(text, r.value)
    ensures forall p: nat :: (r.Some? ==> r.value < p) ==> !IntroducerAt(text, p)
  {
    LastIntroducerBelow(text, |text|)
  }

  function LastIntroducerBelow(text: string, bound: nat): (r: Option<nat>)
    ensures r.Some? ==> r.value < bound && IntroducerAt(text, r.value)
    ensures forall p: nat :: (r.Some? ==> r.value < p) && p < bound ==> !IntroducerAt(text, p)
  {
    if bound == 0 then None
    else if IntroducerAt(text, bound - 1) then Some(bound - 1)
    else LastIntroducerBelow(text, bound - 1)
  }

  /** What is kept for the next call from the text behind the last match. */
  function PendingOf(tail: string): string {
    match LastIntroducer(tail)
    case Some(p) => if IsIncomplete(tail[p..]) then tail[p..] else ""
    case None => ""
  }

  // ---------------------------------------------------------------------------
  // The reference scanner
  // ---------------------------------------------------------------------------

  /** Where the scanner stands: outside any sequence, behind an ESC, or inside a sequence body. */
  datatype Scan = Ground | Escape | Csi(body: string)

  datatype Scanned = Scanned(scan: Scan, tokens: seq<Token>)

  function Step(q: Scan, c: char): Scanned {
    if c == ESC then Scanned(Escape, [])
    else match q
      case Ground => Scanned(Ground, [])
      case Escape => Scanned(if c == '[' then Csi("") else Ground, [])
      case Csi(body) =>
        if (body == "" && IsPrefixChar(c)) || IsParamChar(c) then Scanned(Csi(body + [c]), [])
        else if c == 'u' then Scanned(Ground, [Kitty(BodyPrefix(body), BodyParams(body))])
        else if BodyPrefix(body) == "?" && (c == 'h' || c == 'l') then
          Scanned(Ground, [PrivateMode(BodyParams(body), c)])
        else Scanned(Ground, [])
  }

  function Run(q: Scan, text: string): Scanned
    decreases text
  {
    if text == "" then Scanned(q, [])
    else
      var first := Step(q, text[0]);
      var rest := Run(first.scan, text[1..]);
      Scanned(rest.scan, first.tokens + rest.tokens)
  }

  /** The text a call keeps when the scanner stops in a state. */
  function PendingText(q: Scan): string {
    match q
    case Csi(body) => [ESC, '['] + body
    case _ => ""
  }

  /** A lone ESC is forgotten when a call ends. */
  function Settle(q: Scan): Scan {
    if q == Escape then Ground else q
  }

  lemma RunCons(q: Scan, text: string)
    requires text != ""
    ensures Run(q, text).scan == Run(Step(q, text[0]).scan, text[1..]).scan
    ensures Run(q, text).tokens == Step(q, text[0]).tokens + Run(Step(q, text[0]).scan, text[1..]).tokens
  {
  }

  lemma {:induction false} RunAppend(q: Scan, a: string, b: string)
    ensures Run(q, a + b).scan == Run(Run(q, a).scan, b).scan
    ensures Run(q, a + b).tokens == Run(q, a).tokens + Run(Run(q, a).scan, b).tokens
    decreases a
  {
    if a == "" {
      assert a + b == b;
    } else {
      hide Step;
      hide Run;
      RunCons(q, a);
      RunCons(q, a + b);
      assert (a + b)[0] == a[0] && (a + b)[1..] == a[1..] + b;
      var next := Step(q, a[0]).scan;
      RunAppend(next, a[1..], b);
      Assoc(Step(q, a[0]).tokens, Run(next, a[1..]).tokens, Run(Run(next, a[1..]).scan, b).tokens);
    }
  }

  lemma RunSnoc(q: Scan, a: string, c: char)
    ensures Run(q, a + [c]).scan == Step(Run(q, a).scan, c).scan
    ensures Run(q, a + [c]).tokens == Run(q, a).tokens + Step(Run(q, a).scan, c).tokens
  {
    RunAppend(q, a, [c]);
    RunOne(Run(q, a).scan, c);
  }

  lemma RunOne(q: Scan, c: char)
    ensures Run(q, [c]) == Step(q, c)
  {
    assert [c][1..] == "";
    assert Step(q, c).tokens + [] == Step(q, c).tokens;
  }

  lemma {:induction false} RunParams(body: string, params: string)
    requires IsParams(params)
    ensures Run(Csi(body), params) == Scanned(Csi(body + params), [])
    decreases params
  {
    if params == "" {
      assert body + params == body;
    } else {
      assert IsParamChar(params[0]);
      RunParams(body + [params[0]], params[1..]);
      assert body + [params[0]] + params[1..] == body + params;
    }
  }

  lemma RunIntroducer(q: Scan, rest: string)
    ensures Run(q, [ESC, '['] + rest) == Run(Csi(""), rest)
  {
    var s := [ESC, '['] + rest;
    assert s[1..] == ['['] + rest;
    assert s[1..][1..] == rest;
  }

  lemma RunBody(q: Scan, body: string)
    requires IsBody(body)
    ensures Run(q, [ESC, '['] + body) == Scanned(Csi(body), [])
  {
    RunIntroducer(q, body);
    if IsParams(body) {
      RunParams("", body);
      assert "" + body == body;
    } else {
      RunParams([body[0]], body[1..]);
      assert [body[0]] + body[1..] == body;
      assert Step(Csi(""), body[0]).scan == Csi([body[0]]) by {
        assert "" + [body[0]] == [body[0]];
      }
    }
  }

  lemma {:induction false} RunWithoutEscape(text: string)
    requires ESC !in text
    ensures Run(Ground, text) == Scanned(Ground, [])
  {
    if text != "" {
      RunWithoutEscape(text[1..]);
    }
  }

  /** A complete sequence is recognised whatever came before it. */
  lemma RunSequence(q: Scan, t: Token)
    requires WellFormed(t)
    ensures Run(q, Sequence(t)) == Scanned(Ground, [t])
  {
    TokenBodyParts(t);
    SequenceParts(t);
    RunBody(q, TokenBody(t));
    RunSnoc(q, [ESC, '['] + TokenBody(t), if t.Kitty? then 'u' else t.final);
  }

  // ---------------------------------------------------------------------------
  // The search loop finds what the reference scanner finds
  // ---------------------------------------------------------------------------

  /** Inside a sequence the text read from `from` to `j` ends with the introducer and the body. */
  ghost predicate ScanFits(q: Scan, text: string, from: nat, j: nat)
    requires j <= |text|
  {
    match q
    case Ground => true
    case Escape => from < j && text[j - 1] == ESC
    case Csi(body) =>
      && IsBody(body) && from + 2 + |body| <= j
      && IntroducerAt(text, j - 2 - |body|) && Spells(text, j - |body|, body)
  }

  /** The automaton only ever stands inside well-formed bodies. */
  lemma StepKeepsBody(q: Scan, c: char)
    requires q.Csi? ==> IsBody(q.body)
    ensures var next := Step(q, c).scan; next.Csi? ==> IsBody(next.body)
  {
    if q.Csi? && Step(q, c).scan.Csi? {
      var body, next := q.body, q.body + [c];
      if body == "" {
        assert next == [c] && next[1..] == "";
      } else {
        assert next[1..] == body[1..] + [c];
      }
    }
  }

  lemma StepFits(q: Scan, text: string, from: nat, j: nat)
    requires j < |text| && from <= j && ScanFits(q, text, from, j)
    ensures ScanFits(Step(q, text[j]).scan, text, from, j + 1)
  {
    StepKeepsBody(q, text[j]);
  }

  lemma StepToken(body: string, c: char)
    requires IsBody(body) && Step(Csi(body), c).tokens != []
    ensures var t := Step(Csi(body), c).tokens[0];
            WellFormed(t) && TokenBody(t) == body && c == if t.Kitty? then 'u' else t.final
  {
  }

  lemma OnlyBodiesEmit(q: Scan, c: char)
    requires Step(q, c).tokens != []
    ensures q.Csi?
  {
  }

  /** A token emitted at a character is a match that ends there. */
  lemma StepEmitsMatch(q: Scan, text: string, from: nat, j: nat)
    requires j < |text| && ScanFits(q, text, from, j) && Step(q, text[j]).tokens != []
    ensures from <= j - 2 - |q.body| && MatchAt(text, j - 2 - |q.body|).Some?
  {
    hide Step, MatchAt, WellFormed, TokenBody, IsBody, Spells;
    OnlyBodiesEmit(q, text[j]);
    StepToken(q.body, text[j]);
    MatchAtBody(text, j - 2 - |q.body|, Step(q, text[j]).tokens[0]);
  }

  /** Where nothing matches, the reference scanner emits nothing. */
  lemma {:induction false} QuietRun(text: string, from: nat, until: nat)
    requires from <= until <= |text|
    requires forall p: nat :: from <= p < until ==> MatchAt(text, p).None?
    ensures Run(Ground, text[from..until]).tokens == []
    ensures ScanFits(Run(Ground, text[from..until]).scan, text, from, until)
    decreases until
  {
    if from < until {
      var j := until - 1;
      QuietRun(text, from, j);
      var q := Run(Ground, text[from..j]).scan;
      assert text[from..until] == text[from..j] + [text[j]];
      RunSnoc(Ground, text[from..j], text[j]);
      StepFits(q, text, from, j);
      if Step(q, text[j]).tokens != [] {
        StepEmitsMatch(q, text, from, j);
      }
    }
  }

  lemma BodyHasNoEscape(body: string)
    requires IsBody(body)
    ensures ESC !in body
  {
    if !IsParams(body) {
      assert body == [body[0]] + body[1..];
    }
  }

  lemma NonBodyIsComplete(s: string, body: string)
    requires Spells(s, 2, body) && |s| == 2 + |body| && !IsBody(body)
    ensures ParamsEnd(s, PrefixEnd(s, 2)) != |s|
  {
    assert s[2 + 0] == body[0];
    var k := PrefixEnd(s, 2) - 2;
    assert k == 0 ==> body[k..] == body;
    var i :| 0 <= i < |body[k..]| && !IsParamChar(body[k..][i]);
    assert body[k..][i] == body[k + i] == s[2 + (k + i)];
  }

  lemma IncompleteIsBody(body: string)
    ensures IsIncomplete([ESC, '['] + body) <==> IsBody(body)
  {
    var s := [ESC, '['] + body;
    assert Spells(s, 2, body);
    if IsBody(body) {
      BodyIsRead(s, 2, body);
    } else {
      NonBodyIsComplete(s, body);
    }
  }

  lemma LastIntroducerIs(tail: string, p: nat)
    requires IntroducerAt(tail, p) && forall i :: p < i < |tail| ==> tail[i] != ESC
    ensures LastIntroducer(tail) == Some(p)
  {
  }

  /** A text that ends inside a sequence keeps that sequence. */
  lemma PendingOfOpenSequence(tail: string, p: nat, body: string)
    requires IntroducerAt(tail, p) && tail[p + 2..] == body && IsBody(body)
    ensures PendingOf(tail) == [ESC, '['] + body
  {
    assert LastIntroducer(tail) == Some(p) by {
      BodyHasNoEscape(body);
      assert forall i :: p + 2 <= i < |tail| ==> tail[i] == body[i - p - 2];
      LastIntroducerIs(tail, p);
    }
    assert tail[p..] == [ESC, '['] + body;
    IncompleteIsBody(body);
  }

  lemma OpenSequenceScan(tail: string, p: nat)
    requires IntroducerAt(tail, p) && IsBody(tail[p + 2..])
    ensures Run(Ground, tail).scan == Csi(tail[p + 2..])
  {
    assert tail[p..] == [ESC, '['] + tail[p + 2..];
    RunAppend(Ground, tail[..p], tail[p..]);
    RunBody(Run(Ground, tail[..p]).scan, tail[p + 2..]);
    assert tail == tail[..p] + tail[p..];
  }

  /** Only a text that ends inside a sequence keeps anything. */
  lemma PendingEndsInSequence(tail: string)
    requires !Run(Ground, tail).scan.Csi?
    ensures PendingOf(tail) == ""
  {
    var last := LastIntroducer(tail);
    if last.Some? {
      var p := last.value;
      assert tail[p..] == [ESC, '['] + tail[p + 2..];
      IncompleteIsBody(tail[p + 2..]);
      if IsBody(tail[p + 2..]) {
        OpenSequenceScan(tail, p);
      }
    }
  }

  /** The pending text is the spelling of the state in which the scanner stops. */
  lemma PendingIsOpenSequence(tail: string)
    requires ScanFits(Run(Ground, tail).scan, tail, 0, |tail|)
    ensures PendingOf(tail) == PendingText(Settle(Run(Ground, tail).scan))
  {
    hide PendingOf;
    hide Run;
    match Run(Ground, tail).scan {
      case Csi(body) =>
        SpellsSlice(tail, |tail| - |body|, body);
        assert tail[|tail| - |body|..] == body;
        PendingOfOpenSequence(tail, |tail| - 2 - |body|, body);
      case _ =>
        PendingEndsInSequence(tail);
    }
  }

  lemma FitsFromStart(q: Scan, text: string, from: nat)
    requires from <= |text| && ScanFits(q, text, from, |text|)
    ensures ScanFits(q, text[from..], 0, |text| - from)
  {
    var tail := text[from..];
    assert forall i :: 0 <= i < |tail| ==> tail[i] == text[from + i];
    if q.Csi? {
      forall i | 0 <= i < |q.body| ensures tail[|tail| - |q.body| + i] == q.body[i] {
        assert text[|text| - |q.body| + i] == q.body[i];
      }
    }
  }

  lemma QuietTail(text: string, from: nat)
    requires from <= |text| && NextMatch(text, from).None?
    ensures Run(Ground, text[from..]).tokens == []
    ensures ScanFits(Run(Ground, text[from..]).scan, text[from..], 0, |text| - from)
  {
    QuietRun(text, from, |text|);
    assert text[from..|text|] == text[from..];
    FitsFromStart(Run(Ground, text[from..]).scan, text, from);
  }

  /** Behind the last match the reference scanner emits nothing and stops where the pending text says. */
  lemma SearchEnds(text: string, from: nat)
    requires from <= |text| && NextMatch(text, from).None?
    ensures Run(Ground, text[from..]).tokens == []
    ensures PendingOf(text[from..]) == PendingText(Settle(Run(Ground, text[from..]).scan))
  {
    hide PendingOf;
    hide Run;
    hide NextMatch;
    QuietTail(text, from);
    PendingIsOpenSequence(text[from..]);
  }

  /** Up to the end of the first match the reference scanner emits just that match. */
  lemma RunToMatch(text: string, from: nat, p: nat, m: Match)
    requires from <= p < m.end <= |text| && MatchAt(text, p) == Some(m)
    requires forall i: nat :: from <= i < p ==> MatchAt(text, i).None?
    ensures Run(Ground, text[from..m.end]) == Scanned(Ground, [m.token])
  {
    assert Run(Ground, text[from..p]).tokens == [] by {
      QuietRun(text, from, p);
    }
    MatchAtSpells(text, p);
    hide Run, MatchAt, Sequence, WellFormed;
    RunSequence(Run(Ground, text[from..p]).scan, m.token);
    RunAppend(Ground, text[from..p], text[p..m.end]);
    assert text[from..m.end] == text[from..p] + text[p..m.end];
  }

  lemma RunPastMatch(text: string, from: nat, p: nat, m: Match)
    requires from <= |text| && NextMatch(text, from) == Some((p, m))
    ensures Run(Ground, text[from..]).scan == Run(Ground, text[m.end..]).scan
    ensures Run(Ground, text[from..]).tokens == [m.token] + Run(Ground, text[m.end..]).tokens
  {
    hide Run;
    hide NextMatch;
    RunToMatch(text, from, p, m);
    RunAppend(Ground, text[from..m.end], text[m.end..]);
    assert text[from..] == text[from..m.end] + text[m.end..];
  }

  /** The regular expression search and the automaton read every text alike. */
  lemma {:induction false} SearchIsRun(text: string, from: nat)
    requires from <= |text|
    ensures FindAll(text, from).tokens == Run(Ground, text[from..]).tokens
    ensures PendingOf(text[FindAll(text, from).consumed..]) == PendingText(Settle(Run(Ground, text[from..]).scan))
    decreases |text| - from
  {
    match NextMatch(text, from) {
      case None => SearchEnds(text, from);
      case Some((p, m)) =>
        SearchIsRun(text, m.end);
        RunPastMatch(text, from, p, m);
    }
  }
}
