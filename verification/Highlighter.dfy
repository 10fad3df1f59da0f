/**
 * Highlighting: styles are painted over the characters of the code, then every line is cut into
 * tokens of equal style. The tokens lose nothing, and there is only one way to cut them.
 */
module Highlighter {
  import opened Wrappers
  import opened Sequences

  type Style = Option<string>

  /** A styled range of the parse tree; later ranges paint over earlier ones. */
  datatype Span = Span(start: nat, end: nat, style: string)

  datatype Token = Token(text: string, style: Style)

  /** The style painted at a position. */
  function StyleAt(spans: seq<Span>, i: nat): Style {
    if spans == [] then None
    else
      var last := spans[|spans| - 1];
      if last.start <= i < last.end then Some(last.style) else StyleAt(spans[..|spans| - 1], i)
  }

  predicate Covers(span: Span, i: nat) { span.start <= i < span.end }

  /** The style of a position is that of the last range that covers it, and none if none does. */
  lemma {:induction false} StyleAtExactly(spans: seq<Span>, i: nat)
    ensures StyleAt(spans, i).None? <==> forall k :: 0 <= k < |spans| ==> !Covers(spans[k], i)
    ensures forall k :: 0 <= k < |spans| && Covers(spans[k], i)
                        && (forall j :: k < j < |spans| ==> !Covers(spans[j], i)) ==>
              StyleAt(spans, i) == Some(spans[k].style)
  {
    if spans != [] {
      var before := spans[..|spans| - 1];
      StyleAtExactly(before, i);
      assert forall k :: 0 <= k < |before| ==> before[k] == spans[k];
    }
  }

  /** Where a line starts in the code. */
  function Offset(lines: seq<string>, n: nat): nat
    requires n <= |lines|
  {
    if n == 0 then 0 else Offset(lines, n - 1) + |lines[n - 1]| + 1
  }

  function TextOf(tokens: seq<Token>): string {
    if tokens == [] then "" else TextOf(tokens[..|tokens| - 1]) + tokens[|tokens| - 1].text
  }

  function Repeat(style: Style, n: nat): seq<Style> {
    seq(n, _ => style)
  }

  /** The style of every character of the tokens. */
  function StylesOf(tokens: seq<Token>): seq<Style> {
    if tokens == [] then []
    else StylesOf(tokens[..|tokens| - 1]) + Repeat(tokens[|tokens| - 1].style, |tokens[|tokens| - 1].text|)
  }

  /** Tokens are as long as possible, and none is empty. */
  predicate Maximal(tokens: seq<Token>) {
    && (forall i :: 0 <= i < |tokens| ==> tokens[i].text != "")
    && (forall i :: 0 < i < |tokens| ==> tokens[i - 1].style != tokens[i].style)
  }

  /** An empty line is one empty token; any other line is cut into maximal tokens. */
  predicate Canonical(line: string, tokens: seq<Token>) {
    if line == "" then tokens == [Token("", None)] else Maximal(tokens)
  }

  /** The tokens of a line of which every character has the given style. */
  predicate TokensFor(line: string, styles: seq<Style>, tokens: seq<Token>) {
    TextOf(tokens) == line && StylesOf(tokens) == styles && Canonical(line, tokens)
  }

  /** The styles painted on a line. */
  function LineStyles(spans: seq<Span>, lines: seq<string>, n: nat): seq<Style>
    requires n < |lines|
  {
    seq(|lines[n]|, k requires 0 <= k => StyleAt(spans, Offset(lines, n) + k))
  }

  // ---------------------------------------------------------------------------
  // Offsets
  // ---------------------------------------------------------------------------

  lemma {:induction false} OffsetTail(lines: seq<string>, n: nat)
    requires 0 < n <= |lines|
    ensures Offset(lines, n) == |lines[0]| + 1 + Offset(lines[1..], n - 1)
  {
    if n > 1 {
      OffsetTail(lines, n - 1);
    }
  }

  lemma {:induction false} JoinedOffsets(lines: seq<string>, c: char, n: nat)
    requires n < |lines|
    ensures Offset(lines, n) + |lines[n]| <= |Join(lines, c)|
    ensures Join(lines, c)[Offset(lines, n)..Offset(lines, n) + |lines[n]|] == lines[n]
    decreases lines
  {
    if n > 0 {
      OffsetTail(lines, n);
      JoinedOffsets(lines[1..], c, n - 1);
      var head, rest := lines[0] + [c], Join(lines[1..], c);
      assert Join(lines, c) == head + rest;
      var from := Offset(lines[1..], n - 1);
      assert (head + rest)[|head| + from..|head| + from + |lines[n]|] == rest[from..from + |lines[n]|];
    }
  }

  /** Characters are where their lines say they are. */
  lemma LinesAreInPlace(code: string, n: nat)
    requires n < |Split(code, '\n')|
    ensures var lines := Split(code, '\n');
            && Offset(lines, n) + |lines[n]| <= |code|
            && code[Offset(lines, n)..Offset(lines, n) + |lines[n]|] == lines[n]
  {
    JoinSplit(code, '\n');
    JoinedOffsets(Split(code, '\n'), '\n', n);
  }

  // ---------------------------------------------------------------------------
  // Uniqueness
  // ---------------------------------------------------------------------------

  lemma {:induction false} StylesLength(tokens: seq<Token>)
    ensures |StylesOf(tokens)| == |TextOf(tokens)|
  {
    if tokens != [] {
      StylesLength(tokens[..|tokens| - 1]);
    }
  }

  /** The last `n` characters share a style. */
  predicate EndsIn(styles: seq<Style>, n: nat, style: Style) {
    n <= |styles| && forall k :: |styles| - n <= k < |styles| ==> styles[k] == style
  }

  lemma LastToken(tokens: seq<Token>)
    requires tokens != []
    ensures var last, styles, text := tokens[|tokens| - 1], StylesOf(tokens), TextOf(tokens);
            && |last.text| <= |styles| == |text|
            && EndsIn(styles, |last.text|, last.style)
            && styles[..|styles| - |last.text|] == StylesOf(tokens[..|tokens| - 1])
            && text[..|text| - |last.text|] == TextOf(tokens[..|tokens| - 1])
            && text[|text| - |last.text|..] == last.text
  {
    StylesLength(tokens);
    StylesLength(tokens[..|tokens| - 1]);
  }

  /** A maximal cut goes back as far as the style lasts, and no further. */
  lemma BeforeLast(tokens: seq<Token>)
    requires Maximal(tokens) && |tokens| > 1
    ensures var last := tokens[|tokens| - 1];
            |last.text| < |StylesOf(tokens)| && StylesOf(tokens)[|StylesOf(tokens)| - |last.text| - 1] != last.style
  {
    var before := tokens[..|tokens| - 1];
    LastToken(tokens);
    LastToken(before);
    assert before[|before| - 1].text != "" && before[|before| - 1].style != tokens[|tokens| - 1].style;
    var k := |StylesOf(before)| - 1;
    assert StylesOf(before)[k] == StylesOf(tokens)[k];
  }

  lemma MaximalHasText(tokens: seq<Token>)
    requires Maximal(tokens) && tokens != []
    ensures TextOf(tokens) != ""
  {
    assert tokens[|tokens| - 1].text != "";
  }

  /** If the last `n` characters share a style, the last maximal token covers them. */
  lemma NotShorter(tokens: seq<Token>, style: Style, n: nat)
    requires tokens != [] && Maximal(tokens) && EndsIn(StylesOf(tokens), n, style)
    ensures |tokens[|tokens| - 1].text| >= n
  {
    var last, styles := tokens[|tokens| - 1], StylesOf(tokens);
    LastToken(tokens);
    if |tokens| > 1 {
      BeforeLast(tokens);
      hide StylesOf, TextOf;
      assert last.text != "" && styles[|styles| - 1] == last.style;
      assert styles[|styles| - |last.text| - 1] != last.style;
    } else {
      assert tokens[..|tokens| - 1] == [];
    }
  }

  lemma SameStyle(styles: seq<Style>, n: nat, a: Style, m: nat, b: Style)
    requires n > 0 && m > 0 && EndsIn(styles, n, a) && EndsIn(styles, m, b)
    ensures a == b
  {
    assert styles[|styles| - 1] == a;
  }

  lemma SameLast(a: seq<Token>, b: seq<Token>)
    requires a != [] && b != []
    requires Maximal(a) && Maximal(b) && TextOf(a) == TextOf(b) && StylesOf(a) == StylesOf(b)
    ensures a[|a| - 1] == b[|b| - 1]
  {
    var x, y := a[|a| - 1], b[|b| - 1];
    hide StylesOf, TextOf, EndsIn;
    LastToken(a);
    LastToken(b);
    NotShorter(a, y.style, |y.text|);
    NotShorter(b, x.style, |x.text|);
    assert x.text != "";
    SameStyle(StylesOf(a), |x.text|, x.style, |y.text|, y.style);
  }

  lemma {:induction false} MaximalIsUnique(a: seq<Token>, b: seq<Token>)
    requires Maximal(a) && Maximal(b) && TextOf(a) == TextOf(b) && StylesOf(a) == StylesOf(b)
    ensures a == b
    decreases |a|
  {
    if a != [] {
      MaximalHasText(a);
    }
    if b != [] {
      MaximalHasText(b);
    }
    if a != [] && b != [] {
      hide StylesOf, TextOf, EndsIn;
      SameLast(a, b);
      LastToken(a);
      LastToken(b);
      MaximalPrefix(a);
      MaximalPrefix(b);
      hide Maximal;
      MaximalIsUnique(a[..|a| - 1], b[..|b| - 1]);
      assert a == a[..|a| - 1] + [a[|a| - 1]] && b == b[..|b| - 1] + [b[|b| - 1]];
    }
  }

  lemma MaximalPrefix(tokens: seq<Token>)
    requires Maximal(tokens) && tokens != []
    ensures Maximal(tokens[..|tokens| - 1])
  {
  }

  /** The tokens of a line are determined by its text and its styles. */
  lemma TokensAreUnique(line: string, styles: seq<Style>, a: seq<Token>, b: seq<Token>)
    requires TokensFor(line, styles, a) && TokensFor(line, styles, b)
    ensures a == b
  {
    if line != "" {
      MaximalIsUnique(a, b);
    }
  }

  // ---------------------------------------------------------------------------
  // Highlighting
  // ---------------------------------------------------------------------------

  /** Paints the spans over a fresh style map, in order. */
  method Paint(length: nat, spans: seq<Span>) returns (styleMap: array<Style>)
    ensures fresh(styleMap) && styleMap.Length == length
    ensures forall i :: 0 <= i < length ==> styleMap[i] == StyleAt(spans, i)
  {
    styleMap := new Style[length](_ => None);
    var n := 0;
    while n < |spans|
      invariant 0 <= n <= |spans|
      invariant forall i :: 0 <= i < length ==> styleMap[i] == StyleAt(spans[..n], i)
    {
      var span := spans[n];
      assert spans[..n + 1][..n] == spans[..n];
      var i := span.start;
      while i < span.end && i < length
        invariant span.start <= i
        invariant forall k :: 0 <= k < length ==>
          styleMap[k] == if span.start <= k < span.end && k < i then Some(span.style) else StyleAt(spans[..n], k)
      {
        styleMap[i] := Some(span.style);
        i := i + 1;
      }
      n := n + 1;
    }
    assert spans[..n] == spans;
  }

  /** The tokens of a line so far, the open one last. */
  ghost predicate Cutting(line: string, styles: seq<Style>, i: nat, done: seq<Token>, current: Token) {
    && i <= |line| == |styles|
    && TextOf(done + [current]) == line[..i]
    && StylesOf(done + [current]) == styles[..i]
    && Maximal(done)
    && (done != [] ==> done[|done| - 1].style != current.style)
    && (i > 0 ==> current.text != "")
    && (i == 0 ==> done == [] && current.text == "" && (|styles| > 0 ==> current.style == styles[0]))
  }

  lemma Snoc(tokens: seq<Token>, t: Token)
    ensures TextOf(tokens + [t]) == TextOf(tokens) + t.text
    ensures StylesOf(tokens + [t]) == StylesOf(tokens) + Repeat(t.style, |t.text|)
  {
    assert (tokens + [t])[..|tokens + [t]| - 1] == tokens;
  }

  lemma ExtendToken(line: string, styles: seq<Style>, i: nat, done: seq<Token>, current: Token)
    requires Cutting(line, styles, i, done, current) && i < |line| && styles[i] == current.style
    ensures Cutting(line, styles, i + 1, done, current.(text := current.text + [line[i]]))
  {
    var longer := current.(text := current.text + [line[i]]);
    Snoc(done, current);
    Snoc(done, longer);
    hide TextOf, StylesOf;
    assert Repeat(current.style, |longer.text|) == Repeat(current.style, |current.text|) + [current.style];
    assert line[..i + 1] == line[..i] + [line[i]] && styles[..i + 1] == styles[..i] + [styles[i]];
  }

  lemma NextToken(line: string, styles: seq<Style>, i: nat, done: seq<Token>, current: Token)
    requires Cutting(line, styles, i, done, current) && i < |line| && styles[i] != current.style
    ensures current.text != ""
    ensures Cutting(line, styles, i + 1, done + [current], Token([line[i]], styles[i]))
  {
    var next := Token([line[i]], styles[i]);
    Snoc(done + [current], next);
    hide TextOf, StylesOf;
    assert Repeat(next.style, 1) == [next.style];
    assert line[..i + 1] == line[..i] + [line[i]] && styles[..i + 1] == styles[..i] + [styles[i]];
  }

  lemma StartLine(line: string, styles: seq<Style>)
    requires line != "" && |line| == |styles|
    ensures Cutting(line, styles, 0, [], Token("", styles[0]))
  {
    Snoc([], Token("", styles[0]));
  }

  lemma FinishLine(line: string, styles: seq<Style>, done: seq<Token>, current: Token)
    requires line != "" && Cutting(line, styles, |line|, done, current)
    ensures current.text != "" && TokensFor(line, styles, done + [current])
  {
    hide TextOf, StylesOf;
    assert line[..|line|] == line && styles[..|line|] == styles;
  }

  /** Cuts one nonempty line, whose styles start at a position of the style map. */
  method CutLine(line: string, styleMap: array<Style>, pos: nat) returns (tokens: seq<Token>)
    requires line != "" && pos + |line| <= styleMap.Length
    ensures TokensFor(line, styleMap[pos..pos + |line|], tokens)
  {
    hide Cutting, TokensFor;
    ghost var styles := styleMap[pos..pos + |line|];
    tokens := [];
    var currentToken := Token("", styleMap[pos]);
    var i := 0;
    StartLine(line, styles);
    while i < |line|
      invariant 0 <= i <= |line| && Cutting(line, styles, i, tokens, currentToken)
    {
      var charStyle := styleMap[pos + i];
      assert charStyle == styles[i];
      if charStyle == currentToken.style {
        ExtendToken(line, styles, i, tokens, currentToken);
        currentToken := currentToken.(text := currentToken.text + [line[i]]);
      } else {
        NextToken(line, styles, i, tokens, currentToken);
        if currentToken.text != "" {
          tokens := tokens + [currentToken];
        }
        currentToken := Token([line[i]], charStyle);
      }
      i := i + 1;
    }
    FinishLine(line, styles, tokens, currentToken);
    if currentToken.text != "" {
      tokens := tokens + [currentToken];
    }
  }

  /** One unstyled token is canonical for an unpainted line, and for an empty one. */
  lemma PlainLine(spans: seq<Span>, lines: seq<string>, n: nat)
    requires n < |lines| && (lines[n] == "" || spans == [])
    ensures TokensFor(lines[n], LineStyles(spans, lines, n), [Token(lines[n], None)])
  {
    Snoc([], Token(lines[n], None));
    assert [] + [Token(lines[n], None)] == [Token(lines[n], None)];
    var styles := LineStyles(spans, lines, n);
    forall k | 0 <= k < |styles| ensures styles[k] == None {
      assert styles[k] == StyleAt(spans, Offset(lines, n) + k);
    }
    assert Repeat(None, |lines[n]|) == styles;
  }

  /** The style map holds the styles of a line from its offset on. */
  lemma PaintedLine(code: string, spans: seq<Span>, painted: seq<Style>, n: nat)
    requires n < |Split(code, '\n')| && |painted| == |code|
    requires forall i :: 0 <= i < |code| ==> painted[i] == StyleAt(spans, i)
    ensures var lines := Split(code, '\n');
            var pos := Offset(lines, n);
            pos + |lines[n]| <= |code| && painted[pos..pos + |lines[n]|] == LineStyles(spans, lines, n)
  {
    LinesAreInPlace(code, n);
  }

  /**
   * For every code and every painting: there is one list of tokens for each line; it spells the
   * line, gives every character the style painted at its absolute position, and is the only
   * canonical list that does. Without a parser nothing is painted.
   */
  method HighlightCode(code: string, spans: Option<seq<Span>>) returns (result: seq<seq<Token>>)
    ensures |result| == |Split(code, '\n')|
    ensures forall n :: 0 <= n < |result| ==>
              TokensFor(Split(code, '\n')[n], LineStyles(spans.GetOr([]), Split(code, '\n'), n), result[n])
  {
    hide TokensFor, LineStyles, StyleAt, Split;
    var lines := Split(code, '\n');
    result := [];
    if spans.None? {
      while |result| < |lines|
        invariant |result| <= |lines|
        invariant forall n :: 0 <= n < |result| ==> TokensFor(lines[n], LineStyles([], lines, n), result[n])
      {
        PlainLine([], lines, |result|);
        result := result + [[Token(lines[|result|], None)]];
      }
      return;
    }
    var styleMap := Paint(|code|, spans.value);
    ghost var painted := styleMap[..];
    var pos := 0;
    while |result| < |lines|
      invariant |result| <= |lines| && pos == Offset(lines, |result|) && styleMap[..] == painted
      invariant forall n :: 0 <= n < |result| ==> TokensFor(lines[n], LineStyles(spans.value, lines, n), result[n])
    {
      var line := lines[|result|];
      PaintedLine(code, spans.value, painted, |result|);
      var tokens := [Token("", None)];
      if |line| == 0 {
        PlainLine(spans.value, lines, |result|);
      } else {
        assert styleMap[pos..pos + |line|] == painted[pos..pos + |line|];
        tokens := CutLine(line, styleMap, pos);
      }
      result := result + [tokens];
      pos := pos + |line| + 1;
    }
  }

  /** The first line's tokens; a code has at least one line, so there always are some. */
  method HighlightLine(line: string, spans: Option<seq<Span>>) returns (tokens: seq<Token>)
    ensures '\n' !in line ==> TextOf(tokens) == line
    ensures TokensFor(Split(line, '\n')[0], LineStyles(spans.GetOr([]), Split(line, '\n'), 0), tokens)
  {
    var result := HighlightCode(line, spans);
    tokens := result[0];
    if '\n' !in line {
      SplitAtom(line, '\n');
    }
  }

  /** Joining the text of the lines gives the code back. */
  lemma LosesNothing(code: string, result: seq<seq<Token>>)
    requires |result| == |Split(code, '\n')|
    requires forall n :: 0 <= n < |result| ==> TextOf(result[n]) == Split(code, '\n')[n]
    ensures Join(seq(|result|, n requires 0 <= n < |result| => TextOf(result[n])), '\n') == code
  {
    JoinSplit(code, '\n');
    var texts := seq(|result|, n requires 0 <= n < |result| => TextOf(result[n]));
    assert forall n :: 0 <= n < |texts| ==> texts[n] == TextOf(result[n]) == Split(code, '\n')[n];
    assert texts == Split(code, '\n');
  }
}
