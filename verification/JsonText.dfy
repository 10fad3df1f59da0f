/** JSON text as `JSON.stringify` writes it, and why no two values have the same text. */
module JsonText {
  datatype Json =
    | Null
    | Bool(value: bool)
    | Number(digits: string)
    | Text(text: string)
    | Array(items: seq<Json>)
    | Object(members: seq<Member>)

  datatype Member = Member(name: string, value: Json)

  // ---------------------------------------------------------------------------
  // Writing
  // ---------------------------------------------------------------------------

  function HexDigit(n: nat): (c: char)
    requires n < 16
  {
    "0123456789abcdef"[n]
  }

  predicate IsControl(c: char) { c < ' ' }

  /** The letter of a short escape. */
  function ShortEscape(c: char): (r: string)
    ensures |r| <= 1
  {
    if c == '"' then "\"" else if c == '\\' then "\\"
    else if c == '\U{8}' then "b" else if c == '\t' then "t" else if c == '\n' then "n"
    else if c == '\U{c}' then "f" else if c == '\r' then "r" else ""
  }

  function EscapeChar(c: char): string {
    if ShortEscape(c) != "" then "\\" + ShortEscape(c)
    else if IsControl(c) then ['\\', 'u', '0', '0', HexDigit(c as int / 16), HexDigit(c as int % 16)]
    else [c]
  }

  function QuoteRest(s: string): string {
    if s == "" then "\"" else EscapeChar(s[0]) + QuoteRest(s[1..])
  }

  function Quote(s: string): string {
    "\"" + QuoteRest(s)
  }

  function Stringify(j: Json): string
    decreases j, 0
  {
    match j
    case Null => "null"
    case Bool(b) => if b then "true" else "false"
    case Number(digits) => digits
    case Text(s) => Quote(s)
    case Array(items) => if items == [] then "[]" else "[" + Stringify(items[0]) + MoreItems(items[1..])
    case Object(members) => if members == [] then "{}" else "{" + MemberText(members[0]) + MoreMembers(members[1..])
  }

  function MemberText(m: Member): string
    decreases m, 0
  {
    Quote(m.name) + ":" + Stringify(m.value)
  }

  /** What follows the first item of an array. */
  function MoreItems(items: seq<Json>): string
    decreases items, 0
  {
    if items == [] then "]" else "," + Stringify(items[0]) + MoreItems(items[1..])
  }

  function MoreMembers(members: seq<Member>): string
    decreases members, 0
  {
    if members == [] then "}" else "," + MemberText(members[0]) + MoreMembers(members[1..])
  }

  /** The escapes of a string (section 25.5.2.3 of ECMA-262). */
  lemma EscapesExactly(c: char)
    ensures EscapeChar('"') == "\\\"" && EscapeChar('\\') == "\\\\" && EscapeChar('\U{8}') == "\\b"
    ensures EscapeChar('\U{c}') == "\\f" && EscapeChar('\n') == "\\n" && EscapeChar('\r') == "\\r"
    ensures EscapeChar('\t') == "\\t" && EscapeChar('\U{1}') == "\\u0001" && EscapeChar('\U{1b}') == "\\u001b"
    ensures c as int >= 0x20 && c != '"' && c != '\\' ==> EscapeChar(c) == [c]
  {
  }

  lemma QuotedTexts()
    ensures Quote("") == "\"\"" && Quote("ab") == "\"ab\""
  {
    assert "ab"[1..] == "b" && "b"[1..] == "";
    assert QuoteRest("b") == "b\"" && QuoteRest("ab") == "ab\"";
  }

  /** Literals, and the punctuation of arrays and objects. */
  lemma WrittenArrays(a: Json, b: Json)
    ensures Stringify(Null) == "null" && Stringify(Bool(true)) == "true" && Stringify(Bool(false)) == "false"
    ensures Stringify(Array([])) == "[]" && Stringify(Object([])) == "{}"
    ensures Stringify(Array([a])) == "[" + Stringify(a) + "]"
    ensures Stringify(Array([a, b])) == "[" + Stringify(a) + ("," + Stringify(b) + "]")
  {
    assert [a, b][1..] == [b] && [b][1..] == [] && [a][1..] == [];
    assert MoreItems([b]) == "," + Stringify(b) + MoreItems([]);
  }

  lemma WrittenObjects(m: Member, n: Member)
    ensures Stringify(Object([m])) == "{" + (Quote(m.name) + ":" + Stringify(m.value)) + "}"
    ensures Stringify(Object([m, n]))
         == "{" + (Quote(m.name) + ":" + Stringify(m.value)) + ("," + (Quote(n.name) + ":" + Stringify(n.value)) + "}")
  {
    assert [m, n][1..] == [n] && [n][1..] == [] && [m][1..] == [];
    assert MoreMembers([n]) == "," + MemberText(n) + MoreMembers([]);
  }

  // ---------------------------------------------------------------------------
  // Reading back
  // ---------------------------------------------------------------------------

  predicate IsNumberChar(c: char) { '0' <= c <= '9' || c == '-' || c == '+' || c == '.' || c == 'e' }

  /** The text of a finite number starts with a digit or a minus sign. */
  predicate IsNumberText(s: string) {
    s != "" && ('0' <= s[0] <= '9' || s[0] == '-') && forall i :: 0 <= i < |s| ==> IsNumberChar(s[i])
  }

  predicate IsJson(j: Json) {
    match j
    case Number(digits) => IsNumberText(digits)
    case Array(items) => forall i :: 0 <= i < |items| ==> IsJson(items[i])
    case Object(members) => forall i :: 0 <= i < |members| ==> IsJson(members[i].value)
    case _ => true
  }

  /** Nothing that could continue a value. */
  predicate Stops(rest: string) {
    rest == "" || rest[0] == ',' || rest[0] == ']' || rest[0] == '}'
  }

  lemma EscapeIsUnique(c: char, d: char, x: string, y: string)
    requires EscapeChar(c) + x == EscapeChar(d) + y
    ensures c == d && x == y
  {
    var s, t := EscapeChar(c) + x, EscapeChar(d) + y;
    assert s[0] == EscapeChar(c)[0] && t[0] == EscapeChar(d)[0];
    if s[0] == '\\' {
      EscapedChars(c);
      EscapedChars(d);
      assert s[1] == EscapeChar(c)[1] && t[1] == EscapeChar(d)[1];
      if s[1] == 'u' {
        assert s[4] == EscapeChar(c)[4] && t[4] == EscapeChar(d)[4];
        assert s[5] == EscapeChar(c)[5] && t[5] == EscapeChar(d)[5];
        HexDigitIsUnique(c as int / 16, d as int / 16);
        HexDigitIsUnique(c as int % 16, d as int % 16);
      }
    }
    assert EscapeChar(c) == EscapeChar(d);
    assert s[|EscapeChar(c)|..] == x && t[|EscapeChar(d)|..] == y;
  }

  lemma HexDigitIsUnique(m: nat, n: nat)
    requires m < 16 && n < 16 && HexDigit(m) == HexDigit(n)
    ensures m == n
  {
    var digits := "0123456789abcdef";
    assert forall i, j :: 0 <= i < j < 16 ==> digits[i] != digits[j];
  }

  /** An escape is told apart from a plain character by its first two characters. */
  lemma EscapedChars(c: char)
    ensures EscapeChar(c)[0] == '\\' ==>
              && |EscapeChar(c)| > 1 && (ShortEscape(c) != "" || IsControl(c))
              && (EscapeChar(c)[1] == 'u' <==> ShortEscape(c) == "")
              && (ShortEscape(c) != "" ==> EscapeChar(c)[1..] == ShortEscape(c))
  {
  }

  lemma {:induction false} QuoteRestIsUnique(s: string, t: string, x: string, y: string)
    requires QuoteRest(s) + x == QuoteRest(t) + y
    ensures s == t && x == y
    decreases |s|
  {
    QuoteRestHead(s, x);
    QuoteRestHead(t, y);
    hide QuoteRest, EscapeChar;
    if s != "" && t != "" {
      EscapeIsUnique(s[0], t[0], QuoteRest(s[1..]) + x, QuoteRest(t[1..]) + y);
      QuoteRestIsUnique(s[1..], t[1..], x, y);
      assert s == [s[0]] + s[1..] && t == [t[0]] + t[1..];
    } else if s == "" && t == "" {
      assert ("\"" + x)[1..] == x && ("\"" + y)[1..] == y;
    }
  }

  /** Only the end of a text begins with a quote. */
  lemma QuoteRestHead(s: string, x: string)
    ensures s == "" ==> QuoteRest(s) + x == "\"" + x
    ensures s != "" ==> QuoteRest(s) + x == EscapeChar(s[0]) + (QuoteRest(s[1..]) + x)
    ensures (QuoteRest(s) + x)[0] == '"' <==> s == ""
  {
    if s != "" {
      var head, rest := EscapeChar(s[0]), QuoteRest(s[1..]);
      assert head[0] != '"';
      hide EscapeChar;
      assert QuoteRest(s) == head + rest;
      assert (head + rest) + x == head + (rest + x);
    }
  }

  lemma QuoteIsUnique(s: string, t: string, x: string, y: string)
    requires Quote(s) + x == Quote(t) + y
    ensures s == t && x == y
  {
    hide QuoteRest;
    assert (Quote(s) + x)[1..] == QuoteRest(s) + x && (Quote(t) + y)[1..] == QuoteRest(t) + y;
    hide Quote;
    QuoteRestIsUnique(s, t, x, y);
  }

  lemma NumberIsUnique(s: string, t: string, x: string, y: string)
    requires IsNumberText(s) && IsNumberText(t) && Stops(x) && Stops(y) && s + x == t + y
    ensures s == t && x == y
  {
    var whole := s + x;
    assert |s| < |whole| ==> whole[|s|] == x[0];
    assert |t| < |whole| ==> (t + y)[|t|] == y[0];
    assert forall i :: 0 <= i < |s| ==> whole[i] == s[i];
    assert forall i :: 0 <= i < |t| ==> (t + y)[i] == t[i];
    assert |s| == |t|;
    assert whole[..|s|] == s && (t + y)[..|t|] == t && whole[|s|..] == x && (t + y)[|t|..] == y;
  }

  /** The character a value's text begins with tells its kind; numbers have several. */
  function Head(j: Json): char
    requires IsJson(j)
  {
    match j
    case Null => 'n'
    case Bool(b) => if b then 't' else 'f'
    case Number(digits) => digits[0]
    case Text(_) => '"'
    case Array(_) => '['
    case Object(_) => '{'
  }

  lemma HeadIsFirst(j: Json, x: string)
    requires IsJson(j)
    ensures Stringify(j) != "" && (Stringify(j) + x)[0] == Head(j)
  {
  }

  /** The text of an array is cut after its bracket, that of an object likewise. */
  lemma ArrayText(items: seq<Json>, x: string)
    ensures var t := Stringify(Array(items)) + x;
            && t[0] == '['
            && t[1..] == (if items == [] then "]" + x else Stringify(items[0]) + (MoreItems(items[1..]) + x))
  {
    var t := Stringify(Array(items)) + x;
    if items == [] {
      assert t == "[" + ("]" + x);
    } else {
      assert t == "[" + (Stringify(items[0]) + (MoreItems(items[1..]) + x));
    }
  }

  lemma ObjectText(members: seq<Member>, x: string)
    ensures var t := Stringify(Object(members)) + x;
            && t[0] == '{'
            && t[1..] == (if members == [] then "}" + x else MemberText(members[0]) + (MoreMembers(members[1..]) + x))
  {
    var t := Stringify(Object(members)) + x;
    hide MemberText;
    if members == [] {
      assert t == "{" + ("}" + x);
    } else {
      assert t == "{" + (MemberText(members[0]) + (MoreMembers(members[1..]) + x));
    }
  }

  lemma MoreItemsText(items: seq<Json>, x: string)
    ensures var t := MoreItems(items) + x;
            && Stops(t) && (t[0] == ']' <==> items == [])
            && t[1..] == (if items == [] then x else Stringify(items[0]) + (MoreItems(items[1..]) + x))
  {
    var t := MoreItems(items) + x;
    if items != [] {
      assert t == "," + (Stringify(items[0]) + (MoreItems(items[1..]) + x));
    }
  }

  lemma MoreMembersText(members: seq<Member>, x: string)
    ensures var t := MoreMembers(members) + x;
            && Stops(t) && (t[0] == '}' <==> members == [])
            && t[1..] == (if members == [] then x else MemberText(members[0]) + (MoreMembers(members[1..]) + x))
  {
    var t := MoreMembers(members) + x;
    hide MemberText;
    if members != [] {
      assert t == "," + (MemberText(members[0]) + (MoreMembers(members[1..]) + x));
    }
  }

  predicate AllJson(items: seq<Json>) { forall i :: 0 <= i < |items| ==> IsJson(items[i]) }

  predicate AllJsonMembers(members: seq<Member>) { forall i :: 0 <= i < |members| ==> IsJson(members[i].value) }

  /** A value's text determines the value, and where it ends. */
  lemma {:induction false} TextIsUnique(a: Json, b: Json, x: string, y: string)
    requires IsJson(a) && IsJson(b) && Stops(x) && Stops(y)
    requires Stringify(a) + x == Stringify(b) + y
    ensures a == b && x == y
    decreases a, 0
  {
    HeadIsFirst(a, x);
    HeadIsFirst(b, y);
    if a.Number? && b.Number? {
      NumberIsUnique(a.digits, b.digits, x, y);
    } else if a.Text? && b.Text? {
      QuoteIsUnique(a.text, b.text, x, y);
    } else if a.Array? && b.Array? {
      ArrayIsUnique(a.items, b.items, x, y);
    } else if a.Object? && b.Object? {
      ObjectIsUnique(a.members, b.members, x, y);
    } else {
      assert a == b;
      assert (Stringify(a) + x)[|Stringify(a)|..] == x && (Stringify(b) + y)[|Stringify(b)|..] == y;
    }
  }

  lemma {:induction false} ArrayIsUnique(a: seq<Json>, b: seq<Json>, x: string, y: string)
    requires AllJson(a) && AllJson(b) && Stops(x) && Stops(y)
    requires Stringify(Array(a)) + x == Stringify(Array(b)) + y
    ensures a == b && x == y
    decreases a, 1
  {
    ArrayText(a, x);
    ArrayText(b, y);
    hide Stringify, MoreItems;
    if a != [] && b != [] {
      MoreItemsText(a[1..], x);
      MoreItemsText(b[1..], y);
      TextIsUnique(a[0], b[0], MoreItems(a[1..]) + x, MoreItems(b[1..]) + y);
      MoreItemsAreUnique(a[1..], b[1..], x, y);
      assert a == [a[0]] + a[1..] && b == [b[0]] + b[1..];
    } else {
      NoItems(a, x);
      NoItems(b, y);
    }
  }

  /** No value begins with a closing bracket. */
  lemma NoItems(a: seq<Json>, x: string)
    requires AllJson(a)
    ensures a != [] ==> (Stringify(a[0]) + (MoreItems(a[1..]) + x))[0] != ']'
    ensures ("]" + x)[0] == ']' && ("]" + x)[1..] == x
  {
    if a != [] {
      HeadIsFirst(a[0], MoreItems(a[1..]) + x);
    }
  }

  lemma {:induction false} MoreItemsAreUnique(a: seq<Json>, b: seq<Json>, x: string, y: string)
    requires AllJson(a) && AllJson(b) && Stops(x) && Stops(y)
    requires MoreItems(a) + x == MoreItems(b) + y
    ensures a == b && x == y
    decreases a, 0
  {
    MoreItemsText(a, x);
    MoreItemsText(b, y);
    hide Stringify, MoreItems;
    if a != [] && b != [] {
      MoreItemsText(a[1..], x);
      MoreItemsText(b[1..], y);
      TextIsUnique(a[0], b[0], MoreItems(a[1..]) + x, MoreItems(b[1..]) + y);
      MoreItemsAreUnique(a[1..], b[1..], x, y);
      assert a == [a[0]] + a[1..] && b == [b[0]] + b[1..];
    }
  }

  lemma {:induction false} MemberIsUnique(a: Member, b: Member, x: string, y: string)
    requires IsJson(a.value) && IsJson(b.value) && Stops(x) && Stops(y)
    requires MemberText(a) + x == MemberText(b) + y
    ensures a == b && x == y
    decreases a, 0
  {
    hide Stringify, Quote;
    assert MemberText(a) + x == Quote(a.name) + (":" + (Stringify(a.value) + x));
    assert MemberText(b) + y == Quote(b.name) + (":" + (Stringify(b.value) + y));
    hide MemberText;
    QuoteIsUnique(a.name, b.name, ":" + (Stringify(a.value) + x), ":" + (Stringify(b.value) + y));
    assert (":" + (Stringify(a.value) + x))[1..] == Stringify(a.value) + x;
    assert (":" + (Stringify(b.value) + y))[1..] == Stringify(b.value) + y;
    TextIsUnique(a.value, b.value, x, y);
  }

  lemma {:induction false} ObjectIsUnique(a: seq<Member>, b: seq<Member>, x: string, y: string)
    requires AllJsonMembers(a) && AllJsonMembers(b) && Stops(x) && Stops(y)
    requires Stringify(Object(a)) + x == Stringify(Object(b)) + y
    ensures a == b && x == y
    decreases a, 1
  {
    ObjectText(a, x);
    ObjectText(b, y);
    hide Stringify, MoreMembers, MemberText;
    if a != [] && b != [] {
      MoreMembersText(a[1..], x);
      MoreMembersText(b[1..], y);
      MemberIsUnique(a[0], b[0], MoreMembers(a[1..]) + x, MoreMembers(b[1..]) + y);
      MoreMembersAreUnique(a[1..], b[1..], x, y);
      assert a == [a[0]] + a[1..] && b == [b[0]] + b[1..];
    } else {
      NoMembers(a, x);
      NoMembers(b, y);
    }
  }

  lemma NoMembers(a: seq<Member>, x: string)
    ensures a != [] ==> (MemberText(a[0]) + (MoreMembers(a[1..]) + x))[0] != '}'
    ensures ("}" + x)[0] == '}' && ("}" + x)[1..] == x
  {
  }

  lemma {:induction false} MoreMembersAreUnique(a: seq<Member>, b: seq<Member>, x: string, y: string)
    requires AllJsonMembers(a) && AllJsonMembers(b) && Stops(x) && Stops(y)
    requires MoreMembers(a) + x == MoreMembers(b) + y
    ensures a == b && x == y
    decreases a, 0
  {
    MoreMembersText(a, x);
    MoreMembersText(b, y);
    hide Stringify, MoreMembers, MemberText;
    if a != [] && b != [] {
      MoreMembersText(a[1..], x);
      MoreMembersText(b[1..], y);
      MemberIsUnique(a[0], b[0], MoreMembers(a[1..]) + x, MoreMembers(b[1..]) + y);
      MoreMembersAreUnique(a[1..], b[1..], x, y);
      assert a == [a[0]] + a[1..] && b == [b[0]] + b[1..];
    }
  }

  /** No two JSON values have the same text. */
  lemma StringifyIsInjective(a: Json, b: Json)
    requires IsJson(a) && IsJson(b) && Stringify(a) == Stringify(b)
    ensures a == b
  {
    assert Stringify(a) + "" == Stringify(b) + "";
    TextIsUnique(a, b, "", "");
  }
}
