/** The kitty keyboard stack: what a pop brings back, and what a balanced run leaves behind. */
module KittyStack {
  import opened ControlSequences
  import opened TerminalInputMode

  /** Popping brings back the flags saved that many pushes ago, or 0, and drops what was saved since. */
  lemma {:induction false} PopRestores(m: Modes, count: nat)
    requires count >= 1
    ensures var popped := PopTimes(m, count);
            && popped.flags == (if count <= |m.stack| then m.stack[|m.stack| - count] else 0)
            && popped.stack == (if count <= |m.stack| then m.stack[..|m.stack| - count] else [])
            && popped == m.(flags := popped.flags, stack := popped.stack)
    decreases count
  {
    var once := PopOnce(m);
    if count > 1 {
      PopRestores(once, count - 1);
      if 1 < count <= |m.stack| {
        assert once.stack[..|once.stack| - (count - 1)] == m.stack[..|m.stack| - count];
      }
    } else {
      assert PopTimes(once, 0) == once;
    }
  }

  /** A pop of `n` undoes `n` pushes, whatever was pushed. */
  lemma {:induction false} PopsUndoPushes(m: Modes, pushes: seq<string>)
    requires pushes != []
    ensures PopTimes(PushAll(m, pushes), |pushes|) == m
    decreases pushes
  {
    var before, last := pushes[..|pushes| - 1], pushes[|pushes| - 1];
    assert PopOnce(PushAll(m, pushes)) == PushAll(m, before) by {
      var saved := PushAll(m, before);
      assert (saved.stack + [saved.flags])[..|saved.stack|] == saved.stack;
    }
    if before == [] {
      assert PopTimes(m, 0) == m;
    } else {
      PopsUndoPushes(m, before);
    }
  }

  function PushAll(m: Modes, pushes: seq<string>): Modes {
    if pushes == [] then m
    else ApplyKitty(PushAll(m, pushes[..|pushes| - 1]), ">", pushes[|pushes| - 1]).modes
  }

  /** How far a sequence raises the stack: a push by one, a pop by minus its count. */
  function Rise(t: Token): int {
    if t.Kitty? && t.prefix == "<" then 0 - PopCount(t.params)
    else if t.Kitty? && t.prefix == ">" then 1
    else 0
  }

  function Depth(tokens: seq<Token>): int {
    if tokens == [] then 0 else Depth(tokens[..|tokens| - 1]) + Rise(tokens[|tokens| - 1])
  }

  /** A run that never pops more than it pushed before. */
  predicate StaysAbove(tokens: seq<Token>) {
    Depth(tokens) >= 0 && forall i :: 0 <= i < |tokens| ==> Depth(tokens[..i]) >= 0
  }

  lemma {:induction false} DepthAppend(a: seq<Token>, b: seq<Token>)
    ensures Depth(a + b) == Depth(a) + Depth(b)
  {
    if b == [] {
      assert a + b == a;
    } else {
      assert (a + b)[..|a + b| - 1] == a + b[..|b| - 1];
      DepthAppend(a, b[..|b| - 1]);
    }
  }

  /** A single sequence that does not pop below a mark leaves what is under the mark alone. */
  lemma RiseMoves(m: Modes, t: Token, mark: nat)
    requires mark <= |m.stack| + Rise(t) && mark <= |m.stack|
    ensures var after := Apply(m, t).modes;
            |after.stack| == |m.stack| + Rise(t) && after.stack[..mark] == m.stack[..mark]
  {
    if t.Kitty? && t.prefix == "<" {
      PopRestores(m, PopCount(t.params));
    }
  }

  /** A run that stays above its start raises the stack by its depth and keeps what was there. */
  lemma {:induction false} StackAbove(m: Modes, tokens: seq<Token>)
    requires StaysAbove(tokens)
    ensures var after := ApplyAll(m, tokens).modes;
            |after.stack| == |m.stack| + Depth(tokens) && after.stack[..|m.stack|] == m.stack
  {
    if tokens == [] {
      assert m.stack[..|m.stack|] == m.stack;
    } else {
      var before, last := tokens[..|tokens| - 1], tokens[|tokens| - 1];
      forall i | 0 <= i < |before| ensures Depth(before[..i]) >= 0 {
        assert before[..i] == tokens[..i];
      }
      assert tokens == before + [last];
      StackAbove(m, before);
      ApplyAllSnoc(m, before, last);
      RiseMoves(ApplyAll(m, before).modes, last, |m.stack|);
      hide Rise, Apply, ApplyAll, StaysAbove;
    }
  }

  /** A balanced run, in which a pop may close several pushes at once, leaves the stack as it found it. */
  lemma NestKeepsStack(m: Modes, tokens: seq<Token>)
    requires StaysAbove(tokens) && Depth(tokens) == 0
    ensures ApplyAll(m, tokens).modes.stack == m.stack
  {
    StackAbove(m, tokens);
    hide ApplyAll;
  }

  /** A run that starts with a push and ends where it first returns to the start. */
  predicate IsBracket(tokens: seq<Token>) {
    && |tokens| > 1 && Rise(tokens[0]) == 1
    && (forall i :: 0 < i < |tokens| ==> Depth(tokens[..i]) >= 1)
    && Depth(tokens) == 0
  }

  /** Between the push and the pop that returns to the start, nothing goes below the push. */
  lemma BracketBody(tokens: seq<Token>)
    requires IsBracket(tokens)
    ensures var body, last := tokens[1..|tokens| - 1], tokens[|tokens| - 1];
            && tokens == [tokens[0]] + body + [last]
            && StaysAbove(body) && Rise(last) == -1 - Depth(body)
  {
    var body := tokens[1..|tokens| - 1];
    forall i | 0 <= i <= |body| ensures Depth(body[..i]) == Depth(tokens[..i + 1]) - 1 {
      BehindFirst(tokens, i);
      assert tokens[1..i + 1] == body[..i];
    }
    assert body[..|body|] == body;
    hide Rise;
  }

  lemma BehindFirst(tokens: seq<Token>, i: nat)
    requires i < |tokens|
    ensures Depth(tokens[..i + 1]) == Rise(tokens[0]) + Depth(tokens[1..i + 1])
  {
    var first := [tokens[0]];
    assert tokens[..i + 1] == first + tokens[1..i + 1];
    assert first[..0] == [] && Depth([]) == 0;
    assert Depth(first) == Rise(tokens[0]);
    hide Depth, Rise;
    DepthAppend(first, tokens[1..i + 1]);
  }

  lemma ApplyCons(m: Modes, t: Token, rest: seq<Token>)
    ensures ApplyAll(m, [t] + rest).modes == ApplyAll(Apply(m, t).modes, rest).modes
  {
    hide Apply;
    assert ([t] + rest)[1..] == rest;
  }

  /** A pop down to a mark brings back the flags that were saved there. */
  lemma PopToMark(m: Modes, under: seq<nat>, flags: nat, params: string)
    requires |m.stack| == |under| + PopCount(params) && m.stack[..|under| + 1] == under + [flags]
    ensures var after := Apply(m, Kitty("<", params)).modes; after.flags == flags && after.stack == under
  {
    hide PopTimes, PopCount;
    PopRestores(m, PopCount(params));
    assert m.stack[|under|] == m.stack[..|under| + 1][|under|];
    assert m.stack[..|under|] == m.stack[..|under| + 1][..|under|] == under;
  }

  /**
   * From a push to the pop that returns to where it started, whatever is set, queried, pushed
   * and popped in between: the flags and the stack come back.
   */
  lemma BracketRestores(m: Modes, tokens: seq<Token>)
    requires IsBracket(tokens)
    ensures var after := ApplyAll(m, tokens).modes; after.flags == m.flags && after.stack == m.stack
  {
    var push, body, last := tokens[0], tokens[1..|tokens| - 1], tokens[|tokens| - 1];
    BracketBody(tokens);
    var pushed := Apply(m, push).modes;
    assert pushed.stack == m.stack + [m.flags];
    var through := ApplyAll(pushed, body).modes;
    assert Depth(body) >= 0;
    assert last == Kitty("<", last.params) && PopCount(last.params) == 1 + Depth(body);
    hide ApplyAll, Apply, PopCount, Depth, Rise, IsBracket, StaysAbove;
    StackAbove(pushed, body);
    ApplyCons(m, push, body);
    ApplyAllSnoc(m, [push] + body, last);
    PopToMark(through, m.stack, m.flags, last.params);
  }
}
