/**
 * Delivery in chunks: when a stream fed chunk by chunk is read as it is when fed whole.
 * The program forgets an ESC at the very end of a chunk, so the answer is: exactly when no
 * chunk boundary falls behind the ESC of a control sequence.
 */
module TerminalChunking {
  import opened Sequences
  import opened ControlSequences
  import opened TerminalInputMode

  /** Feeding the chunks one after the other. */
  function FeedAll(t: Tracker, chunks: seq<string>): FeedResult
    requires IsPending(t.pending)
    decreases chunks
  {
    if chunks == [] then FeedResult(t, false, [])
    else
      var first := FeedTracker(t, chunks[0]);
      FeedKeepsPending(t, chunks[0]);
      var rest := FeedAll(first.tracker, chunks[1..]);
      FeedResult(rest.tracker, first.changed || rest.changed, first.responses + rest.responses)
  }

  /** The sequences recognised chunk by chunk, and the state after the last chunk. */
  function ScanChunks(q: Scan, chunks: seq<string>): Scanned
    decreases chunks
  {
    if chunks == [] then Scanned(q, [])
    else
      var first := Run(q, chunks[0]);
      var rest := ScanChunks(Settle(first.scan), chunks[1..]);
      Scanned(rest.scan, first.tokens + rest.tokens)
  }

  /** The sequences recognised in one piece. */
  function ScanWhole(q: Scan, text: string): Scanned {
    var run := Run(q, text);
    Scanned(Settle(run.scan), run.tokens)
  }

  /** A control sequence, complete or cut short by the end of the text, starts here. */
  predicate StartsSequence(text: string) {
    MatchAt(text, 0).Some? || IsIncomplete(text)
  }

  /** The boundary before chunk `i` falls between the ESC and the `[` of a control sequence. */
  predicate CutsSequence(chunks: seq<string>, i: nat)
    requires i <= |chunks|
  {
    var before := Flatten(chunks[..i]);
    && before != "" && before[|before| - 1] == ESC
    && StartsSequence([ESC] + Flatten(chunks[i..]))
  }

  predicate NoSequenceCut(chunks: seq<string>) {
    forall i :: 0 < i < |chunks| ==> !CutsSequence(chunks, i)
  }

  // ---------------------------------------------------------------------------
  // Forgetting an ESC
  // ---------------------------------------------------------------------------

  /** How much a scan found: its sequences, and one more for a sequence still open. */
  function Weight(s: Scanned): nat {
    |s.tokens| + if s.scan.Csi? then 1 else 0
  }

  /** The character that leaves a body decides whether a sequence started. */
  lemma BodyStops(body: string, text: string)
    requires IsBody(body) && text != "" && !Step(Csi(body), text[0]).scan.Csi?
    ensures StartsSequence([ESC, '['] + (body + text)) <==> Step(Csi(body), text[0]).tokens != []
  {
    var whole := [ESC, '['] + (body + text);
    assert Spells(whole, 2, body) && whole[2 + |body|] == text[0];
    BodyIsRead(whole, 2, body);
  }

  /** Inside a body that ends with the text, nothing is recognised but the open sequence counts. */
  lemma BodyStaysOpen(body: string)
    requires IsBody(body)
    ensures StartsSequence([ESC, '['] + (body + ""))
  {
    assert body + "" == body;
    IncompleteIsBody(body);
  }

  /** A scan from inside a body against one from the ground. */
  ghost predicate OneMoreInside(body: string, text: string) {
    var inside, outside := ScanWhole(Csi(body), text), ScanWhole(Ground, text);
    if StartsSequence([ESC, '['] + (body + text)) then Weight(inside) == Weight(outside) + 1 else inside == outside
  }

  lemma {:induction false} BodyAgainstGround(body: string, text: string)
    requires IsBody(body)
    ensures OneMoreInside(body, text)
    decreases text
  {
    if text == "" {
      BodyStaysOpen(body);
    } else if Step(Csi(body), text[0]).scan.Csi? {
      hide StartsSequence;
      StepKeepsBody(Csi(body), text[0]);
      BodyAgainstGround(body + [text[0]], text[1..]);
      assert body + text == body + [text[0]] + text[1..];
    } else {
      hide StartsSequence;
      BodyStops(body, text);
      assert Step(Csi(body), text[0]).scan == Step(Ground, text[0]).scan;
    }
  }

  /** What forgetting the ESC costs: nothing, unless a sequence starts there. */
  lemma EscapeAgainstGround(text: string)
    ensures var kept := ScanWhole(Escape, text);
            var forgotten := ScanWhole(Ground, text);
            && (!StartsSequence([ESC] + text) ==> kept == forgotten)
            && (StartsSequence([ESC] + text) ==> Weight(kept) == Weight(forgotten) + 1)
  {
    if text != "" && text[0] == '[' {
      BodyAgainstGround("", text[1..]);
      assert [ESC, '['] + ("" + text[1..]) == [ESC] + text;
    } else {
      assert !IntroducerAt([ESC] + text, 0);
    }
  }

  lemma {:induction false} RunEndsInEscape(q: Scan, text: string)
    requires text != ""
    ensures Run(q, text).scan == Escape <==> text[|text| - 1] == ESC
  {
    var before, c := text[..|text| - 1], text[|text| - 1];
    assert text == before + [c];
    RunSnoc(q, before, c);
  }

  lemma ScanWholeAppend(q: Scan, a: string, b: string)
    ensures ScanWhole(q, a + b)
         == Scanned(ScanWhole(Run(q, a).scan, b).scan, Run(q, a).tokens + ScanWhole(Run(q, a).scan, b).tokens)
  {
    RunAppend(q, a, b);
  }

  // ---------------------------------------------------------------------------
  // Boundaries
  // ---------------------------------------------------------------------------

  /** A cut inside the later chunks is a cut of the whole stream. */
  lemma CutOfRest(chunks: seq<string>, i: nat)
    requires 0 < i < |chunks| - 1 && CutsSequence(chunks[1..], i)
    ensures CutsSequence(chunks, i + 1)
  {
    var rest := chunks[1..];
    assert chunks[..i + 1] == [chunks[0]] + rest[..i];
    assert chunks[i + 1..] == rest[i..];
    assert (chunks[..i + 1])[1..] == rest[..i];
  }

  /** A cut of the stream is at the first boundary or inside the later chunks. */
  lemma CutIsFirstOrLater(chunks: seq<string>, i: nat)
    requires 1 < i < |chunks| && CutsSequence(chunks, i)
    ensures CutsSequence(chunks, 1) || CutsSequence(chunks[1..], i - 1)
  {
    var rest := chunks[1..];
    var between := Flatten(rest[..i - 1]);
    assert chunks[..i] == [chunks[0]] + rest[..i - 1];
    assert (chunks[..i])[1..] == rest[..i - 1];
    assert chunks[i..] == rest[i - 1..];
    var before := Flatten(chunks[..i]);
    assert before == chunks[0] + between;
    if between == "" {
      assert rest == rest[..i - 1] + rest[i - 1..];
      FlattenAppend(rest[..i - 1], rest[i - 1..]);
      assert Flatten(rest) == Flatten(chunks[i..]);
      FirstCut(chunks);
    } else {
      assert between[|between| - 1] == before[|before| - 1];
    }
  }

  lemma FirstCut(chunks: seq<string>)
    requires |chunks| > 1
    ensures CutsSequence(chunks, 1)
       <==> chunks[0] != "" && chunks[0][|chunks[0]| - 1] == ESC
            && StartsSequence([ESC] + Flatten(chunks[1..]))
  {
    assert chunks[..1] == [chunks[0]];
    FlattenOne(chunks[0]);
  }

  /** Chunks never yield more than the whole, and yield less at every cut. */
  lemma {:induction false} ChunksAgainstWhole(q: Scan, chunks: seq<string>)
    requires q != Escape
    ensures var parts := ScanChunks(q, chunks);
            var whole := ScanWhole(q, Flatten(chunks));
            && (NoSequenceCut(chunks) ==> parts == whole)
            && (!NoSequenceCut(chunks) ==> Weight(parts) < Weight(whole))
    decreases chunks
  {
    if chunks != [] {
      var rest, text := chunks[1..], Flatten(chunks[1..]);
      var first := Run(q, chunks[0]);
      ChunksAgainstWhole(Settle(first.scan), rest);
      ScanWholeAppend(q, chunks[0], text);
      EscapeAgainstGround(text);
      var cutFirst := |chunks| > 1 && CutsSequence(chunks, 1);
      if chunks[0] != "" {
        RunEndsInEscape(q, chunks[0]);
      }
      if |chunks| > 1 {
        FirstCut(chunks);
      } else {
        assert text == "";
      }
      assert NoSequenceCut(chunks) <==> !cutFirst && NoSequenceCut(rest) by {
        CutsOfChunks(chunks);
      }
    }
  }

  lemma CutsOfChunks(chunks: seq<string>)
    requires chunks != []
    ensures NoSequenceCut(chunks)
       <==> !(|chunks| > 1 && CutsSequence(chunks, 1)) && NoSequenceCut(chunks[1..])
  {
    var rest := chunks[1..];
    if NoSequenceCut(chunks) {
      forall i | 0 < i < |rest| ensures !CutsSequence(rest, i) {
        if CutsSequence(rest, i) {
          CutOfRest(chunks, i);
        }
      }
    } else {
      var i :| 0 < i < |chunks| && CutsSequence(chunks, i);
      if i > 1 {
        CutIsFirstOrLater(chunks, i);
      }
    }
  }

  /**
   * The sequences recognised, and the sequence left open, are those of the whole stream
   * exactly when no boundary cuts a sequence behind its ESC.
   */
  lemma ChunkingExact(q: Scan, chunks: seq<string>)
    requires q != Escape
    ensures ScanChunks(q, chunks) == ScanWhole(q, Flatten(chunks)) <==> NoSequenceCut(chunks)
  {
    ChunksAgainstWhole(q, chunks);
  }

  // ---------------------------------------------------------------------------
  // The tracker
  // ---------------------------------------------------------------------------

  /** The fold of recognised sequences over the modes, with the sequence left open. */
  function Outcome(m: Modes, scanned: Scanned): FeedResult {
    var applied := ApplyAll(m, scanned.tokens);
    FeedResult(Tracker(applied.modes, PendingText(scanned.scan)), applied.changed, applied.responses)
  }

  /** Feeding chunk by chunk folds the sequences the chunks yield. */
  lemma {:induction false} FeedAllFolds(t: Tracker, chunks: seq<string>)
    requires IsPending(t.pending)
    ensures FeedAll(t, chunks) == Outcome(t.modes, ScanChunks(ScanOf(t.pending), chunks))
    decreases chunks
  {
    if chunks == [] {
      if t.pending != "" {
        assert t.pending == [ESC, '['] + t.pending[2..];
      }
    } else {
      var q := ScanOf(t.pending);
      var first := Run(q, chunks[0]);
      var fed := FeedTracker(t, chunks[0]);
      FeedKeepsPending(t, chunks[0]);
      RunKeepsBody(q, chunks[0]);
      SettledPending(first.scan);
      FeedAllFolds(fed.tracker, chunks[1..]);
      var rest := ScanChunks(Settle(first.scan), chunks[1..]);
      ApplyAllAppend(t.modes, first.tokens, rest.tokens);
    }
  }

  /**
   * Chunking invariance: with no boundary behind the ESC of a sequence, the chunks leave the
   * same modes, the same stack and the same pending prefix as the whole stream, with the same
   * responses and the same answer to "did anything change".
   */
  lemma ChunkingInvariance(t: Tracker, chunks: seq<string>)
    requires IsPending(t.pending) && NoSequenceCut(chunks)
    ensures FeedAll(t, chunks) == FeedTracker(t, Flatten(chunks))
  {
    FeedAllFolds(t, chunks);
    ChunksAgainstWhole(ScanOf(t.pending), chunks);
  }

  lemma PushFive()
    ensures Apply(INITIAL, Kitty(">", "5")).modes.flags == 5
  {
    SplitAtom("5", ';');
    assert "5"[..0] == "";
  }

  /** The cut that loses a sequence: ESC in one chunk, the rest of a push in the next. */
  lemma EscapeCutLosesSequence()
    ensures FeedTracker(Tracker(INITIAL, ""), [ESC] + "[>5u").tracker.modes.flags == 5
    ensures FeedAll(Tracker(INITIAL, ""), [[ESC], "[>5u"]) == FeedResult(Tracker(INITIAL, ""), false, [])
  {
    var t, push := Tracker(INITIAL, ""), Kitty(">", "5");
    assert Run(Ground, [ESC] + "[>5u") == Scanned(Ground, [push]) by {
      assert [ESC] + "[>5u" == Sequence(push);
      RunSequence(Ground, push);
    }
    PushFive();
    ApplyAllSnoc(INITIAL, [], push);
    assert [] + [push] == [push];
    RunWithoutEscape("[>5u");
    RunOne(Ground, ESC);
    hide Run;
    assert FeedTracker(t, [ESC]) == FeedTracker(t, "[>5u") == FeedResult(t, false, []);
    hide FeedTracker;
    var chunks, rest := [[ESC], "[>5u"], ["[>5u"];
    assert chunks[1..] == rest && rest[1..] == [];
    assert FeedAll(t, rest) == FeedResult(t, false, []);
  }
}
