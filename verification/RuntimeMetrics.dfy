/**
 * Rolling-window metrics: counters are kept per period and merged when a report is due. What a
 * report shows for a key is what the recorded events of the kept periods add up to.
 */
module RuntimeMetrics {
  import opened Wrappers
  import opened Sequences

  datatype Event =
    | MessageIn(messageType: string, bytes: int, handlerMs: real)
    | StreamIn(agentId: string, eventType: string)
    | FrameIn(kind: string, bytes: int, handlerMs: real)

  datatype Timing = Timing(count: nat, totalMs: real, maxMs: real)

  type Counts = map<string, int>
  type Timings = map<string, Timing>

  datatype Totals = Totals(
    messageCounts: Counts,
    messageBytes: Counts,
    handlerMs: Timings,
    streamCounts: Counts,
    streamByAgentCounts: Counts,
    frameCounts: Counts)

  const NOTHING: Totals := Totals(map[], map[], map[], map[], map[], map[])

  const DEFAULT_ROLLING_WINDOW_MS: int := 60000

  function Max(a: real, b: real): real { if a < b then b else a }

  function CountOf(m: Counts, k: string): int { if k in m then m[k] else 0 }

  function Increment(m: Counts, k: string, n: int): Counts { m[k := CountOf(m, k) + n] }

  function AddTimings(a: Timing, b: Timing): Timing {
    Timing(a.count + b.count, a.totalMs + b.totalMs, Max(a.maxMs, b.maxMs))
  }

  /** Adds a timing to a table under a key. */
  function Added(m: Timings, k: string, t: Timing): Timings {
    m[k := if k in m then AddTimings(m[k], t) else t]
  }

  function IncrementTiming(m: Timings, k: string, ms: real): Timings {
    Added(m, k, Timing(1, ms, ms))
  }

  function BinaryKey(kind: string): string { "binary:" + kind }

  /** What recording one event does to the counters. */
  function Record(t: Totals, e: Event): Totals {
    match e
    case MessageIn(k, bytes, ms) =>
      t.(messageCounts := Increment(t.messageCounts, k, 1), messageBytes := Increment(t.messageBytes, k, bytes),
         handlerMs := IncrementTiming(t.handlerMs, k, ms))
    case StreamIn(agent, k) =>
      t.(streamCounts := Increment(t.streamCounts, k, 1),
         streamByAgentCounts := Increment(t.streamByAgentCounts, agent, 1))
    case FrameIn(kind, bytes, ms) =>
      t.(frameCounts := Increment(t.frameCounts, kind, 1),
         messageBytes := Increment(t.messageBytes, BinaryKey(kind), bytes),
         handlerMs := IncrementTiming(t.handlerMs, BinaryKey(kind), ms))
  }

  function Summary(events: seq<Event>): Totals {
    if events == [] then NOTHING else Record(Summary(events[..|events| - 1]), events[|events| - 1])
  }

  // ---------------------------------------------------------------------------
  // Merging
  // ---------------------------------------------------------------------------

  function MergeCounts(a: Counts, b: Counts): Counts {
    map k | k in a.Keys + b.Keys :: CountOf(a, k) + CountOf(b, k)
  }

  function MergeTimings(a: Timings, b: Timings): Timings {
    map k | k in a.Keys + b.Keys ::
      if k in a && k in b then AddTimings(a[k], b[k]) else if k in a then a[k] else b[k]
  }

  function Merge(a: Totals, b: Totals): Totals {
    Totals(MergeCounts(a.messageCounts, b.messageCounts), MergeCounts(a.messageBytes, b.messageBytes),
           MergeTimings(a.handlerMs, b.handlerMs), MergeCounts(a.streamCounts, b.streamCounts),
           MergeCounts(a.streamByAgentCounts, b.streamByAgentCounts), MergeCounts(a.frameCounts, b.frameCounts))
  }

  lemma MergeIncrement(a: Counts, b: Counts, k: string, n: int)
    ensures MergeCounts(a, Increment(b, k, n)) == Increment(MergeCounts(a, b), k, n)
  {
    assert forall j :: j in MergeCounts(a, b) <==> j in a || j in b;
  }

  lemma MergeIncrementTiming(a: Timings, b: Timings, k: string, ms: real)
    ensures MergeTimings(a, IncrementTiming(b, k, ms)) == IncrementTiming(MergeTimings(a, b), k, ms)
  {
    assert forall j :: j in MergeTimings(a, b) <==> j in a || j in b;
  }

  lemma MergeRecord(a: Totals, b: Totals, e: Event)
    ensures Merge(a, Record(b, e)) == Record(Merge(a, b), e)
  {
    hide MergeCounts, MergeTimings, Increment, IncrementTiming;
    match e {
      case MessageIn(k, bytes, ms) =>
        MergeIncrement(a.messageCounts, b.messageCounts, k, 1);
        MergeIncrement(a.messageBytes, b.messageBytes, k, bytes);
        MergeIncrementTiming(a.handlerMs, b.handlerMs, k, ms);
      case StreamIn(agent, k) =>
        MergeIncrement(a.streamCounts, b.streamCounts, k, 1);
        MergeIncrement(a.streamByAgentCounts, b.streamByAgentCounts, agent, 1);
      case FrameIn(kind, bytes, ms) =>
        MergeIncrement(a.frameCounts, b.frameCounts, kind, 1);
        MergeIncrement(a.messageBytes, b.messageBytes, BinaryKey(kind), bytes);
        MergeIncrementTiming(a.handlerMs, b.handlerMs, BinaryKey(kind), ms);
    }
  }

  lemma MergeNothing(a: Totals)
    ensures Merge(a, NOTHING) == a && Merge(NOTHING, a) == a
  {
    assert forall m: Counts :: MergeCounts(m, map[]) == m && MergeCounts(map[], m) == m;
    assert MergeTimings(a.handlerMs, map[]) == a.handlerMs && MergeTimings(map[], a.handlerMs) == a.handlerMs;
  }

  /** Merging the summaries of two periods summarises both. */
  lemma {:induction false} MergeSummaries(a: seq<Event>, b: seq<Event>)
    ensures Merge(Summary(a), Summary(b)) == Summary(a + b)
  {
    hide Merge, Record;
    if b == [] {
      assert a + b == a;
      MergeNothing(Summary(a));
    } else {
      assert (a + b)[..|a + b| - 1] == a + b[..|b| - 1];
      MergeSummaries(a, b[..|b| - 1]);
      MergeRecord(Summary(a), Summary(b[..|b| - 1]), b[|b| - 1]);
    }
  }

  // ---------------------------------------------------------------------------
  // What a summary means, key by key
  // ---------------------------------------------------------------------------

  datatype Counter = Messages | Bytes | StreamTypes | StreamAgents | Frames

  function CountsFor(t: Totals, c: Counter): Counts {
    match c
    case Messages => t.messageCounts
    case Bytes => t.messageBytes
    case StreamTypes => t.streamCounts
    case StreamAgents => t.streamByAgentCounts
    case Frames => t.frameCounts
  }

  /** The key a counter files an event under, if it counts such events at all. */
  function Filed(c: Counter, e: Event): Option<string> {
    match e
    case MessageIn(k, _, _) => if c.Messages? || c.Bytes? then Some(k) else None
    case StreamIn(agent, k) => if c.StreamTypes? then Some(k) else if c.StreamAgents? then Some(agent) else None
    case FrameIn(kind, _, _) => if c.Frames? then Some(kind) else if c.Bytes? then Some(BinaryKey(kind)) else None
  }

  function Weight(c: Counter, e: Event): int {
    if c.Bytes? && !e.StreamIn? then e.bytes else 1
  }

  /** What the events filed under a key weigh together. */
  function Weigh(c: Counter, events: seq<Event>, k: string): int {
    if events == [] then 0
    else
      var before := Weigh(c, events[..|events| - 1], k);
      if Filed(c, events[|events| - 1]) == Some(k) then before + Weight(c, events[|events| - 1]) else before
  }

  predicate Times(e: Event, k: string) { Filed(Bytes, e) == Some(k) }

  /** The handler time of a key over the events: how many, how long together, how long at most. */
  function TimeOf(events: seq<Event>, k: string): Option<Timing> {
    if events == [] then None
    else
      var before, last := TimeOf(events[..|events| - 1], k), events[|events| - 1];
      if !Times(last, k) then before
      else if before.None? then Some(Timing(1, last.handlerMs, last.handlerMs))
      else Some(Timing(before.value.count + 1, before.value.totalMs + last.handlerMs,
                       Max(before.value.maxMs, last.handlerMs)))
  }

  lemma RecordFiles(t: Totals, e: Event, c: Counter, k: string)
    ensures CountOf(CountsFor(Record(t, e), c), k)
         == CountOf(CountsFor(t, c), k) + if Filed(c, e) == Some(k) then Weight(c, e) else 0
    ensures k in CountsFor(Record(t, e), c) <==> k in CountsFor(t, c) || Filed(c, e) == Some(k)
  {
  }

  predicate Files(c: Counter, events: seq<Event>, k: string) {
    exists i :: 0 <= i < |events| && Filed(c, events[i]) == Some(k)
  }

  /** Every counter shows, for every key, exactly what its events add up to; and lists only keys that occurred. */
  lemma {:induction false} CountsMean(c: Counter, events: seq<Event>, k: string)
    ensures CountOf(CountsFor(Summary(events), c), k) == Weigh(c, events, k)
    ensures k in CountsFor(Summary(events), c) <==> Files(c, events, k)
  {
    if events != [] {
      hide Record, CountsFor, Filed, Weight;
      var before, last := events[..|events| - 1], events[|events| - 1];
      CountsMean(c, before, k);
      RecordFiles(Summary(before), last, c, k);
      FilesLast(c, events, k);
    } else {
      assert !Files(c, events, k);
    }
  }

  lemma FilesLast(c: Counter, events: seq<Event>, k: string)
    requires events != []
    ensures Files(c, events, k) <==> Files(c, events[..|events| - 1], k) || Filed(c, events[|events| - 1]) == Some(k)
  {
    hide Filed;
    var before := events[..|events| - 1];
    assert forall i :: 0 <= i < |before| ==> before[i] == events[i];
    if Files(c, before, k) {
      var i :| 0 <= i < |before| && Filed(c, before[i]) == Some(k);
      assert Filed(c, events[i]) == Some(k);
    }
  }

  lemma {:induction false} TimingsMean(events: seq<Event>, k: string)
    ensures var t := Summary(events).handlerMs; TimeOf(events, k) == if k in t then Some(t[k]) else None
  {
    if events != [] {
      TimingsMean(events[..|events| - 1], k);
    }
  }

  /** The time of a key bounds the time of every one of its events, and one of them reaches it. */
  lemma {:induction false} MaximumIsReached(events: seq<Event>, k: string)
    ensures TimeOf(events, k).Some? <==> Files(Bytes, events, k)
    ensures forall i :: 0 <= i < |events| && Times(events[i], k) ==>
              TimeOf(events, k).Some? && events[i].handlerMs <= TimeOf(events, k).value.maxMs
    ensures TimeOf(events, k).Some? ==>
              exists i :: 0 <= i < |events| && Times(events[i], k)
                       && events[i].handlerMs == TimeOf(events, k).value.maxMs
  {
    if events == [] {
      assert !Files(Bytes, events, k);
    } else {
      var before, last := events[..|events| - 1], events[|events| - 1];
      MaximumIsReached(before, k);
      FilesLast(Bytes, events, k);
      hide Filed;
      assert forall i :: 0 <= i < |before| ==> events[i] == before[i];
      var max := TimeOf(events, k);
      if Times(last, k) && max.value.maxMs == last.handlerMs {
        assert Times(events[|events| - 1], k);
      } else if TimeOf(before, k).Some? {
        var i :| 0 <= i < |before| && Times(before[i], k) && before[i].handlerMs == TimeOf(before, k).value.maxMs;
        assert Times(events[i], k) && events[i].handlerMs == max.value.maxMs;
      }
    }
  }

  // ---------------------------------------------------------------------------
  // Timing cells: the handler times are objects that are updated in place
  // ---------------------------------------------------------------------------

  class HandlerTiming {
    var count: nat
    var totalMs: real
    var maxMs: real

    constructor (t: Timing)
      ensures Value() == t
    {
      count, totalMs, maxMs := t.count, t.totalMs, t.maxMs;
    }

    function Value(): Timing
      reads this
    {
      Timing(count, totalMs, maxMs)
    }

    method Add(t: Timing)
      modifies this
      ensures Value() == AddTimings(old(Value()), t)
    {
      count := count + t.count;
      totalMs := totalMs + t.totalMs;
      maxMs := Max(maxMs, t.maxMs);
    }
  }

  type Cells = map<string, HandlerTiming>

  /** No cell serves two keys. */
  ghost predicate Separate(m: Cells) {
    forall j, k :: j in m && k in m && m[j] == m[k] ==> j == k
  }

  ghost function Values(m: Cells): Timings
    reads m.Values
  {
    map k | k in m :: m[k].Value()
  }

  lemma ValueAt(m: Cells, k: string)
    ensures k in Values(m) <==> k in m
    ensures k in m ==> Values(m)[k] == m[k].Value() && m[k] in m.Values
  {
  }

  /** Adds a timing under a key, in the key's cell if it has one. */
  method AddTo(target: Cells, k: string, t: Timing) returns (m: Cells)
    requires Separate(target)
    modifies target.Values
    ensures Separate(m) && fresh(m.Values - target.Values)
    ensures Values(m) == Added(old(Values(target)), k, t)
  {
    if k in target {
      target[k].Add(t);
      m := target;
    } else {
      var cell := new HandlerTiming(t);
      m := target[k := cell];
    }
  }

  /** Entries yet to be visited, one visited. */
  lemma VisitKey<V>(m: map<string, V>, keys: set<string>, k: string)
    requires keys <= m.Keys && k in keys
    ensures k !in m - keys && m - (keys - {k}) == (m - keys)[k := m[k]]
  {
  }

  lemma VisitAll<V>(m: map<string, V>)
    ensures m - m.Keys == map[] && m - {} == m
  {
  }

  lemma MergeNone(before: Timings)
    ensures MergeTimings(before, map[]) == before
  {
  }

  lemma MergeOneMore(before: Timings, done: Timings, other: Timings, k: string)
    requires k in other && k !in done
    ensures MergeTimings(before, done[k := other[k]]) == Added(MergeTimings(before, done), k, other[k])
  {
  }

  /** Merges one more entry, reading its cell and updating the target's. */
  method MergeEntry(m: Cells, source: Cells, k: string, ghost before: Timings, ghost done: Timings) returns (r: Cells)
    requires Separate(m) && m.Values !! source.Values && k in source && k !in done
    requires Values(m) == MergeTimings(before, done)
    modifies m.Values
    ensures Separate(r) && fresh(r.Values - m.Values) && r.Values !! source.Values
    ensures Values(source) == old(Values(source))
    ensures Values(r) == MergeTimings(before, done[k := Values(source)[k]])
  {
    hide MergeTimings, Separate, Values, Added;
    ValueAt(source, k);
    MergeOneMore(before, done, Values(source), k);
    r := AddTo(m, k, source[k].Value());
  }

  /** Merges every entry of a source that shares no cell with the target; the source is only read. */
  method MergeHandlerTimings(target: Cells, source: Cells) returns (m: Cells)
    requires Separate(target) && target.Values !! source.Values
    modifies target.Values
    ensures Separate(m) && fresh(m.Values - target.Values)
    ensures Values(m) == MergeTimings(old(Values(target)), old(Values(source)))
  {
    m := target;
    var keys := source.Keys;
    ghost var before, other := Values(target), Values(source);
    assert other.Keys == source.Keys;
    hide MergeTimings, Separate, Values;
    VisitAll(other);
    MergeNone(before);
    while keys != {}
      invariant keys <= source.Keys
      invariant Separate(m) && fresh(m.Values - target.Values) && m.Values !! source.Values
      invariant Values(source) == other
      invariant Values(m) == MergeTimings(before, other - keys)
      decreases |keys|
    {
      var k :| k in keys;
      VisitKey(other, keys, k);
      m := MergeEntry(m, source, k, before, other - keys);
      keys := keys - {k};
    }
  }

  /** A copy in cells of its own. */
  method CloneHandlerTimings(source: Cells) returns (m: Cells)
    ensures Separate(m) && fresh(m.Values) && Values(m) == Values(source)
  {
    m := MergeHandlerTimings(map[], source);
    assert Values(map[]) == map[];
  }

  method MergeCountMap(target: Counts, source: Counts) returns (m: Counts)
    ensures m == MergeCounts(target, source)
  {
    m := target;
    var keys := source.Keys;
    VisitAll(source);
    assert MergeCounts(target, map[]) == target;
    hide MergeCounts, Increment;
    while keys != {}
      invariant keys <= source.Keys && m == MergeCounts(target, source - keys)
      decreases |keys|
    {
      var k :| k in keys;
      VisitKey(source, keys, k);
      MergeIncrement(target, source - keys, k, source[k]);
      IncrementNew(source - keys, k, source[k]);
      m := Increment(m, k, source[k]);
      keys := keys - {k};
    }
  }

  lemma IncrementNew(m: Counts, k: string, n: int)
    requires k !in m
    ensures Increment(m, k, n) == m[k := n]
  {
  }

  // ---------------------------------------------------------------------------
  // The metrics object
  // ---------------------------------------------------------------------------

  datatype Bucket = Bucket(
    messageCounts: Counts,
    messageBytes: Counts,
    handlerMs: Cells,
    streamCounts: Counts,
    streamByAgentCounts: Counts,
    frameCounts: Counts,
    endedAt: int)

  ghost function BucketTotals(b: Bucket): Totals
    reads b.handlerMs.Values
  {
    Totals(b.messageCounts, b.messageBytes, Values(b.handlerMs), b.streamCounts, b.streamByAgentCounts, b.frameCounts)
  }

  ghost function BucketCells(buckets: seq<Bucket>): set<HandlerTiming> {
    set i, c | 0 <= i < |buckets| && c in buckets[i].handlerMs.Values :: c
  }

  /** Each bucket sums up its events. */
  ghost predicate SumUp(buckets: seq<Bucket>, kept: seq<seq<Event>>)
    reads BucketCells(buckets)
  {
    |kept| == |buckets| && forall i :: 0 <= i < |buckets| ==> BucketTotals(buckets[i]) == Summary(kept[i])
  }

  predicate HasActivity(messageCounts: Counts, frameCounts: Counts) {
    messageCounts != map[] || frameCounts != map[]
  }

  /** Some message or binary frame is among the events. */
  predicate SawTraffic(events: seq<Event>) {
    exists i :: 0 <= i < |events| && (events[i].MessageIn? || events[i].FrameIn?)
  }

  lemma TrafficLast(events: seq<Event>)
    requires events != []
    ensures var last := events[|events| - 1];
            SawTraffic(events) <==> SawTraffic(events[..|events| - 1]) || last.MessageIn? || last.FrameIn?
  {
    var before := events[..|events| - 1];
    if i :| 0 <= i < |before| && (before[i].MessageIn? || before[i].FrameIn?) {
      assert events[i].MessageIn? || events[i].FrameIn?;
    }
    if i :| 0 <= i < |events| && (events[i].MessageIn? || events[i].FrameIn?) && i < |before| {
      assert before[i].MessageIn? || before[i].FrameIn?;
    }
  }

  /** There is activity exactly if a message or a binary frame was counted. */
  lemma {:induction false} ActivityIsTraffic(events: seq<Event>)
    ensures HasActivity(Summary(events).messageCounts, Summary(events).frameCounts) <==> SawTraffic(events)
  {
    if events != [] {
      var before, last := Summary(events[..|events| - 1]), events[|events| - 1];
      ActivityIsTraffic(events[..|events| - 1]);
      TrafficLast(events);
      hide SawTraffic;
      if last.MessageIn? {
        assert last.messageType in Record(before, last).messageCounts;
      }
      if last.FrameIn? {
        assert last.kind in Record(before, last).frameCounts;
      }
    }
  }

  /** Bytes and handler time of binary frames are filed under `binary:` and the kind. */
  lemma FramesAreFiledApart(kind: string, bytes: int, ms: real)
    ensures Filed(Bytes, FrameIn(kind, bytes, ms)) == Some("binary:" + kind)
    ensures Summary([FrameIn(kind, bytes, ms)])
         == Totals(map[], map["binary:" + kind := bytes], map["binary:" + kind := Timing(1, ms, ms)], map[], map[],
                   map[kind := 1])
  {
    var e := FrameIn(kind, bytes, ms);
    assert [e][..0] == [] && Summary([]) == NOTHING;
  }

  predicate Ordered(buckets: seq<Bucket>, latest: int) {
    && (forall i, j :: 0 <= i < j < |buckets| ==> buckets[i].endedAt <= buckets[j].endedAt)
    && (forall i :: 0 <= i < |buckets| ==> buckets[i].endedAt <= latest)
  }

  class DaemonClientRuntimeMetrics {
    const windowMs: int
    var buckets: seq<Bucket>
    var inboundMessageCounts: Counts
    var inboundMessageBytes: Counts
    var inboundMessageHandlerMs: Cells
    var inboundAgentStreamCounts: Counts
    var inboundAgentStreamByAgentCounts: Counts
    var inboundBinaryFrameCounts: Counts

    /** The events counted now, those of each kept bucket, and those of the buckets dropped. */
    ghost var current: seq<Event>
    ghost var kept: seq<seq<Event>>
    ghost var dropped: seq<Event>

    /** The cells that belong to buckets, now or before. */
    ghost var bucketCells: set<HandlerTiming>

    /** The clock at the last flush, and whether it has never gone back. */
    ghost var latest: int
    ghost var steady: bool

    ghost function Counted(): Totals
      reads `inboundMessageCounts, `inboundMessageBytes, `inboundMessageHandlerMs, inboundMessageHandlerMs.Values
      reads `inboundAgentStreamCounts, `inboundAgentStreamByAgentCounts, `inboundBinaryFrameCounts
    {
      Totals(inboundMessageCounts, inboundMessageBytes, Values(inboundMessageHandlerMs), inboundAgentStreamCounts,
             inboundAgentStreamByAgentCounts, inboundBinaryFrameCounts)
    }

    ghost function History(): seq<Event>
      reads this
    {
      dropped + Flatten(kept) + current
    }

    ghost predicate Valid()
      reads this, inboundMessageHandlerMs.Values, bucketCells
    {
      && windowMs > 0
      && Separate(inboundMessageHandlerMs) && inboundMessageHandlerMs.Values !! bucketCells
      && BucketCells(buckets) <= bucketCells
      && Counted() == Summary(current)
      && SumUp(buckets, kept)
      && (steady ==> Ordered(buckets, latest))
    }

    constructor (windowMs: int, startedAt: int)
      ensures Valid() && History() == [] && steady && latest == startedAt
      ensures this.windowMs == if windowMs > 0 then windowMs else DEFAULT_ROLLING_WINDOW_MS
    {
      this.windowMs := if windowMs > 0 then windowMs else DEFAULT_ROLLING_WINDOW_MS;
      buckets, inboundMessageCounts, inboundMessageBytes, inboundMessageHandlerMs := [], map[], map[], map[];
      inboundAgentStreamCounts, inboundAgentStreamByAgentCounts, inboundBinaryFrameCounts := map[], map[], map[];
      current, kept, dropped, bucketCells, latest, steady := [], [], [], {}, startedAt, true;
    }

    /** Counts handler time, in cells that stay apart from those of the buckets. */
    method RecordHandler(k: string, ms: real)
      requires Separate(inboundMessageHandlerMs) && inboundMessageHandlerMs.Values !! bucketCells
      requires BucketCells(buckets) <= bucketCells
      modifies `inboundMessageHandlerMs, inboundMessageHandlerMs.Values
      ensures Separate(inboundMessageHandlerMs) && inboundMessageHandlerMs.Values !! bucketCells
      ensures SumUp(buckets, kept) == old(SumUp(buckets, kept))
      ensures Values(inboundMessageHandlerMs) == IncrementTiming(old(Values(inboundMessageHandlerMs)), k, ms)
    {
      hide SumUp, Separate, Values, Added, BucketCells;
      inboundMessageHandlerMs := AddTo(inboundMessageHandlerMs, k, Timing(1, ms, ms));
    }

    method CountMessage(messageType: string, bytes: int, handlerMs: real)
      requires Separate(inboundMessageHandlerMs) && inboundMessageHandlerMs.Values !! bucketCells
      requires BucketCells(buckets) <= bucketCells
      modifies `inboundMessageCounts, `inboundMessageBytes, `inboundBinaryFrameCounts, `inboundMessageHandlerMs
      modifies inboundMessageHandlerMs.Values
      ensures Separate(inboundMessageHandlerMs) && inboundMessageHandlerMs.Values !! bucketCells
      ensures SumUp(buckets, kept) == old(SumUp(buckets, kept))
      ensures Counted() == Record(old(Counted()), MessageIn(messageType, bytes, handlerMs))
    {
      hide Separate, Values, SumUp, BucketCells, Increment, IncrementTiming;
      inboundMessageCounts := Increment(inboundMessageCounts, messageType, 1);
      inboundMessageBytes := Increment(inboundMessageBytes, messageType, bytes);
      RecordHandler(messageType, handlerMs);
    }

    method RecordMessage(messageType: string, bytes: int, handlerMs: real)
      requires Valid()
      modifies this, inboundMessageHandlerMs.Values
      ensures Valid() && current == old(current) + [MessageIn(messageType, bytes, handlerMs)]
      ensures buckets == old(buckets) && kept == old(kept) && dropped == old(dropped)
      ensures steady == old(steady) && latest == old(latest)
    {
      hide Separate, Values, SumUp, Ordered, BucketCells, Summary, Record, Counted;
      SummaryNext(current, MessageIn(messageType, bytes, handlerMs));
      CountMessage(messageType, bytes, handlerMs);
      current := current + [MessageIn(messageType, bytes, handlerMs)];
    }

    method RecordAgentStream(agentId: string, eventType: string)
      requires Valid()
      modifies this
      ensures Valid() && current == old(current) + [StreamIn(agentId, eventType)]
      ensures buckets == old(buckets) && kept == old(kept) && dropped == old(dropped)
      ensures steady == old(steady) && latest == old(latest)
    {
      hide Separate, Values, SumUp, Ordered, BucketCells, Summary, Increment;
      ghost var event := StreamIn(agentId, eventType);
      inboundAgentStreamCounts := Increment(inboundAgentStreamCounts, eventType, 1);
      inboundAgentStreamByAgentCounts := Increment(inboundAgentStreamByAgentCounts, agentId, 1);
      SummaryNext(current, event);
      current := current + [event];
    }

    method CountFrame(kind: string, bytes: int, handlerMs: real)
      requires Separate(inboundMessageHandlerMs) && inboundMessageHandlerMs.Values !! bucketCells
      requires BucketCells(buckets) <= bucketCells
      modifies `inboundMessageCounts, `inboundMessageBytes, `inboundBinaryFrameCounts, `inboundMessageHandlerMs
      modifies inboundMessageHandlerMs.Values
      ensures Separate(inboundMessageHandlerMs) && inboundMessageHandlerMs.Values !! bucketCells
      ensures SumUp(buckets, kept) == old(SumUp(buckets, kept))
      ensures Counted() == Record(old(Counted()), FrameIn(kind, bytes, handlerMs))
    {
      hide Separate, Values, SumUp, BucketCells, Increment, IncrementTiming;
      inboundBinaryFrameCounts := Increment(inboundBinaryFrameCounts, kind, 1);
      inboundMessageBytes := Increment(inboundMessageBytes, BinaryKey(kind), bytes);
      RecordHandler(BinaryKey(kind), handlerMs);
    }

    method RecordBinaryFrame(kind: string, bytes: int, handlerMs: real)
      requires Valid()
      modifies this, inboundMessageHandlerMs.Values
      ensures Valid() && current == old(current) + [FrameIn(kind, bytes, handlerMs)]
      ensures buckets == old(buckets) && kept == old(kept) && dropped == old(dropped)
      ensures steady == old(steady) && latest == old(latest)
    {
      hide Separate, Values, SumUp, Ordered, BucketCells, Summary, Record, Counted;
      SummaryNext(current, FrameIn(kind, bytes, handlerMs));
      CountFrame(kind, bytes, handlerMs);
      current := current + [FrameIn(kind, bytes, handlerMs)];
    }

    method CopyCounters(now: int) returns (bucket: Bucket)
      ensures bucket.endedAt == now && fresh(bucket.handlerMs.Values) && BucketTotals(bucket) == Counted()
    {
      hide Values;
      var cells := CloneHandlerTimings(inboundMessageHandlerMs);
      bucket := Bucket(inboundMessageCounts, inboundMessageBytes, cells, inboundAgentStreamCounts,
                       inboundAgentStreamByAgentCounts, inboundBinaryFrameCounts, now);
    }

    method ClearMaps()
      modifies `inboundMessageCounts, `inboundMessageBytes, `inboundMessageHandlerMs, `inboundAgentStreamCounts
      modifies `inboundAgentStreamByAgentCounts, `inboundBinaryFrameCounts
      ensures Counted() == NOTHING && inboundMessageHandlerMs == map[]
    {
      inboundMessageCounts, inboundMessageBytes, inboundMessageHandlerMs := map[], map[], map[];
      inboundAgentStreamCounts, inboundAgentStreamByAgentCounts, inboundBinaryFrameCounts := map[], map[], map[];
    }

    method ResetCounters()
      requires Valid()
      modifies `inboundMessageCounts, `inboundMessageBytes, `inboundMessageHandlerMs, `inboundAgentStreamCounts
      modifies `inboundAgentStreamByAgentCounts, `inboundBinaryFrameCounts, `current
      ensures Valid() && current == [] && inboundMessageHandlerMs.Values == {}
    {
      assert Summary([]) == NOTHING;
      hide SumUp, Ordered, BucketCells, Summary, Separate, Values, Counted;
      ClearMaps();
      NoCells();
      current := [];
    }

    /** Moves the counters into a bucket with cells of its own. */
    method TakeBucket(now: int) returns (bucket: Bucket)
      requires Valid()
      modifies this
      ensures Valid() && kept == old(kept) && dropped == old(dropped) && buckets == old(buckets)
      ensures steady == old(steady) && latest == old(latest) && current == []
      ensures bucket.endedAt == now && bucket.handlerMs.Values !! inboundMessageHandlerMs.Values
      ensures BucketTotals(bucket) == Summary(old(current))
    {
      assert Counted() == Summary(current);
      hide Valid, Counted, BucketTotals, Summary;
      bucket := CopyCounters(now);
      ResetCounters();
    }

    /** Nothing is taken when nothing but agent streams was counted. */
    method ConsumeCurrentBucket(now: int) returns (bucket: Option<Bucket>)
      requires Valid()
      modifies this
      ensures bucket.Some? <==> SawTraffic(old(current))
      ensures Valid() && kept == old(kept) && dropped == old(dropped) && buckets == old(buckets)
      ensures steady == old(steady) && latest == old(latest)
      ensures current == if bucket.Some? then [] else old(current)
      ensures bucket.Some? ==>
                && bucket.value.endedAt == now
                && bucket.value.handlerMs.Values !! inboundMessageHandlerMs.Values
                && BucketTotals(bucket.value) == Summary(old(current))
    {
      assert Counted() == Summary(current);
      ActivityIsTraffic(current);
      hide Valid, BucketTotals, Summary, SawTraffic;
      if !HasActivity(inboundMessageCounts, inboundBinaryFrameCounts) {
        return None;
      }
      var taken := TakeBucket(now);
      bucket := Some(taken);
    }

    method PushBucket(bucket: Bucket, ghost events: seq<Event>)
      requires Valid() && bucket.handlerMs.Values !! inboundMessageHandlerMs.Values
      requires BucketTotals(bucket) == Summary(events) && (steady ==> latest <= bucket.endedAt)
      modifies `buckets, `kept, `latest, `bucketCells
      ensures Valid() && latest == bucket.endedAt
      ensures buckets == old(buckets) + [bucket] && kept == old(kept) + [events]
    {
      hide Summary, Values, Separate, BucketCells, BucketTotals, Counted;
      BucketCellsPush(buckets, bucket);
      SumUpPush(buckets, kept, bucket, events);
      bucketCells := bucketCells + bucket.handlerMs.Values;
      buckets, kept, latest := buckets + [bucket], kept + [events], bucket.endedAt;
    }

    /** Drops expired buckets from the front. */
    method PruneBuckets(now: int)
      requires Valid()
      modifies `buckets, `kept, `dropped
      ensures Valid() && dropped + Flatten(kept) == old(dropped + Flatten(kept))
      ensures var n := |old(buckets)| - |buckets|;
              && 0 <= n <= |old(buckets)| && buckets == old(buckets)[n..] && kept == old(kept)[n..]
              && (forall i :: 0 <= i < n ==> old(buckets)[i].endedAt < now - windowMs)
      ensures |buckets| > 0 ==> buckets[0].endedAt >= now - windowMs
    {
      ghost var n := 0;
      while |buckets| > 0 && buckets[0].endedAt < now - windowMs
        invariant 0 <= n <= |old(buckets)| && buckets == old(buckets)[n..] && kept == old(kept)[n..] && Valid()
        invariant forall i :: 0 <= i < n ==> old(buckets)[i].endedAt < now - windowMs
        invariant dropped + Flatten(kept) == old(dropped + Flatten(kept))
        decreases |buckets|
      {
        ShiftBucket();
        n := n + 1;
      }
    }

    method ShiftBucket()
      requires Valid() && |buckets| > 0
      modifies `buckets, `kept, `dropped
      ensures Valid() && dropped + Flatten(kept) == old(dropped + Flatten(kept))
      ensures buckets == old(buckets)[1..] && kept == old(kept)[1..]
    {
      hide Summary, Values, Separate, BucketCells, BucketTotals, Counted;
      BucketCellsShift(buckets);
      SumUpShift(buckets, kept);
      Assoc(dropped, kept[0], Flatten(kept[1..]));
      dropped, kept, buckets := dropped + kept[0], kept[1..], buckets[1..];
    }

    /** Merges the kept buckets into fresh counters. The buckets themselves are only read. */
    method AggregateBuckets(now: int) returns (aggregate: Bucket)
      requires SumUp(buckets, kept) && BucketCells(buckets) <= bucketCells
      ensures fresh(aggregate.handlerMs.Values) && BucketTotals(aggregate) == Summary(Flatten(kept))
    {
      aggregate := Bucket(map[], map[], map[], map[], map[], map[], now);
      ghost var cells := bucketCells;
      var i := 0;
      while i < |buckets|
        invariant 0 <= i <= |buckets|
        invariant Separate(aggregate.handlerMs) && fresh(aggregate.handlerMs.Values)
        invariant aggregate.handlerMs.Values !! cells
        invariant BucketTotals(aggregate) == Summary(Flatten(kept[..i]))
        invariant SumUp(buckets, kept) && BucketCells(buckets) <= cells
      {
        hide Summary, Separate, Flatten, Merge, BucketTotals, BucketCells;
        BucketCellsAt(buckets, i);
        assert BucketTotals(buckets[i]) == Summary(kept[i]);
        MergeSummaries(Flatten(kept[..i]), kept[i]);
        FlattenSnoc(kept, i);
        aggregate := MergeBucket(aggregate, buckets[i], now);
        i := i + 1;
      }
      assert kept[..i] == kept;
    }

    /** Moves what was counted, if anything that counts as activity, to the end of the buckets. */
    method ClosePeriod(now: int)
      requires Valid()
      modifies this
      ensures Valid() && latest == now && (steady <==> old(steady) && old(latest) <= now)
      ensures dropped == old(dropped) && Flatten(kept) + current == old(Flatten(kept) + current)
      ensures if SawTraffic(old(current))
              then current == [] && kept == old(kept) + [old(current)] && |buckets| == |old(buckets)| + 1
                   && buckets[..|old(buckets)|] == old(buckets) && buckets[|old(buckets)|].endedAt == now
              else current == old(current) && kept == old(kept) && buckets == old(buckets)
    {
      hide Summary, Values, Separate, SumUp, BucketTotals, SawTraffic;
      var bucket := ConsumeCurrentBucket(now);
      steady := steady && latest <= now;
      if bucket.Some? {
        FlattenLast(kept, old(current));
        PushBucket(bucket.value, old(current));
      } else {
        latest := now;
      }
    }

    /**
     * A flush closes the period, drops the expired buckets and reports the rest: what it reports
     * is the summary of exactly the events of the kept buckets; no event is lost or counted
     * twice; and, if the clock never went back, exactly the buckets that ended within the window
     * are kept. No timing cell that existed before is changed.
     */
    method Flush(now: int, final: bool) returns (report: Option<Bucket>)
      requires Valid()
      modifies this
      ensures Valid() && History() == old(History())
      ensures steady <==> old(steady) && old(latest) <= now
      ensures var active := SawTraffic(old(current));
              var before := old(kept) + if active then [old(current)] else [];
              var n := |before| - |kept|;
              && current == (if active then [] else old(current))
              && 0 <= n <= |old(buckets)| && kept == before[n..]
              && (forall i :: 0 <= i < n ==> old(buckets)[i].endedAt < now - windowMs)
      ensures steady ==> forall i :: 0 <= i < |buckets| ==> now - windowMs <= buckets[i].endedAt <= now
      ensures report.Some? <==> final || SawTraffic(Flatten(kept))
      ensures report.Some? ==> BucketTotals(report.value) == Summary(Flatten(kept))
    {
      hide Summary, Values, Separate, BucketCells, Flatten, SawTraffic;
      ClosePeriod(now);
      label Closed:
      PruneBuckets(now);
      Assoc(dropped, Flatten(kept), current);
      Assoc(old@Closed(dropped), old@Closed(Flatten(kept)), current);
      Assoc(old(dropped), old(Flatten(kept)), old(current));
      var aggregate := AggregateBuckets(now);
      ActivityIsTraffic(Flatten(kept));
      if HasActivity(aggregate.messageCounts, aggregate.frameCounts) || final {
        report := Some(aggregate);
      } else {
        report := None;
      }
    }
  }

  lemma NoCells()
    ensures Separate(map[]) && Values(map[]) == map[]
  {
  }

  lemma BucketCellsPush(buckets: seq<Bucket>, b: Bucket)
    ensures BucketCells(buckets + [b]) == BucketCells(buckets) + b.handlerMs.Values
  {
    var all := buckets + [b];
    assert all[|buckets|] == b;
    forall c | c in BucketCells(buckets) ensures c in BucketCells(all) {
      var i :| 0 <= i < |buckets| && c in buckets[i].handlerMs.Values;
      assert all[i] == buckets[i];
    }
  }

  lemma SumUpPush(buckets: seq<Bucket>, kept: seq<seq<Event>>, b: Bucket, events: seq<Event>)
    requires SumUp(buckets, kept) && BucketTotals(b) == Summary(events)
    ensures SumUp(buckets + [b], kept + [events])
  {
    hide BucketTotals, Summary;
  }

  lemma SumUpShift(buckets: seq<Bucket>, kept: seq<seq<Event>>)
    requires SumUp(buckets, kept) && |buckets| > 0
    ensures SumUp(buckets[1..], kept[1..])
  {
    hide BucketTotals, Summary;
  }

  lemma BucketCellsAt(buckets: seq<Bucket>, i: nat)
    requires i < |buckets|
    ensures buckets[i].handlerMs.Values <= BucketCells(buckets)
  {
  }

  lemma BucketCellsShift(buckets: seq<Bucket>)
    requires |buckets| > 0
    ensures BucketCells(buckets[1..]) <= BucketCells(buckets)
  {
    forall c | c in BucketCells(buckets[1..]) ensures c in BucketCells(buckets) {
      var i :| 0 <= i < |buckets[1..]| && c in buckets[1..][i].handlerMs.Values;
      assert buckets[i + 1] == buckets[1..][i];
    }
  }

  /** Adds a bucket to an aggregate that shares no cell with it; the bucket is only read. */
  method MergeBucket(aggregate: Bucket, bucket: Bucket, now: int) returns (m: Bucket)
    requires Separate(aggregate.handlerMs) && aggregate.handlerMs.Values !! bucket.handlerMs.Values
    modifies aggregate.handlerMs.Values
    ensures Separate(m.handlerMs) && fresh(m.handlerMs.Values - aggregate.handlerMs.Values)
    ensures BucketTotals(m) == Merge(old(BucketTotals(aggregate)), old(BucketTotals(bucket)))
  {
    hide Separate, Values, MergeCounts, MergeTimings;
    var messageCounts := MergeCountMap(aggregate.messageCounts, bucket.messageCounts);
    var messageBytes := MergeCountMap(aggregate.messageBytes, bucket.messageBytes);
    var handlerMs := MergeHandlerTimings(aggregate.handlerMs, bucket.handlerMs);
    var streamCounts := MergeCountMap(aggregate.streamCounts, bucket.streamCounts);
    var byAgent := MergeCountMap(aggregate.streamByAgentCounts, bucket.streamByAgentCounts);
    var frameCounts := MergeCountMap(aggregate.frameCounts, bucket.frameCounts);
    m := Bucket(messageCounts, messageBytes, handlerMs, streamCounts, byAgent, frameCounts, now);
  }

  lemma SummaryNext(events: seq<Event>, e: Event)
    ensures Summary(events + [e]) == Record(Summary(events), e)
  {
    assert (events + [e])[..|events + [e]| - 1] == events;
  }

  lemma FlattenSnoc<T>(parts: seq<seq<T>>, i: nat)
    requires i < |parts|
    ensures Flatten(parts[..i + 1]) == Flatten(parts[..i]) + parts[i]
  {
    assert parts[..i + 1] == parts[..i] + [parts[i]];
    FlattenLast(parts[..i], parts[i]);
  }

  lemma FlattenLast<T>(parts: seq<seq<T>>, last: seq<T>)
    ensures Flatten(parts + [last]) == Flatten(parts) + last
  {
    FlattenAppend(parts, [last]);
    FlattenOne(last);
  }
}
