/**
 * What the daemon receives: everything on the transport opened last, on each connection first the
 * subscriptions that the registry lists, and requests in the order they were made, unless a
 * handshake makes the request of a file subscription again while other requests are queued.
 */
module DaemonSessionWire {
  import opened Wrappers
  import opened Sequences
  import opened SubscriptionKey
  import opened DaemonSession
  import opened DaemonSessionInvariant
  import Ledger = DaemonSessionLedger
  import Conservation = DaemonSessionConservation
  import opened DaemonSessionQuiet
  import opened DaemonSessionShapes
  import opened DaemonSessionExamples

  /**
   * The daemon's side: the open transport, the subscriptions it holds there, the last request it
   * got; whether everything came on the open transport, and requests in the order they were made.
   */
  datatype Line = Line(transport: Option<nat>, held: set<Subscription>, last: int, sound: bool, ordered: bool)

  const DOWN: Line := Line(None, {}, -1, true, true)

  function HearWire(l: Line, wire: Wire): Line {
    match wire
    case Subscribe(s) => l.(held := l.held + {s})
    case Unsubscribe(s) => l.(held := l.held - {s})
    case Request(id) => l.(last := id, ordered := l.ordered && l.last < id)
    case _ => l
  }

  function Hear(l: Line, e: Effect): Line {
    match e
    case TransportOpened(t) => l.(transport := Some(t), held := {})
    case Sent(t, wire) => HearWire(l.(sound := l.sound && l.transport == Some(t)), wire)
    case _ => l
  }

  function HearAll(l: Line, es: seq<Effect>): Line {
    if es == [] then l else Hear(HearAll(l, es[..|es| - 1]), es[|es| - 1])
  }

  lemma {:induction false} HearAppend(l: Line, a: seq<Effect>, b: seq<Effect>)
    ensures HearAll(l, a + b) == HearAll(HearAll(l, a), b)
  {
    hide Hear;
    if b == [] {
      assert a + b == a;
    } else {
      assert (a + b)[..|a + b| - 1] == a + b[..|b| - 1];
      HearAppend(l, a, b[..|b| - 1]);
    }
  }

  lemma HearOne(l: Line, e: Effect)
    ensures HearAll(l, [e]) == Hear(l, e)
  {
    hide Hear;
    assert HearAll(l, []) == l;
  }

  /** Nothing the daemon would notice beyond a greeting, a ping or a checkout-diff subscription. */
  predicate Unnoticed(es: seq<Effect>, transport: Option<nat>) {
    forall i :: 0 <= i < |es| ==>
      && !es[i].TransportOpened?
      && (es[i].Sent? ==>
            (es[i].wire.Hello? || es[i].wire.Ping? || es[i].wire.SubscribeDiff?) && Some(es[i].transport) == transport)
  }

  lemma {:induction false} HearIdle(l: Line, es: seq<Effect>, transport: Option<nat>)
    requires Unnoticed(es, transport) && l.sound && (transport.Some? ==> l.transport == transport)
    ensures HearAll(l, es) == l
  {
    if es != [] {
      HearIdle(l, es[..|es| - 1], transport);
    }
  }

  /** Everything came on the open transport, which is the client's if it has one. */
  predicate OnLine(l: Line, c: Client) {
    l.sound && (c.link.transport.Some? ==> l.transport == c.link.transport)
  }

  // ---------------------------------------------------------------------------
  // What each shape of step makes the daemon hear
  // ---------------------------------------------------------------------------

  lemma QuietHeard(l: Line, c: Client, es: seq<Effect>)
    requires QuietEffects(c, es) && OnLine(l, c)
    ensures HearAll(l, es) == l
  {
    assert forall i :: 0 <= i < |es| ==> QuietEffect(c, es[i]);
    HearIdle(l, es, c.link.transport);
  }

  lemma HearingHeard(l: Line, c: Client, n: Next)
    requires Hearing(c, n) && OnLine(l, c)
    ensures HearAll(l, n.effects) == l
  {
    hide QuietEffects, QuietCalls;
    QuietHeard(l, Heard(c), n.effects[1..]);
    HearOne(l, ValidFrame);
    HearAppend(l, [ValidFrame], n.effects[1..]);
    assert n.effects == [ValidFrame] + n.effects[1..];
  }

  lemma GivingUpHeard(l: Line, c: Client, n: Next)
    requires GivingUp(c, n) && OnLine(l, c)
    ensures HearAll(l, n.effects) == l
  {
    hide QuietEffects, QuietCalls;
    QuietHeard(l, c.(heart := RejectProbe(c.heart).(failures := 0)), n.effects[2..]);
    HearIdle(l, [HeartbeatFailed, LivenessTeardown], None);
    HearAppend(l, [HeartbeatFailed, LivenessTeardown], n.effects[2..]);
    assert n.effects == [HeartbeatFailed, LivenessTeardown] + n.effects[2..];
  }

  lemma PingHeard(l: Line, c: Client, n: Next)
    requires (Pinging(c, n) || Faltering(c, n)) && OnLine(l, c)
    ensures HearAll(l, n.effects) == l
  {
    HearIdle(l, n.effects, c.link.transport);
  }

  lemma OpeningHeard(l: Line, c: Client, n: Next)
    requires Opening(c, n) && l.sound
    ensures HearAll(l, n.effects) == l.(transport := Some(c.link.nextTransport), held := {})
  {
    var disposed := DisposeTransport(c).effects;
    var news, announced := [TransportOpened(c.link.nextTransport)], [StatusChanged(Connecting)];
    HearIdle(l, disposed, None);
    HearOne(l, news[0]);
    HearIdle(HearAll(l, news), announced, None);
    HearAppend(l, disposed, news);
    HearAppend(l, disposed + news, announced);
    assert n.effects == disposed + news + announced;
  }

  lemma {:induction false} ResubscriptionHeard(l: Line, transport: nat, registry: seq<Subscription>)
    requires l.transport == Some(transport)
    ensures HearAll(l, ResubscribeAll(transport, registry)) == l.(held := l.held + (set s | s in registry))
    decreases registry
  {
    if registry == [] {
      assert l.held + (set s: Subscription | s in registry) == l.held;
    } else {
      var more := l.(held := l.held + {registry[0]});
      ResubscriptionHeard(more, transport, registry[1..]);
      HearOne(l, Sent(transport, Subscribe(registry[0])));
      HearAppend(l, [Sent(transport, Subscribe(registry[0]))], ResubscribeAll(transport, registry[1..]));
      assert registry == [registry[0]] + registry[1..];
      assert l.held + (set s | s in registry) == more.held + (set s | s in registry[1..]);
    }
  }

  lemma {:induction false} DiffsAreUnnoticed(transport: nat, diffs: seq<string>)
    ensures Unnoticed(ResubscribeDiffs(transport, diffs), Some(transport))
    decreases diffs
  {
    if diffs != [] {
      DiffsAreUnnoticed(transport, diffs[1..]);
    }
  }

  lemma ResubscribingHeard(l: Line, c: Client)
    requires OnLine(l, c) && c.link.transport.Some?
    ensures HearAll(l, Resubscribe(c)) == l.(held := l.held + (set s | s in c.registry))
  {
    var t := c.link.transport.value;
    DiffsAreUnnoticed(t, c.others.diffs);
    HearIdle(l, ResubscribeDiffs(t, c.others.diffs), c.link.transport);
    ResubscriptionHeard(l, t, c.registry);
    HearAppend(l, ResubscribeDiffs(t, c.others.diffs), ResubscribeAll(t, c.registry));
    hide HearAll, ResubscribeDiffs, ResubscribeAll;
  }

  lemma {:induction false} RequestsHeard(l: Line, es: seq<Effect>, transport: Option<nat>)
    requires AboutRequests(es, transport) && l.sound && (transport.Some? ==> l.transport == transport)
    ensures var heard := HearAll(l, es); heard == l.(last := heard.last, ordered := heard.ordered)
  {
    if es != [] {
      RequestsHeard(l, es[..|es| - 1], transport);
    }
  }

  /** The handshake up to its requests: the daemon holds the registry too. */
  lemma GreetingHeard(l: Line, c: Client)
    requires OnLine(l, c) && c.link.transport.Some?
    ensures var pre := [ValidFrame, StatusChanged(Connected)] + Resubscribe(c);
            HearAll(l, pre) == l.(held := l.held + (set s | s in c.registry))
  {
    var greeted := [ValidFrame, StatusChanged(Connected)];
    HearIdle(l, greeted, None);
    hide HearAll, Resubscribe;
    ResubscribingHeard(l, c);
    HearAppend(l, greeted, Resubscribe(c));
  }

  lemma HandshakeSplits(l: Line, c: Client, n: Next)
    requires Handshake(c, n) && OnLine(l, c) && c.link.transport.Some?
    ensures var up := EnterConnected(Heard(c));
            var greeted := l.(held := l.held + (set s | s in c.registry));
            HearAll(l, n.effects) == HearAll(greeted, SendRequests(up).effects)
  {
    var up := EnterConnected(Heard(c));
    var pre, sent := [ValidFrame, StatusChanged(Connected)] + Resubscribe(up), SendRequests(up).effects;
    var resolved := ResolveConnect(up.link).effects;
    HandshakeParts(c, n);
    SendingOnly(up);
    assert Unnoticed(resolved, None);
    hide Handshake, HearAll, SendRequests, Resubscribe, ResolveConnect;
    GreetingHeard(l, up);
    HearAppend(l, pre, sent);
    HearAppend(l, pre + sent, resolved);
    RequestsHeard(HearAll(l, pre), sent, up.link.transport);
    HearIdle(HearAll(l, pre + sent), resolved, None);
  }

  /** After the handshake the daemon holds the registry too. */
  lemma HandshakeHeard(l: Line, c: Client, n: Next)
    requires Handshake(c, n) && OnLine(l, c) && c.link.transport.Some?
    ensures var heard := HearAll(l, n.effects);
            heard == l.(held := l.held + (set s | s in c.registry), last := heard.last, ordered := heard.ordered)
  {
    var up := EnterConnected(Heard(c));
    hide Handshake, HearAll, SendRequests;
    HandshakeSplits(l, c, n);
    SendingOnly(up);
    RequestsHeard(l.(held := l.held + (set s | s in c.registry)), SendRequests(up).effects, up.link.transport);
  }

  // ---------------------------------------------------------------------------
  // The transport
  // ---------------------------------------------------------------------------

  lemma RequestOnLine(l: Line, c: Client, e: Event)
    requires OnLine(l, c) && e.CallRequest?
    ensures var heard := HearAll(l, Step(c, e).effects);
            heard == l.(last := heard.last, ordered := heard.ordered) && OnLine(heard, Step(c, e).client)
  {
    assert AboutRequests(Step(c, e).effects, c.link.transport);
    RequestsHeard(l, Step(c, e).effects, c.link.transport);
    hide HearAll;
  }

  lemma SubscriptionOnLine(l: Line, c: Client, e: Event)
    requires OnLine(l, c) && (e.CallSubscribe? || e.CallUnsubscribe?)
    ensures var heard := HearAll(l, Step(c, e).effects);
            heard == l.(held := heard.held) && OnLine(heard, Step(c, e).client)
  {
    var es := Step(c, e).effects;
    if es != [] {
      HearOne(l, es[0]);
      assert es == [es[0]];
    }
  }

  lemma UnheardSteps(l: Line, c: Client, n: Next)
    requires OnLine(l, c)
    requires Quiet(c, n) || Hearing(c, n) || GivingUp(c, n) || Pinging(c, n) || Faltering(c, n)
    ensures HearAll(l, n.effects) == l && QuietLink(c.link, n.client.link) && QuietCalls(c.calls, n.client.calls)
  {
    hide HearAll, QuietEffects;
    if Quiet(c, n) { QuietHeard(l, c, n.effects); }
    else if Hearing(c, n) { HearingHeard(l, c, n); }
    else if GivingUp(c, n) { GivingUpHeard(l, c, n); }
    else { PingHeard(l, c, n); }
  }

  lemma UnheardOnLine(l: Line, c: Client, n: Next)
    requires OnLine(l, c) && HearAll(l, n.effects) == l && QuietLink(c.link, n.client.link)
    ensures OnLine(HearAll(l, n.effects), n.client)
  {
    hide HearAll;
  }

  lemma OpeningOnLine(l: Line, c: Client, n: Next)
    requires OnLine(l, c) && (Opening(c, n) || (Handshake(c, n) && c.link.transport.Some?))
    ensures OnLine(HearAll(l, n.effects), n.client)
  {
    hide HearAll;
    if Opening(c, n) {
      OpeningHeard(l, c, n);
    } else {
      HandshakeHeard(l, c, n);
      HandshakeParts(c, n);
      hide Handshake;
    }
  }

  lemma StepOnLine(l: Line, c: Client, e: Event)
    requires OnLine(l, c) && Inv(c)
    ensures OnLine(HearAll(l, Step(c, e).effects), Step(c, e).client)
  {
    var n := Step(c, e);
    StepShape(c, e);
    assert c.link.status.Connecting? ==> c.link.transport.Some?;
    assert Handshake(c, n) ==> c.link.status.Connecting?;
    hide Step, HearAll, Inv, Quiet, Opening, Hearing, Handshake, Pinging, Faltering, GivingUp, OnLine;
    hide QuietLink, QuietCalls;
    if Opening(c, n) || Handshake(c, n) { OpeningOnLine(l, c, n); }
    else if e.CallRequest? { RequestOnLine(l, c, e); }
    else if e.CallSubscribe? || e.CallUnsubscribe? { SubscriptionOnLine(l, c, e); }
    else { UnheardSteps(l, c, n); UnheardOnLine(l, c, n); }
  }

  lemma {:induction false} RunOnLine(reconnectEnabled: bool, events: seq<Event>)
    ensures var run := Run(Initial(reconnectEnabled), events); OnLine(HearAll(DOWN, run.effects), run.client)
  {
    if events != [] {
      hide Step, OnLine, HearAll, Inv;
      var before := Run(Initial(reconnectEnabled), events[..|events| - 1]);
      RunOnLine(reconnectEnabled, events[..|events| - 1]);
      EveryRunInv(reconnectEnabled, events[..|events| - 1]);
      StepOnLine(HearAll(DOWN, before.effects), before.client, events[|events| - 1]);
      HearAppend(DOWN, before.effects, Step(before.client, events[|events| - 1]).effects);
    }
  }

  lemma {:induction false} SoundUpTo(es: seq<Effect>, i: nat)
    requires i <= |es| && HearAll(DOWN, es).sound
    ensures HearAll(DOWN, es[..i]).sound
  {
    if i < |es| {
      SoundUpTo(es[..|es| - 1], i);
      assert es[..|es| - 1][..i] == es[..i];
    } else {
      assert es[..i] == es;
    }
  }

  predicate OpenedLastAt(es: seq<Effect>, k: nat, t: nat) {
    k < |es| && es[k] == TransportOpened(t) && forall i :: k < i < |es| ==> !es[i].TransportOpened?
  }

  /** The transport opened last is this one. */
  ghost predicate OpenedLast(es: seq<Effect>, t: nat) {
    exists k: nat :: OpenedLastAt(es, k, t)
  }

  lemma {:induction false} TransportIsLastOpened(es: seq<Effect>, t: nat)
    requires HearAll(DOWN, es).transport == Some(t)
    ensures OpenedLast(es, t)
  {
    var before := es[..|es| - 1];
    if es[|es| - 1].TransportOpened? {
      assert OpenedLastAt(es, |es| - 1, t);
    } else {
      TransportIsLastOpened(before, t);
      var k: nat :| OpenedLastAt(before, k, t);
      assert OpenedLastAt(es, k, t);
    }
  }

  /** Over every run, across any number of reconnects: every message goes over the transport opened last. */
  lemma SentOnLastTransport(reconnectEnabled: bool, events: seq<Event>, j: nat)
    requires j < |Run(Initial(reconnectEnabled), events).effects|
    ensures var es := Run(Initial(reconnectEnabled), events).effects;
            es[j].Sent? ==> OpenedLast(es[..j], es[j].transport)
  {
    hide Run;
    var es := Run(Initial(reconnectEnabled), events).effects;
    RunOnLine(reconnectEnabled, events);
    SoundUpTo(es, j + 1);
    assert es[..j + 1][..j] == es[..j];
    assert Hear(HearAll(DOWN, es[..j]), es[j]).sound;
    hide HearAll;
    if es[j].Sent? {
      TransportIsLastOpened(es[..j], es[j].transport);
    }
  }

  // ---------------------------------------------------------------------------
  // Order
  // ---------------------------------------------------------------------------

  /** Whatever was sent precedes what is queued, which precedes what is to be made. */
  predicate Orderly(l: Line, c: Client) {
    l.ordered && Ascending(c.calls.queue, l.last, c.calls.nextId)
  }

  /** The client gets connected. */
  predicate Connects(c: Client, e: Event) {
    c.link.status.Connecting? && Step(c, e).client.link.status.Connected?
  }

  /** A handshake makes a request again while other requests are queued. */
  predicate Overtakes(c: Client, e: Event) {
    Connects(c, e) && c.others.files != [] && c.calls.queue != []
  }

  lemma {:induction false} FlushOrdered(l: Line, transport: nat, queue: seq<PendingSend>, high: int)
    requires l.ordered && Ascending(queue, l.last, high)
    ensures var flushed := HearAll(l, FlushAll(transport, queue)); flushed.ordered && flushed.last < high
    decreases queue
  {
    if queue != [] {
      var one := [Sent(transport, Request(queue[0].id)), SendSettled(queue[0].id, SendOk)];
      assert one == [one[0]] + [one[1]];
      HearAppend(l, [one[0]], [one[1]]);
      HearOne(l, one[0]);
      var next := Hear(l, one[0]);
      HearOne(next, one[1]);
      HearAppend(l, one, FlushAll(transport, queue[1..]));
      hide HearAll;
      FlushOrdered(next, transport, queue[1..], high);
    }
  }

  lemma {:induction false} EnqueueAscends(queue: seq<PendingSend>, low: int, high: nat)
    requires Ascending(queue, low, high)
    ensures Ascending(queue + [PendingSend(high)], low, high + 1)
    decreases queue
  {
    if queue == [] {
      assert [PendingSend(high)][1..] == [];
    } else {
      EnqueueAscends(queue[1..], queue[0].id, high);
      assert (queue + [PendingSend(high)])[1..] == queue[1..] + [PendingSend(high)];
    }
  }

  lemma {:induction false} RoomAscends(queue: seq<PendingSend>, low: int, high: int)
    requires Ascending(queue, low, high)
    ensures Ascending(queue, low, high + 1)
    decreases queue
  {
    if queue != [] {
      RoomAscends(queue[1..], queue[0].id, high);
    }
  }

  /** A request that is not sent is not heard. */
  lemma UnsentUnheard(l: Line, c: Client, e: Event)
    requires e.CallRequest? && OnLine(l, c) && !CanSend(c.link)
    ensures HearAll(l, Step(c, e).effects) == l
  {
    HearIdle(l, Step(c, e).effects, None);
    hide HearAll;
  }

  lemma SentHeard(l: Line, c: Client, e: Event)
    requires e.CallRequest? && OnLine(l, c) && CanSend(c.link)
    ensures HearAll(l, Step(c, e).effects)
         == l.(last := c.calls.nextId, ordered := l.ordered && l.last < c.calls.nextId)
  {
    var id := c.calls.nextId;
    var made, sent := RequestMade(id, e.requestId), Sent(c.link.transport.value, Request(id));
    var ok := SendSettled(id, SendOk);
    assert Step(c, e).effects == [made] + [sent] + [ok];
    hide Step, HearAll;
    HearOne(l, made);
    HearOne(l, sent);
    HearOne(Hear(l, sent), ok);
    HearAppend(l, [made], [sent]);
    HearAppend(l, [made] + [sent], [ok]);
  }

  lemma RequestOrderly(l: Line, c: Client, e: Event)
    requires OnLine(l, c) && Orderly(l, c) && (CanSend(c.link) ==> c.calls.queue == []) && e.CallRequest?
    ensures Orderly(HearAll(l, Step(c, e).effects), Step(c, e).client)
  {
    var id := c.calls.nextId;
    hide HearAll;
    if CanSend(c.link) {
      EmptyIsAscending(c.calls.queue, l.last, id);
      SentHeard(l, c, e);
    } else {
      UnsentUnheard(l, c, e);
      EnqueueAscends(c.calls.queue, l.last, id);
      RoomAscends(c.calls.queue, l.last, id);
    }
  }

  lemma {:induction false} RemakingOrderly(l: Line, c: Client, files: seq<string>)
    requires OnLine(l, c) && Orderly(l, c) && (files != [] ==> c.calls.queue == []) && CanSend(c.link)
    ensures Orderly(HearAll(l, RemakeRequests(c, files).effects), RemakeRequests(c, files).client)
    decreases files
  {
    if files == [] {
      assert HearAll(l, []) == l;
    } else {
      var again := CallRequest(files[0], FILE_SUBSCRIBE_RESPONSE, ANY_PAYLOAD, true);
      var one := Step(c, again);
      assert one.client.link == c.link && one.client.calls.queue == c.calls.queue;
      hide HearAll, Orderly, SendRequest;
      RequestOrderly(l, c, again);
      RequestOnLine(l, c, again);
      RemakingOrderly(HearAll(l, one.effects), one.client, files[1..]);
      HearAppend(l, one.effects, RemakeRequests(one.client, files[1..]).effects);
    }
  }

  lemma SendingOrderly(l: Line, c: Client)
    requires OnLine(l, c) && Orderly(l, c) && CanSend(c.link) && (c.others.files == [] || c.calls.queue == [])
    ensures Orderly(HearAll(l, SendRequests(c).effects), SendRequests(c).client)
  {
    var t, remade := c.link.transport.value, RemakeRequests(c, c.others.files);
    hide HearAll, RemakeRequests;
    RemakingOrderly(l, c, c.others.files);
    HearAppend(l, remade.effects, FlushAll(t, remade.client.calls.queue));
    FlushOrdered(HearAll(l, remade.effects), t, remade.client.calls.queue, remade.client.calls.nextId);
    hide FlushAll;
  }

  lemma HandshakeOrderly(l: Line, c: Client, n: Next)
    requires OnLine(l, c) && Orderly(l, c) && Handshake(c, n) && c.link.transport.Some?
    requires c.others.files == [] || c.calls.queue == []
    ensures Orderly(HearAll(l, n.effects), n.client)
  {
    hide HearAll, Ascending, SendRequests, Handshake;
    HandshakeSplits(l, c, n);
    HandshakeParts(c, n);
    SendingOrderly(l.(held := l.held + (set s | s in c.registry)), EnterConnected(Heard(c)));
  }

  lemma UnheardOrderly(l: Line, c: Client, n: Next)
    requires Orderly(l, c) && HearAll(l, n.effects) == l && QuietCalls(c.calls, n.client.calls)
    ensures Orderly(HearAll(l, n.effects), n.client)
  {
    hide HearAll, Ascending;
  }

  lemma OpeningOrderly(l: Line, c: Client, n: Next)
    requires OnLine(l, c) && Orderly(l, c) && Opening(c, n)
    ensures Orderly(HearAll(l, n.effects), n.client)
  {
    hide HearAll, Ascending;
    OpeningHeard(l, c, n);
  }

  lemma SubscriptionOrderly(l: Line, c: Client, e: Event)
    requires OnLine(l, c) && Orderly(l, c) && (e.CallSubscribe? || e.CallUnsubscribe?)
    ensures Orderly(HearAll(l, Step(c, e).effects), Step(c, e).client)
  {
    hide HearAll, Ascending;
    SubscriptionOnLine(l, c, e);
  }

  lemma StepOrderly(l: Line, c: Client, e: Event)
    requires OnLine(l, c) && Orderly(l, c) && Inv(c) && !Overtakes(c, e)
    ensures Orderly(HearAll(l, Step(c, e).effects), Step(c, e).client)
  {
    var n := Step(c, e);
    StepShape(c, e);
    assert CanSend(c.link) ==> c.calls.queue == [];
    if Handshake(c, n) {
      HandshakeParts(c, n);
      hide Step, HearAll, Quiet, Handshake, OnLine, Orderly;
      HandshakeOrderly(l, c, n);
    } else {
      hide Step, HearAll, Inv, Quiet, Opening, Hearing, Handshake, Pinging, Faltering, GivingUp, OnLine, Orderly;
      hide QuietLink, QuietCalls, CanSend, Overtakes;
      if Opening(c, n) { OpeningOrderly(l, c, n); }
      else if e.CallRequest? { RequestOrderly(l, c, e); }
      else if e.CallSubscribe? || e.CallUnsubscribe? { SubscriptionOrderly(l, c, e); }
      else { UnheardSteps(l, c, n); UnheardOrderly(l, c, n); }
    }
  }

  // ---------------------------------------------------------------------------
  // What that means for a trace
  // ---------------------------------------------------------------------------

  predicate IsRequest(e: Effect) {
    e.Sent? && e.wire.Request?
  }

  /** Requests go over the wire in the order in which they were made. */
  predicate InOrder(es: seq<Effect>) {
    forall i, j :: 0 <= i < j < |es| && IsRequest(es[i]) && IsRequest(es[j]) ==> es[i].wire.id < es[j].wire.id
  }

  /** No handshake of the run makes a request again while other requests are queued. */
  predicate NeverOvertakes(c: Client, events: seq<Event>) {
    forall i :: 0 <= i < |events| ==> !Overtakes(Run(c, events[..i]).client, events[i])
  }

  lemma NeverOvertook(c: Client, events: seq<Event>)
    requires events != [] && NeverOvertakes(c, events)
    ensures NeverOvertakes(c, events[..|events| - 1])
    ensures !Overtakes(Run(c, events[..|events| - 1]).client, events[|events| - 1])
  {
    hide Overtakes, Run;
    var before := events[..|events| - 1];
    forall i | 0 <= i < |before| ensures !Overtakes(Run(c, before[..i]).client, before[i]) {
      assert before[..i] == events[..i] && before[i] == events[i];
    }
  }

  lemma {:induction false} RunOrderly(reconnectEnabled: bool, events: seq<Event>)
    requires NeverOvertakes(Initial(reconnectEnabled), events)
    ensures var run := Run(Initial(reconnectEnabled), events); Orderly(HearAll(DOWN, run.effects), run.client)
  {
    if events != [] {
      hide Step, OnLine, Orderly, HearAll, Inv, Overtakes, NeverOvertakes;
      var earlier := events[..|events| - 1];
      var before := Run(Initial(reconnectEnabled), earlier);
      NeverOvertook(Initial(reconnectEnabled), events);
      RunOrderly(reconnectEnabled, earlier);
      RunOnLine(reconnectEnabled, earlier);
      EveryRunInv(reconnectEnabled, earlier);
      StepOrderly(HearAll(DOWN, before.effects), before.client, events[|events| - 1]);
      HearAppend(DOWN, before.effects, Step(before.client, events[|events| - 1]).effects);
    }
  }

  /** What the daemon heard in order was sent in order, up to the last request. */
  lemma {:induction false} OrderedIsInOrder(es: seq<Effect>)
    requires HearAll(DOWN, es).ordered
    ensures InOrder(es)
    ensures forall i :: 0 <= i < |es| && IsRequest(es[i]) ==> es[i].wire.id <= HearAll(DOWN, es).last
  {
    if es != [] {
      var before, e := es[..|es| - 1], es[|es| - 1];
      assert HearAll(DOWN, es) == Hear(HearAll(DOWN, before), e);
      OrderedIsInOrder(before);
      hide HearAll;
      forall i | 0 <= i < |before| && IsRequest(es[i]) ensures es[i].wire.id <= HearAll(DOWN, before).last {
        assert es[i] == before[i];
      }
      forall i, j | 0 <= i < j < |before| && IsRequest(es[i]) && IsRequest(es[j])
        ensures es[i].wire.id < es[j].wire.id
      {
        assert es[i] == before[i] && es[j] == before[j];
      }
    }
  }

  lemma PartInOrder(a: seq<Effect>, b: seq<Effect>, c: seq<Effect>)
    requires InOrder(a + b + c)
    ensures InOrder(b)
  {
    var es := a + b + c;
    forall i, j | 0 <= i < j < |b| && IsRequest(b[i]) && IsRequest(b[j]) ensures b[i].wire.id < b[j].wire.id {
      assert es[|a| + i] == b[i] && es[|a| + j] == b[j];
    }
  }

  lemma RemadeFirst(c: Client, files: seq<string>)
    requires CanSend(c.link) && files != []
    ensures var es := RemakeRequests(c, files).effects;
            |es| > 1 && es[1] == Sent(c.link.transport.value, Request(c.calls.nextId))
  {
  }

  /** A request made again goes out before those that were queued earlier. */
  lemma Overtaking(c: Client, e: Event)
    requires Inv(c) && Overtakes(c, e) && c.calls.queue[0].id < c.calls.nextId
    ensures !InOrder(Step(c, e).effects)
  {
    var n, up := Step(c, e), EnterConnected(Heard(c));
    OnlyTheHandshakeConnects(c, e);
    HandshakeParts(c, n);
    RemakingKeeps(up, up.others.files);
    RemadeFirst(up, up.others.files);
    var remade, sent := RemakeRequests(up, up.others.files), SendRequests(up).effects;
    var flushed := FlushAll(up.link.transport.value, remade.client.calls.queue);
    assert flushed[0] == Sent(up.link.transport.value, Request(c.calls.queue[0].id));
    assert sent == remade.effects + flushed;
    var pre, post := [ValidFrame, StatusChanged(Connected)] + Resubscribe(up), ResolveConnect(up.link).effects;
    hide Step, Handshake, SendRequests, RemakeRequests, FlushAll, Resubscribe, ResolveConnect, Inv;
    assert sent[1] == remade.effects[1] && sent[|remade.effects|] == flushed[0];
    assert !InOrder(sent);
    if InOrder(n.effects) {
      PartInOrder(pre, sent, post);
    }
  }

  lemma {:induction false} RunInParts(c: Client, events: seq<Event>, i: nat) returns (rest: seq<Effect>)
    requires i < |events|
    ensures var before := Run(c, events[..i]);
            Run(c, events).effects == before.effects + Step(before.client, events[i]).effects + rest
  {
    hide Step;
    if i == |events| - 1 {
      rest := [];
    } else {
      var earlier := events[..|events| - 1];
      assert earlier[..i] == events[..i];
      var more := RunInParts(c, earlier, i);
      var last := Step(Run(c, earlier).client, events[|events| - 1]).effects;
      rest := more + last;
      Assoc(Run(c, events[..i]).effects + Step(Run(c, events[..i]).client, events[i]).effects, more, last);
    }
  }

  lemma QueuedBeforeNext(reconnectEnabled: bool, events: seq<Event>)
    requires Run(Initial(reconnectEnabled), events).client.calls.queue != []
    ensures var calls := Run(Initial(reconnectEnabled), events).client.calls; calls.queue[0].id < calls.nextId
  {
    hide Run, Ledger.TallyAll;
    var queue := Run(Initial(reconnectEnabled), events).client.calls.queue;
    Conservation.RequestsAreConserved(reconnectEnabled, events, queue[0].id);
    assert Ledger.Queued(queue, queue[0].id) >= 1;
  }

  /**
   * Over every run, across any number of reconnects: requests go over the wire in the order in
   * which they were made if and only if no handshake makes the request of a file subscription
   * again while other requests are queued.
   */
  lemma SentInOrder(reconnectEnabled: bool, events: seq<Event>)
    ensures InOrder(Run(Initial(reconnectEnabled), events).effects)
       <==> NeverOvertakes(Initial(reconnectEnabled), events)
  {
    var c, es := Initial(reconnectEnabled), Run(Initial(reconnectEnabled), events).effects;
    hide Step, Run, InOrder, Overtakes, HearAll;
    if NeverOvertakes(c, events) {
      RunOrderly(reconnectEnabled, events);
      OrderedIsInOrder(es);
    } else {
      var i :| 0 <= i < |events| && Overtakes(Run(c, events[..i]).client, events[i]);
      var before := Run(c, events[..i]);
      var rest := RunInParts(c, events, i);
      EveryRunInv(reconnectEnabled, events[..i]);
      OvertakingQueue(before.client, events[i]);
      QueuedBeforeNext(reconnectEnabled, events[..i]);
      Overtaking(before.client, events[i]);
      if InOrder(es) {
        PartInOrder(before.effects, Step(before.client, events[i]).effects, rest);
      }
    }
  }

  /**
   * A client whose connection closes while a file is subscribed, and that queues a request while
   * it reconnects, up to the greeting of the daemon.
   */
  function Reconnecting(file: string, requestId: string): seq<Event> {
    [DIAL, GREETING] + [OtherSubscriptions(Others([], [file]))]
    + [OnTransport(Closed)] + [OnReconnectTimer(Opens(false))] + [CallRequest(requestId, "", ANY_PAYLOAD, true)]
  }

  lemma Redialled(c: Client, requestId: string)
    requires c.link.status.Connected? && c.link.transport.Some? && c.link.shouldReconnect && c.link.reconnectEnabled
    requires c.calls == Calls([], [], 0)
    ensures var down := Step(c, OnTransport(Closed)).client;
            var again := Step(down, OnReconnectTimer(Opens(false))).client;
            var asked := Step(again, CallRequest(requestId, "", ANY_PAYLOAD, true)).client;
            && asked.link.status.Connecting? && asked.link.transport.Some? && !asked.link.credential
            && asked.others == c.others && asked.calls.queue == [PendingSend(0)]
  {
  }

  lemma WhileReconnecting(file: string, requestId: string)
    ensures var c := Run(Initial(true), Reconnecting(file, requestId)).client;
            && c.link.status.Connecting? && c.link.transport.Some? && !c.link.credential
            && c.others.files == [file] && c.calls.queue == [PendingSend(0)]
  {
    hide Step;
    var c := Initial(true);
    var subscribe := OtherSubscriptions(Others([], [file]));
    var close, again, ask := OnTransport(Closed), OnReconnectTimer(Opens(false)),
                             CallRequest(requestId, "", ANY_PAYLOAD, true);
    RunStep(c, [DIAL, GREETING], subscribe);
    RunStep(c, [DIAL, GREETING] + [subscribe], close);
    RunStep(c, [DIAL, GREETING] + [subscribe] + [close], again);
    RunStep(c, [DIAL, GREETING] + [subscribe] + [close] + [again], ask);
    hide Run;
    FirstConnection(true);
    Subscribed(FirstConnected(true), Others([], [file]));
    Redialled(Step(FirstConnected(true), subscribe).client, requestId);
  }

  lemma Subscribed(c: Client, others: Others)
    ensures Step(c, OtherSubscriptions(others)).client == c.(others := others)
  {
  }

  /** When the daemon greets that client, the file's request overtakes the one that was queued. */
  lemma FileRequestOvertakes(file: string, requestId: string)
    ensures var events := Reconnecting(file, requestId) + [GREETING];
            && !InOrder(Run(Initial(true), events).effects)
            && Run(Initial(true), events).client.link.status.Connected?
  {
    var earlier := Reconnecting(file, requestId);
    var events := earlier + [GREETING];
    WhileReconnecting(file, requestId);
    assert events[..|earlier|] == earlier && events[|earlier|] == GREETING;
    assert Overtakes(Run(Initial(true), earlier).client, GREETING) by {
      hide Run, SendRequests, Reconnecting;
    }
    hide Overtakes, Reconnecting;
    RunStep(Initial(true), earlier, GREETING);
    hide Run;
    SentInOrder(true, events);
  }

  lemma OvertakingQueue(c: Client, e: Event)
    requires Overtakes(c, e)
    ensures c.calls.queue != []
  {
  }

  // ---------------------------------------------------------------------------
  // The handshake
  // ---------------------------------------------------------------------------

  /** What was sent, in order. */
  function Wires(es: seq<Effect>): seq<Wire> {
    if es == [] then []
    else if es[0].Sent? then [es[0].wire] + Wires(es[1..])
    else Wires(es[1..])
  }

  function Subscribes(registry: seq<Subscription>): seq<Wire> {
    seq(|registry|, i requires 0 <= i < |registry| => Subscribe(registry[i]))
  }

  function Requests(queue: seq<PendingSend>): seq<Wire> {
    seq(|queue|, i requires 0 <= i < |queue| => Request(queue[i].id))
  }

  function Diffs(diffs: seq<string>): seq<Wire> {
    seq(|diffs|, i requires 0 <= i < |diffs| => SubscribeDiff(diffs[i]))
  }

  /** As many fresh requests, in order. */
  function FreshRequests(nextId: nat, count: nat): seq<Wire> {
    seq(count, i requires 0 <= i < count => Request(nextId + i))
  }

  /** The waiters of the file subscriptions that are made again. */
  function RemadeWaiters(nextId: nat, files: seq<string>): seq<Waiter> {
    seq(|files|, i requires 0 <= i < |files| =>
      Waiter(nextId + i, files[i], FILE_SUBSCRIBE_RESPONSE, ANY_PAYLOAD, true))
  }

  /** All that a handshake sends. */
  function HandshakeWires(c: Client): seq<Wire> {
    Diffs(c.others.diffs) + Subscribes(c.registry)
    + FreshRequests(c.calls.nextId, |c.others.files|) + Requests(c.calls.queue)
  }

  lemma {:induction false} WiresAppend(a: seq<Effect>, b: seq<Effect>)
    ensures Wires(a + b) == Wires(a) + Wires(b)
  {
    if a == [] {
      assert a + b == b;
    } else {
      assert (a + b)[0] == a[0] && (a + b)[1..] == a[1..] + b;
      WiresAppend(a[1..], b);
      if a[0].Sent? {
        Assoc([a[0].wire], Wires(a[1..]), Wires(b));
      }
    }
  }

  predicate Unsent(es: seq<Effect>) {
    forall i :: 0 <= i < |es| ==> !es[i].Sent?
  }

  lemma {:induction false} NoWires(es: seq<Effect>)
    requires Unsent(es)
    ensures Wires(es) == []
  {
    if es != [] {
      NoWires(es[1..]);
    }
  }

  lemma {:induction false} ResubscriptionWires(t: nat, registry: seq<Subscription>)
    ensures Wires(ResubscribeAll(t, registry)) == Subscribes(registry)
    decreases registry
  {
    if registry != [] {
      var rest := ResubscribeAll(t, registry[1..]);
      ResubscriptionWires(t, registry[1..]);
      assert ([Sent(t, Subscribe(registry[0]))] + rest)[1..] == rest;
      assert Subscribes(registry) == [Subscribe(registry[0])] + Subscribes(registry[1..]);
    }
  }

  lemma {:induction false} FlushWires(t: nat, queue: seq<PendingSend>)
    ensures Wires(FlushAll(t, queue)) == Requests(queue)
    decreases queue
  {
    if queue != [] {
      var rest := FlushAll(t, queue[1..]);
      var sent, ok := Sent(t, Request(queue[0].id)), SendSettled(queue[0].id, SendOk);
      FlushWires(t, queue[1..]);
      assert ([sent, ok] + rest)[1..] == [ok] + rest;
      assert ([ok] + rest)[1..] == rest;
      assert Requests(queue) == [Request(queue[0].id)] + Requests(queue[1..]);
    }
  }

  lemma WiresAround(pre: seq<Effect>, es: seq<Effect>, post: seq<Effect>)
    requires Unsent(pre) && Unsent(post)
    ensures Wires(pre + es + post) == Wires(es)
  {
    NoWires(pre);
    NoWires(post);
    hide Wires, Unsent;
    WiresAppend(pre, es);
    WiresAppend(pre + es, post);
  }

  lemma {:induction false} DiffWires(t: nat, diffs: seq<string>)
    ensures Wires(ResubscribeDiffs(t, diffs)) == Diffs(diffs)
    decreases diffs
  {
    if diffs != [] {
      var rest := ResubscribeDiffs(t, diffs[1..]);
      DiffWires(t, diffs[1..]);
      assert ([Sent(t, SubscribeDiff(diffs[0]))] + rest)[1..] == rest;
      assert Diffs(diffs) == [SubscribeDiff(diffs[0])] + Diffs(diffs[1..]);
    }
  }

  lemma RequestWires(c: Client, e: Event)
    requires e.CallRequest? && CanSend(c.link)
    ensures Wires(Step(c, e).effects) == [Request(c.calls.nextId)]
  {
    var id, t := c.calls.nextId, c.link.transport.value;
    var sent := Sent(t, Request(id));
    assert Step(c, e).effects == [RequestMade(id, e.requestId)] + [sent] + [SendSettled(id, SendOk)];
    hide Step;
    WiresAround([RequestMade(id, e.requestId)], [sent], [SendSettled(id, SendOk)]);
    assert [sent][1..] == [] && Wires([]) == [];
  }

  lemma FreshStep(c: Client, files: seq<string>)
    requires files != []
    ensures [Request(c.calls.nextId)] + FreshRequests(c.calls.nextId + 1, |files| - 1)
         == FreshRequests(c.calls.nextId, |files|)
    ensures c.calls.waiters + [Waiter(c.calls.nextId, files[0], FILE_SUBSCRIBE_RESPONSE, ANY_PAYLOAD, true)]
            + RemadeWaiters(c.calls.nextId + 1, files[1..])
         == c.calls.waiters + RemadeWaiters(c.calls.nextId, files)
  {
  }

  /** Making requests again sends each once and adds its waiter. */
  lemma {:induction false} RemakingWires(c: Client, files: seq<string>)
    requires CanSend(c.link)
    ensures var remade := RemakeRequests(c, files);
            && Wires(remade.effects) == FreshRequests(c.calls.nextId, |files|)
            && remade.client.calls == Calls(c.calls.waiters + RemadeWaiters(c.calls.nextId, files), c.calls.queue,
                                            c.calls.nextId + |files|)
    decreases files
  {
    if files == [] {
      assert Wires([]) == [];
    } else {
      var again := CallRequest(files[0], FILE_SUBSCRIBE_RESPONSE, ANY_PAYLOAD, true);
      var one := Step(c, again);
      assert one.client.link == c.link && one.client.calls.queue == c.calls.queue
          && one.client.calls.nextId == c.calls.nextId + 1;
      hide Wires, FreshRequests, RemadeWaiters;
      RequestWires(c, again);
      RemakingWires(one.client, files[1..]);
      FreshStep(c, files);
      WiresAppend(one.effects, RemakeRequests(one.client, files[1..]).effects);
      hide Step;
    }
  }

  lemma SendingWires(c: Client)
    requires CanSend(c.link)
    ensures var sent := SendRequests(c);
            && Wires(sent.effects) == FreshRequests(c.calls.nextId, |c.others.files|) + Requests(c.calls.queue)
            && sent.client.calls == Calls(c.calls.waiters + RemadeWaiters(c.calls.nextId, c.others.files), [],
                                          c.calls.nextId + |c.others.files|)
  {
    hide Wires, FreshRequests, RemadeWaiters, RemakeRequests, FlushAll, Requests;
    var remade := RemakeRequests(c, c.others.files);
    RemakingWires(c, c.others.files);
    FlushWires(c.link.transport.value, c.calls.queue);
    WiresAppend(remade.effects, FlushAll(c.link.transport.value, c.calls.queue));
  }

  lemma ResubscribingWires(c: Client)
    requires c.link.transport.Some?
    ensures Wires(Resubscribe(c)) == Diffs(c.others.diffs) + Subscribes(c.registry)
  {
    hide Wires, Diffs, Subscribes, ResubscribeDiffs, ResubscribeAll;
    var t := c.link.transport.value;
    DiffWires(t, c.others.diffs);
    ResubscriptionWires(t, c.registry);
    WiresAppend(ResubscribeDiffs(t, c.others.diffs), ResubscribeAll(t, c.registry));
  }

  lemma BecomeConnectedStep(c: Client, n: Next)
    requires Handshake(c, n) && c.link.transport.Some?
    ensures Wires(n.effects) == HandshakeWires(c)
    ensures n.client.calls == Calls(c.calls.waiters + RemadeWaiters(c.calls.nextId, c.others.files), [],
                                    c.calls.nextId + |c.others.files|)
  {
    var up := EnterConnected(Heard(c));
    var greeted, resolved := [ValidFrame, StatusChanged(Connected)], ResolveConnect(up.link).effects;
    HandshakeParts(c, n);
    assert Unsent(resolved) && Unsent(greeted);
    hide Handshake, SendRequests, Resubscribe, ResolveConnect, Unsent;
    hide Wires, Diffs, Subscribes, FreshRequests, Requests, RemadeWaiters;
    ResubscribingWires(up);
    SendingWires(up);
    WiresAppend(Resubscribe(up), SendRequests(up).effects);
    Assoc(greeted, Resubscribe(up), SendRequests(up).effects);
    WiresAround(greeted, Resubscribe(up) + SendRequests(up).effects, resolved);
    Assoc(Diffs(c.others.diffs) + Subscribes(c.registry), FreshRequests(c.calls.nextId, |c.others.files|),
          Requests(c.calls.queue));
  }

  lemma ApiCallsDoNotConnect(c: Client, e: Event)
    requires e.CallRequest? || e.CallSubscribe? || e.CallUnsubscribe?
    ensures Step(c, e).client.link == c.link
  {
  }

  lemma OtherShapesDoNotConnect(c: Client, n: Next)
    requires Quiet(c, n) || Opening(c, n) || Hearing(c, n) || Pinging(c, n) || Faltering(c, n) || GivingUp(c, n)
    ensures n.client.link.status.Connected? ==> c.link.status.Connected?
  {
    hide QuietEffects, QuietCalls;
  }

  lemma OnlyTheHandshakeConnects(c: Client, e: Event)
    requires !c.link.status.Connected? && Step(c, e).client.link.status.Connected?
    ensures Handshake(c, Step(c, e))
  {
    hide Step, Quiet, Opening, Hearing, Handshake, Pinging, Faltering, GivingUp;
    StepShape(c, e);
    if e.CallRequest? || e.CallSubscribe? || e.CallUnsubscribe? {
      ApiCallsDoNotConnect(c, e);
    } else if !Handshake(c, Step(c, e)) {
      OtherShapesDoNotConnect(c, Step(c, e));
    }
  }

  /**
   * A step that gets connected starts from connecting. It sends the checkout-diff subscriptions,
   * one subscription for each entry of the registry, one fresh request for each file subscription,
   * and then every queued request, each in order, and nothing else; it empties the queue, and adds
   * the waiters of the fresh requests.
   */
  lemma HandshakeOrder(c: Client, e: Event)
    requires Inv(c) && !c.link.status.Connected? && Step(c, e).client.link.status.Connected?
    ensures c.link.status.Connecting?
    ensures Wires(Step(c, e).effects) == HandshakeWires(c)
    ensures Step(c, e).client.calls
         == Calls(c.calls.waiters + RemadeWaiters(c.calls.nextId, c.others.files), [],
                  c.calls.nextId + |c.others.files|)
  {
    OnlyTheHandshakeConnects(c, e);
    assert c.link.status.Connecting?;
    hide Step, Wires, Handshake, HandshakeWires, RemadeWaiters;
    BecomeConnectedStep(c, Step(c, e));
  }
}
