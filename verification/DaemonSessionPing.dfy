/**
 * Whose failure a heartbeat failure is: the ping that went unanswered was sent on the present
 * transport exactly if no transport has been opened since.
 */
module DaemonSessionPing {
  import opened Wrappers
  import opened DaemonSession
  import opened DaemonSessionInvariant
  import opened DaemonSessionQuiet
  import opened DaemonSessionShapes
  import opened DaemonSessionWire
  import opened DaemonSessionLiveness
  import opened DaemonSessionDeadline
  import opened DaemonSessionExamples

  /** Transports are numbered in the order in which they are opened, below `next`. */
  predicate Numbered(es: seq<Effect>, next: nat) {
    && (forall i :: 0 <= i < |es| && es[i].TransportOpened? ==> es[i].transport < next)
    && (forall i, j :: 0 <= i < j < |es| && es[i].TransportOpened? && es[j].TransportOpened? ==>
          es[i].transport < es[j].transport)
  }

  /** Every ping is sent as soon as it is started. */
  predicate PingsSent(es: seq<Effect>) {
    forall k :: 0 <= k < |es| && es[k].ProbeStarted? ==> k + 1 < |es| && es[k + 1].Sent? && es[k + 1].wire.Ping?
  }

  predicate Uneventful(es: seq<Effect>) {
    forall i :: 0 <= i < |es| ==> !es[i].TransportOpened? && !es[i].ProbeStarted?
  }

  lemma QuietUneventful(c: Client, es: seq<Effect>)
    requires QuietEffects(c, es)
    ensures Uneventful(es)
  {
    assert forall i :: 0 <= i < |es| ==> QuietEffect(c, es[i]);
  }

  lemma HandshakeUneventful(c: Client, n: Next)
    requires Handshake(c, n)
    ensures Uneventful(n.effects)
  {
    var up := EnterConnected(Heard(c));
    HandshakeParts(c, n);
    ResubscribingOnly(up);
    SendingOnly(up);
    hide Handshake, SendRequests, Resubscribe;
    PartsUneventful(Resubscribe(up), SendRequests(up).effects, up.link.transport);
    hide Resubscribing, AboutRequests;
  }

  lemma PartsUneventful(resubscribed: seq<Effect>, sent: seq<Effect>, transport: Option<nat>)
    requires Resubscribing(resubscribed, transport) && AboutRequests(sent, transport)
    ensures Uneventful(resubscribed) && Uneventful(sent)
  {
  }

  lemma ShapeUneventful(c: Client, n: Next)
    requires Quiet(c, n) || Hearing(c, n) || Faltering(c, n) || GivingUp(c, n)
    ensures Uneventful(n.effects)
  {
    hide QuietEffects, QuietCalls;
    if Quiet(c, n) {
      QuietUneventful(c, n.effects);
    } else if Hearing(c, n) {
      QuietUneventful(Heard(c), n.effects[1..]);
      assert n.effects == [ValidFrame] + n.effects[1..];
    } else if GivingUp(c, n) {
      QuietUneventful(c.(heart := RejectProbe(c.heart).(failures := 0)), n.effects[2..]);
      assert n.effects == [HeartbeatFailed, LivenessTeardown] + n.effects[2..];
    }
  }

  lemma CallUneventful(c: Client, e: Event)
    requires e.CallRequest? || e.CallSubscribe? || e.CallUnsubscribe?
    ensures Uneventful(Step(c, e).effects)
  {
  }

  /** A step opens a transport, or starts a ping, or does neither. */
  lemma StepEvents(c: Client, e: Event)
    ensures var n := Step(c, e); Uneventful(n.effects) || Opening(c, n) || Pinging(c, n)
  {
    var n := Step(c, e);
    hide Step, Uneventful, Quiet, Opening, Hearing, Handshake, Pinging, Faltering, GivingUp;
    StepShape(c, e);
    if Handshake(c, n) { HandshakeUneventful(c, n); }
    else if e.CallRequest? || e.CallSubscribe? || e.CallUnsubscribe? { CallUneventful(c, e); }
    else if !Opening(c, n) && !Pinging(c, n) { ShapeUneventful(c, n); }
  }

  lemma OpeningNumbered(es: seq<Effect>, c: Client, n: Next)
    requires Numbered(es, c.link.nextTransport) && PingsSent(es) && Opening(c, n)
    requires n.client.link.nextTransport > c.link.nextTransport
    ensures Numbered(es + n.effects, n.client.link.nextTransport) && PingsSent(es + n.effects)
  {
    var disposed := DisposeTransport(c).effects;
    var at := |es| + |disposed|;
    assert (es + n.effects)[at] == TransportOpened(c.link.nextTransport);
    forall i | |es| <= i < |es + n.effects| && i != at ensures !(es + n.effects)[i].TransportOpened? {
      assert (es + n.effects)[i] == n.effects[i - |es|];
    }
    hide DisposeTransport;
  }

  lemma UneventfulNumbered(es: seq<Effect>, more: seq<Effect>, next: nat, next': nat)
    requires Numbered(es, next) && PingsSent(es) && Uneventful(more) && next <= next'
    ensures Numbered(es + more, next') && PingsSent(es + more)
  {
    forall i | |es| <= i < |es + more| ensures !(es + more)[i].TransportOpened? && !(es + more)[i].ProbeStarted? {
      assert (es + more)[i] == more[i - |es|];
    }
  }

  lemma PingingNumbered(es: seq<Effect>, c: Client, n: Next)
    requires Numbered(es, c.link.nextTransport) && PingsSent(es) && Pinging(c, n)
    ensures Numbered(es + n.effects, n.client.link.nextTransport) && PingsSent(es + n.effects)
  {
    assert |n.effects| == 2 && (es + n.effects)[|es|] == n.effects[0] && (es + n.effects)[|es| + 1] == n.effects[1];
    forall i | 0 <= i < |es| ensures (es + n.effects)[i] == es[i] {
    }
  }

  lemma {:induction false} RunNumbered(reconnectEnabled: bool, events: seq<Event>)
    ensures var run := Run(Initial(reconnectEnabled), events);
            Numbered(run.effects, run.client.link.nextTransport) && PingsSent(run.effects)
  {
    if events != [] {
      var earlier, e := events[..|events| - 1], events[|events| - 1];
      var before := Run(Initial(reconnectEnabled), earlier);
      var n := Step(before.client, e);
      RunNumbered(reconnectEnabled, earlier);
      EveryRunInv(reconnectEnabled, earlier);
      StepInv(before.client, e);
      StepContinues(before.client, e);
      StepEvents(before.client, e);
      assert Opening(before.client, n) ==> n.client.link.nextTransport > before.client.link.nextTransport;
      hide Step, Inv, Run, Opening, Pinging, Uneventful, Numbered, PingsSent;
      if Uneventful(n.effects) {
        UneventfulNumbered(before.effects, n.effects, before.client.link.nextTransport, n.client.link.nextTransport);
      } else if Opening(before.client, n) {
        OpeningNumbered(before.effects, before.client, n);
      } else {
        PingingNumbered(before.effects, before.client, n);
      }
    }
  }

  /** What was opened last stays so until something is opened, and never comes back after that. */
  lemma LastOpenedSince(es: seq<Effect>, next: nat, k: nat, i: nat, t: nat)
    requires k <= i <= |es| && Numbered(es, next) && OpenedLast(es[..k], t)
    ensures OpenedLast(es[..i], t) <==> forall j :: k <= j < i ==> !es[j].TransportOpened?
  {
    var m: nat :| OpenedLastAt(es[..k], m, t);
    assert es[m] == TransportOpened(t);
    if forall j :: k <= j < i ==> !es[j].TransportOpened? {
      assert OpenedLastAt(es[..i], m, t);
    } else {
      var j :| k <= j < i && es[j].TransportOpened?;
      assert es[..i][j] == es[j];
      forall l: nat ensures !OpenedLastAt(es[..i], l, t) {
        assert l < i ==> es[..i][l] == es[l];
      }
    }
  }

  /**
   * Over every run: the ping whose failure is charged was sent as soon as it was started, and the
   * transport it was sent on is the one opened last if and only if none was opened in between.
   */
  lemma FailureIsOfItsTransport(reconnectEnabled: bool, events: seq<Event>, i: nat, k: nat)
    requires i < |Run(Initial(reconnectEnabled), events).effects|
    requires Run(Initial(reconnectEnabled), events).effects[i].HeartbeatFailed?
    requires HeartbeatPinged(Run(Initial(reconnectEnabled), events).effects[..i], k)
    ensures var es := Run(Initial(reconnectEnabled), events).effects;
            && k + 1 < i && es[k + 1].Sent? && es[k + 1].wire.Ping?
            && (OpenedLast(es[..i], es[k + 1].transport) <==> forall j :: k < j < i ==> !es[j].TransportOpened?)
  {
    hide Run;
    var run := Run(Initial(reconnectEnabled), events);
    var es := run.effects;
    RunNumbered(reconnectEnabled, events);
    assert es[..i][k] == es[k];
    assert es[k + 1].Sent? && es[k + 1].wire.Ping?;
    SentOnLastTransport(reconnectEnabled, events, k + 1);
    hide OpenedLast, Numbered, PingsSent;
    LastOpenedSince(es, run.client.link.nextTransport, k + 1, i, es[k + 1].transport);
  }

  // ---------------------------------------------------------------------------
  // A ping of an earlier transport
  // ---------------------------------------------------------------------------

  /** A client that loses its connection and is told to connect before its retry timer runs out. */
  const RECONNECTED: seq<Event> := [DIAL, GREETING] + [OnTransport(Closed)] + [DIAL] + [GREETING]

  /** The retry timer that is still armed opens another transport when it runs out. */
  const SWAP: Event := OnReconnectTimer(Opens(false))

  lemma Redialled(c: Client)
    requires c == FirstConnected(true)
    ensures Step(Step(c, OnTransport(Closed)).client, DIAL).client
         == c.(link := Link(Connecting, Some(1), 2, false, true, true, 1, true, true, true, true, false),
               heart := Heart(None, false, 0, false))
  {
  }

  lemma Reconnected()
    ensures Run(Initial(true), RECONNECTED).client
         == FirstConnected(true).(link := Link(Connected, Some(1), 2, false, true, true, 0,
                                               false, false, true, false, false))
  {
    hide Step;
    var c := Initial(true);
    RunStep(c, [DIAL, GREETING], OnTransport(Closed));
    RunStep(c, [DIAL, GREETING] + [OnTransport(Closed)], DIAL);
    RunStep(c, [DIAL, GREETING] + [OnTransport(Closed)] + [DIAL], GREETING);
    hide Run;
    FirstConnection(true);
    Redialled(FirstConnected(true));
    Greeted(Run(c, [DIAL, GREETING] + [OnTransport(Closed)] + [DIAL]).client);
  }

  /** A connected client whose retry timer is still armed pings, and the timer swaps its transport. */
  lemma Swapped(c: Client)
    requires c.link.status.Connected? && c.link.transport.Some? && c.link.shouldReconnect && c.link.reconnectTimer
    requires c.heart == Heart(None, false, c.heart.failures, true)
    ensures var t, pinging := c.link.transport.value, Step(c, OnHeartbeatTimer);
            var swapped := Step(pinging.client, SWAP);
            && pinging.effects == [ProbeStarted(true), Sent(t, Ping)]
            && swapped.effects
               == [TransportClosed(t), TransportOpened(c.link.nextTransport), StatusChanged(Connecting)]
            && swapped.client.link.status.Connecting? && swapped.client.link.transport.Some?
            && swapped.client.heart == Heart(Some(Probe(true)), true, c.heart.failures, false)
  {
  }

  /** The ping is left behind, and its failure is charged all the same, to the new connection. */
  lemma OldPingIsCharged()
    ensures var events := RECONNECTED + [OnHeartbeatTimer] + [SWAP] + [OnPingTimer];
            exists pre: seq<Effect> :: Run(Initial(true), events).effects
              == pre + [ProbeStarted(true), Sent(1, Ping)]
                 + [TransportClosed(1), TransportOpened(2), StatusChanged(Connecting)] + [HeartbeatFailed]
  {
    hide Step, RECONNECTED;
    var c := Initial(true);
    RunStep(c, RECONNECTED, OnHeartbeatTimer);
    RunStep(c, RECONNECTED + [OnHeartbeatTimer], SWAP);
    RunStep(c, RECONNECTED + [OnHeartbeatTimer] + [SWAP], OnPingTimer);
    hide Run;
    Reconnected();
    Swapped(Run(c, RECONNECTED).client);
    FirstFailure(Run(c, RECONNECTED + [OnHeartbeatTimer] + [SWAP]).client);
  }

  lemma FirstFailure(c: Client)
    requires c.heart == Heart(Some(Probe(true)), true, 0, c.heart.timer)
    ensures var n := Step(c, OnPingTimer);
            && n.effects == [HeartbeatFailed] && n.client.link == c.link
            && n.client.heart == Heart(None, false, 1, c.heart.timer || c.link.status.Connected?)
  {
  }

  lemma Pinged(c: Client)
    requires CanSend(c.link) && c.heart == Heart(None, false, 0, true)
    ensures var n := Step(c, OnHeartbeatTimer).client;
            n.link == c.link && n.heart == Heart(Some(Probe(true)), true, 0, false)
  {
  }

  /** A reachable attempt that only the last ping of the earlier connection can end. */
  lemma OldPingEndsAttempt()
    ensures var events := RECONNECTED + [OnHeartbeatTimer] + [OnPingTimer] + [OnHeartbeatTimer] + [SWAP]
                          + [OnTransport(Failed(true))] + [OnTransport(Open)];
            var c := Run(Initial(true), events).client;
            c.link.status.Connecting? && !Timed(c.link) && LastPing(c.heart) && EndsByItself(c)
  {
    hide Step, RECONNECTED, EndsByItself;
    var c := Initial(true);
    var failed := RECONNECTED + [OnHeartbeatTimer] + [OnPingTimer];
    var swapped := failed + [OnHeartbeatTimer] + [SWAP];
    RunStep(c, RECONNECTED, OnHeartbeatTimer);
    RunStep(c, RECONNECTED + [OnHeartbeatTimer], OnPingTimer);
    RunStep(c, failed, OnHeartbeatTimer);
    RunStep(c, failed + [OnHeartbeatTimer], SWAP);
    RunStep(c, swapped, OnTransport(Failed(true)));
    RunStep(c, swapped + [OnTransport(Failed(true))], OnTransport(Open));
    EveryRunInv(true, swapped + [OnTransport(Failed(true))] + [OnTransport(Open)]);
    hide Run, Inv;
    Reconnected();
    Pinged(Run(c, RECONNECTED).client);
    FirstFailure(Run(c, RECONNECTED + [OnHeartbeatTimer]).client);
    Swapped(Run(c, failed).client);
    FailThenOpen(Run(c, swapped).client);
    EndsExactly(Run(c, swapped + [OnTransport(Failed(true))] + [OnTransport(Open)]).client);
  }
}
