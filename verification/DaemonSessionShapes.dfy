/** The shapes a step can have: each is quiet, or does one thing besides, or is an API call. */
module DaemonSessionShapes {
  import opened Wrappers
  import opened SubscriptionKey
  import opened DaemonSession
  import opened DaemonSessionInvariant
  import opened DaemonSessionLedger
  import opened DaemonSessionQuiet

  /** A transport is opened. */
  ghost predicate Opening(c: Client, n: Next) {
    && n.effects == DisposeTransport(c).effects + [TransportOpened(c.link.nextTransport), StatusChanged(Connecting)]
    && n.client.link.status.Connecting? && n.client.link.transport == Some(c.link.nextTransport)
    && n.client.calls == c.calls && n.client.registry == c.registry && QuietHeart(c.heart, n.client.heart)
  }

  /** A valid frame arrives, with quiet consequences. */
  ghost predicate Hearing(c: Client, n: Next) {
    |n.effects| > 0 && n.effects[0] == ValidFrame && Quiet(Heard(c), Next(n.client, n.effects[1..]))
  }

  /** A valid frame completes the handshake. */
  ghost predicate Handshake(c: Client, n: Next) {
    && c.link.status.Connecting?
    && n.effects == [ValidFrame] + BecomeConnected(Heard(c)).effects && n.client == BecomeConnected(Heard(c)).client
  }

  /** A ping is sent. */
  ghost predicate Pinging(c: Client, n: Next) {
    && n.client.heart.probe.Some? && CanSend(c.link)
    && n.effects == [ProbeStarted(n.client.heart.probe.value.drivesLiveness), Sent(c.link.transport.value, Ping)]
    && n.client.link == c.link && n.client.calls == c.calls && n.client.registry == c.registry
    && n.client.heart.failures == c.heart.failures
  }

  /** A heartbeat's ping goes unanswered for the first time. */
  ghost predicate Faltering(c: Client, n: Next) {
    && c.heart.probe == Some(Probe(true))
    && c.heart.failures + 1 < LIVENESS_FAILURE_RECONNECT_THRESHOLD
    && n.effects == [HeartbeatFailed]
    && n.client.link == c.link && n.client.calls == c.calls && n.client.registry == c.registry
    && n.client.heart.failures == c.heart.failures + 1 && n.client.heart.probe.None?
  }

  /** A heartbeat's ping goes unanswered again, and the connection is given up. */
  ghost predicate GivingUp(c: Client, n: Next) {
    && c.heart.probe == Some(Probe(true))
    && c.heart.failures + 1 >= LIVENESS_FAILURE_RECONNECT_THRESHOLD
    && |n.effects| > 1 && n.effects[0] == HeartbeatFailed && n.effects[1] == LivenessTeardown
    && Quiet(c.(heart := RejectProbe(c.heart).(failures := 0)), Next(n.client, n.effects[2..]))
  }

  // ---------------------------------------------------------------------------
  // The parts of the handshake
  // ---------------------------------------------------------------------------

  /** Requests are made, sent and settled. */
  predicate AboutRequests(es: seq<Effect>, transport: Option<nat>) {
    forall i :: 0 <= i < |es| ==>
      || es[i].RequestMade? || es[i].SendSettled? || es[i].WaiterSettled?
      || (es[i].Sent? && es[i].wire.Request? && Some(es[i].transport) == transport)
  }

  /** Subscriptions are sent. */
  predicate Resubscribing(es: seq<Effect>, transport: Option<nat>) {
    forall i :: 0 <= i < |es| ==>
      es[i].Sent? && (es[i].wire.Subscribe? || es[i].wire.SubscribeDiff?) && Some(es[i].transport) == transport
  }

  lemma {:induction false} DiffsResubscribe(transport: nat, diffs: seq<string>)
    ensures Resubscribing(ResubscribeDiffs(transport, diffs), Some(transport))
    decreases diffs
  {
    if diffs != [] {
      DiffsResubscribe(transport, diffs[1..]);
    }
  }

  lemma {:induction false} RegistryResubscribes(transport: nat, registry: seq<Subscription>)
    ensures Resubscribing(ResubscribeAll(transport, registry), Some(transport))
    decreases registry
  {
    if registry != [] {
      RegistryResubscribes(transport, registry[1..]);
    }
  }

  lemma ResubscribingOnly(c: Client)
    ensures Resubscribing(Resubscribe(c), c.link.transport)
  {
    if c.link.transport.Some? {
      DiffsResubscribe(c.link.transport.value, c.others.diffs);
      RegistryResubscribes(c.link.transport.value, c.registry);
    }
    hide ResubscribeDiffs, ResubscribeAll;
  }

  lemma {:induction false} FlushIsAboutRequests(transport: nat, queue: seq<PendingSend>)
    ensures AboutRequests(FlushAll(transport, queue), Some(transport))
    decreases queue
  {
    if queue != [] {
      FlushIsAboutRequests(transport, queue[1..]);
    }
  }

  lemma {:induction false} RejectionIsAboutRequests(transport: Option<nat>, queue: seq<PendingSend>)
    ensures AboutRequests(RejectAll(queue), transport)
    decreases queue
  {
    if queue != [] {
      RejectionIsAboutRequests(transport, queue[1..]);
    }
  }

  lemma RequestIsAboutRequests(c: Client, requestId: string)
    ensures AboutRequests(SendRequest(c, requestId, FILE_SUBSCRIBE_RESPONSE, ANY_PAYLOAD, true).effects,
                          c.link.transport)
  {
  }

  lemma {:induction false} RemakingIsAboutRequests(c: Client, files: seq<string>)
    ensures AboutRequests(RemakeRequests(c, files).effects, c.link.transport)
    decreases files
  {
    if files != [] {
      RequestIsAboutRequests(c, files[0]);
      RemakingIsAboutRequests(SendRequest(c, files[0], FILE_SUBSCRIBE_RESPONSE, ANY_PAYLOAD, true).client, files[1..]);
    }
  }

  /** The part of the handshake that concerns requests does nothing else. */
  lemma SendingOnly(c: Client)
    ensures AboutRequests(SendRequests(c).effects, c.link.transport)
    ensures SendRequests(c).client == c.(calls := SendRequests(c).client.calls)
  {
    RemakingKeeps(c, c.others.files);
    RemakingIsAboutRequests(c, c.others.files);
    var queue := RemakeRequests(c, c.others.files).client.calls.queue;
    FlushIsAboutRequests(c.link.transport.GetOr(0), queue);
    RejectionIsAboutRequests(c.link.transport, queue);
    hide RemakeRequests, FlushAll, RejectAll;
  }

  /** What a handshake does, in order. */
  lemma HandshakeParts(c: Client, n: Next)
    requires Handshake(c, n)
    ensures var up := EnterConnected(Heard(c));
            && n.effects == [ValidFrame, StatusChanged(Connected)] + Resubscribe(up) + SendRequests(up).effects
                            + ResolveConnect(up.link).effects
            && n.client == up.(calls := SendRequests(up).client.calls, link := ResolveConnect(up.link).link)
  {
    var up := EnterConnected(Heard(c));
    SendingOnly(up);
    hide SendRequests, Resubscribe, EnterConnected, ResolveConnect;
    var resubscribed, sent, resolved := Resubscribe(up), SendRequests(up).effects, ResolveConnect(up.link).effects;
    assert [ValidFrame] + ([StatusChanged(Connected)] + resubscribed + sent + resolved)
        == [ValidFrame, StatusChanged(Connected)] + resubscribed + sent + resolved;
  }

  // ---------------------------------------------------------------------------
  // Every step has a shape
  // ---------------------------------------------------------------------------

  lemma NothingIsQuiet(c: Client, n: Next)
    requires n.effects == [] && n.client.calls == c.calls && n.client.registry == c.registry
    requires QuietLink(c.link, n.client.link) && QuietHeart(c.heart, n.client.heart)
    ensures Quiet(c, n)
  {
    BookedNeutral(c.calls, n);
    hide Booked;
  }

  lemma AttemptShape(c: Client, attempt: Attempt)
    ensures var n := AttemptConnect(c, attempt); Quiet(c, n) || Opening(c, n)
  {
    if !c.link.status.Disposed? && c.link.shouldReconnect && !c.link.status.Connecting? {
      if attempt.Throws? {
        FailAttemptQuiet(c, attempt.badCredential);
        hide FailAttempt, Quiet;
      }
    } else {
      assert QuietEffects(c, AttemptConnect(c, attempt).effects);
      BookedNeutral(c.calls, AttemptConnect(c, attempt));
      hide QuietEffects, Booked;
    }
  }

  lemma ConnectShape(c: Client, attempt: Attempt)
    ensures var n := Connect(c, attempt); Quiet(c, n) || Opening(c, n)
  {
    var wanted := c.(link := c.link.(shouldReconnect := true, connectHandlers := true));
    AttemptShape(wanted, attempt);
    var n := AttemptConnect(wanted, attempt);
    hide AttemptConnect;
    assert QuietEffects(wanted, n.effects) ==> QuietEffects(c, n.effects);
    hide QuietEffects, Booked;
  }

  lemma EnsureConnectedShape(c: Client, attempt: Attempt)
    ensures var n := EnsureConnected(c, attempt); Quiet(c, n) || Opening(c, n)
  {
    var wanted := c.(link := c.link.(shouldReconnect := true));
    ConnectShape(wanted, attempt);
    var n := Connect(wanted, attempt);
    hide Connect;
    assert QuietEffects(wanted, n.effects) ==> QuietEffects(c, n.effects);
    NothingIsQuiet(c, Next(wanted, []));
    hide QuietEffects, Booked;
  }

  lemma ReconnectTimeoutShape(c: Client, attempt: Attempt)
    ensures var n := ReconnectTimeout(c, attempt); Quiet(c, n) || Opening(c, n)
  {
    var fired := c.(link := c.link.(reconnectTimer := false));
    AttemptShape(fired, attempt);
    var n := AttemptConnect(fired, attempt);
    hide AttemptConnect;
    assert QuietEffects(fired, n.effects) ==> QuietEffects(c, n.effects);
    NothingIsQuiet(c, Next(fired, []));
    hide QuietEffects, Booked;
  }

  lemma MessageShape(c: Client, m: SessionMessage)
    ensures var n := HandleMessage(c, m); Quiet(c, n) || (c.link.status.Connecting? && n == BecomeConnected(c))
  {
    hide RefuseAuthentication, BecomeConnected, ResolveWaiters, Quiet;
    NothingIsQuiet(c, Next(c, []));
    match m {
      case ServerInfo(_) => RefuseAuthenticationQuiet(c);
      case Response(_, requestId, _) => ResolveQuiet(c, m, requestId);
      case RpcError(requestId) => ResolveQuiet(c, m, requestId);
      case Other =>
    }
  }

  lemma HeardMessageShape(c: Client, m: SessionMessage, n: Next)
    requires n == Next(HandleMessage(Heard(c), m).client, [ValidFrame] + HandleMessage(Heard(c), m).effects)
    ensures Hearing(c, n) || Handshake(c, n)
  {
    hide HandleMessage, BecomeConnected, Quiet;
    MessageShape(Heard(c), m);
    assert n.effects[1..] == HandleMessage(Heard(c), m).effects;
  }

  lemma FrameShape(c: Client, f: Frame)
    ensures var n := HandleFrame(c, f); Quiet(c, n) || Hearing(c, n) || Handshake(c, n)
  {
    hide HandleMessage, Quiet, Handshake, RejectWaiters;
    var n := HandleFrame(c, f);
    match f {
      case Session(m) => hide Hearing; HeardMessageShape(c, m, n);
      case Binary(Some(requestId)) =>
        hide Hearing;
        HeardMessageShape(c, Response(FILE_RESPONSE, requestId, FILE_PAYLOAD), n);
      case Invalid(Some(requestId)) => RejectQuiet(c, requestId);
      case Invalid(None) => NothingIsQuiet(c, n);
      case _ =>
        assert n.effects[1..] == [];
        NothingIsQuiet(Heard(c), Next(n.client, []));
    }
  }

  lemma TransportLossQuiet(c: Client, e: TransportEvent)
    requires e.Closed? || e.Failed?
    ensures Quiet(c, HandleTransport(c, e))
  {
    var quiet := c.(link := c.link.(connectTimer := false, genericErrorTimer := false));
    ScheduleReconnectQuiet(quiet);
    hide ScheduleReconnect;
    assert QuietCalls(c.calls, c.calls);
    BookedNeutral(c.calls, Next(quiet, []));
    hide QuietCalls, Booked;
  }

  lemma TransportShape(c: Client, e: TransportEvent)
    ensures var n := HandleTransport(c, e); Quiet(c, n) || Hearing(c, n) || Handshake(c, n)
  {
    hide HandleFrame, Hearing, Handshake;
    match e {
      case Message(frame) => hide Quiet; FrameShape(c, frame); NothingIsQuiet(c, Next(c, []));
      case Open =>
        assert QuietCalls(c.calls, c.calls);
        BookedNeutral(c.calls, HandleTransport(c, e));
        hide QuietCalls, Booked;
      case _ => hide Quiet, HandleTransport; TransportLossQuiet(c, e);
    }
  }

  lemma PingTimeoutShape(c: Client)
    ensures var n := PingTimeout(c); Quiet(c, n) || Faltering(c, n) || GivingUp(c, n)
  {
    hide TearDown, Quiet;
    var n := PingTimeout(c);
    if c.heart.probe.None? || !c.heart.probe.value.drivesLiveness {
      NothingIsQuiet(c, n);
    } else if c.heart.failures + 1 >= LIVENESS_FAILURE_RECONNECT_THRESHOLD {
      GivingUpShape(c);
    }
  }

  lemma GivingUpShape(c: Client)
    requires c.heart.probe == Some(Probe(true))
    requires c.heart.failures + 1 >= LIVENESS_FAILURE_RECONNECT_THRESHOLD
    ensures GivingUp(c, PingTimeout(c))
  {
    hide TearDown;
    var quiet := c.(heart := RejectProbe(c.heart).(failures := 0));
    TearDownQuiet(quiet);
    assert PingTimeout(c).effects[2..] == TearDown(quiet).effects;
    hide QuietEffects, QuietCalls, QuietLink;
  }

  lemma ProbeShape(c: Client, e: Event)
    requires e.CallMeasureLatency? || e.OnHeartbeatTimer?
    ensures Quiet(c, Step(c, e)) || Pinging(c, Step(c, e))
  {
    hide Quiet;
    if Step(c, e).effects == [] {
      NothingIsQuiet(c, Step(c, e));
    }
  }

  lemma TimerQuiet(c: Client, e: Event)
    requires e.OnConnectTimer? || e.OnGenericErrorTimer?
    ensures Quiet(c, Step(c, e))
  {
    hide TearDown, ScheduleReconnect;
    if e.OnConnectTimer? {
      TearDownQuiet(c);
    } else {
      ScheduleReconnectQuiet(c.(link := c.link.(genericErrorTimer := false)));
    }
  }

  /** Every step has one of these shapes. */
  lemma StepShape(c: Client, e: Event)
    ensures var n := Step(c, e);
         || Quiet(c, n) || Opening(c, n) || Hearing(c, n) || Handshake(c, n)
         || Pinging(c, n) || Faltering(c, n) || GivingUp(c, n)
         || e.CallRequest? || e.CallSubscribe? || e.CallUnsubscribe?
  {
    hide Quiet, Opening, Hearing, Handshake, Pinging, Faltering, GivingUp;
    match e {
      case CallConnect(attempt) => hide Connect; ConnectShape(c, attempt);
      case CallEnsureConnected(attempt) => hide EnsureConnected; EnsureConnectedShape(c, attempt);
      case OnReconnectTimer(attempt) => hide ReconnectTimeout; ReconnectTimeoutShape(c, attempt);
      case CallClose => hide Close; CloseQuiet(c);
      case CallSetReconnectEnabled(_) => NothingIsQuiet(c, Step(c, e));
      case OtherSubscriptions(_) => NothingIsQuiet(c, Step(c, e));
      case OnTransport(event) => hide HandleTransport; TransportShape(c, event);
      case OnPingTimer => hide PingTimeout; PingTimeoutShape(c);
      case OnWaiterTimer(id) => hide WaiterTimeout; WaiterTimeoutQuiet(c, id);
      case OnQueueTimer(id) => hide QueueTimeout; QueueTimeoutQuiet(c, id);
      case OnConnectTimer => hide Step; TimerQuiet(c, e);
      case OnGenericErrorTimer => hide Step; TimerQuiet(c, e);
      case CallMeasureLatency => hide Step; ProbeShape(c, e);
      case OnHeartbeatTimer => hide Step; ProbeShape(c, e);
      case _ =>
    }
  }
}
