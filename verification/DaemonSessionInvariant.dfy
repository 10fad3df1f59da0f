/** What holds between any two steps of the session, and what a disposed session can still do. */
module DaemonSessionInvariant {
  import opened DaemonSession

  /** A promise is stored that has been answered: every later `connect()` returns it. */
  predicate Stale(link: Link) { link.connectPromise && !link.connectHandlers }

  predicate Settled(status: Status) {
    status.Idle? || status.Disconnected? || status.Disposed?
  }

  /** A connection phase has its transport, and every timer belongs to a phase. */
  predicate LinkInv(link: Link) {
    && (link.status.Connecting? || link.status.Connected? ==> link.transport.Some?)
    && (link.transport.Some? ==> link.transport.value < link.nextTransport)
    && (link.connectTimer ==> link.status.Connecting? && !link.genericErrorTimer)
    && (link.genericErrorTimer ==> link.transport.Some?)
    && (link.status.Disposed? ==> link.transport.None? && !link.reconnectTimer && !link.shouldReconnect)
  }

  /** Without a connection nothing waits for one, and only a connecting client queues. */
  predicate CallsInv(status: Status, calls: Calls) {
    && (Settled(status) ==> calls.waiters == [])
    && (calls.queue != [] ==> status.Connecting?)
  }

  /**
   * The heartbeat never stops while connected: the next tick is armed, or a ping that is bound
   * to settle is awaited. One failure is remembered at most.
   */
  predicate HeartInv(status: Status, heart: Heart) {
    && (Settled(status) ==> heart.probe.None?)
    && (heart.timer ==> status.Connected? || status.Disconnected?)
    && (heart.awaited ==> heart.probe.Some?)
    && (status.Connected? ==> heart.timer || heart.awaited)
    && heart.failures < LIVENESS_FAILURE_RECONNECT_THRESHOLD
  }

  /** The connection invariant. */
  predicate Inv(c: Client) {
    LinkInv(c.link) && CallsInv(c.link.status, c.calls) && HeartInv(c.link.status, c.heart)
  }

  lemma InitialInv(reconnectEnabled: bool)
    ensures Inv(Initial(reconnectEnabled))
  {
  }

  lemma ScheduleReconnectInv(c: Client)
    requires LinkInv(c.link) && !c.link.connectTimer && !c.link.status.Disposed?
    requires c.heart.failures < LIVENESS_FAILURE_RECONNECT_THRESHOLD
    ensures Inv(ScheduleReconnect(c).client) && ScheduleReconnect(c).client.link.status.Disconnected?
  {
  }

  lemma TearDownInv(c: Client)
    requires !c.link.status.Disposed? && c.heart.failures < LIVENESS_FAILURE_RECONNECT_THRESHOLD
    ensures Inv(TearDown(c).client) && TearDown(c).client.link.status.Disconnected?
  {
    DisconnectedLink(DisposeTransport(c).client.link);
  }

  lemma DisconnectedLink(link: Link)
    requires !link.status.Disposed? && link.transport.None? && !link.connectTimer && !link.genericErrorTimer
    ensures LinkInv(LinkDown(link.(reconnectTimer := false)).link)
    ensures LinkDown(link.(reconnectTimer := false)).link.status.Disconnected?
  {
  }

  lemma FailAttemptInv(c: Client, badCredential: bool)
    requires Inv(c) && !c.link.status.Disposed?
    ensures Inv(FailAttempt(c, badCredential).client)
  {
    var link := DisposeTransport(c).client.link;
    DisconnectedLink(if badCredential then RejectConnect(link.(shouldReconnect := false)).link else link);
  }

  lemma AttemptInv(c: Client, attempt: Attempt)
    requires Inv(c)
    ensures Inv(AttemptConnect(c, attempt).client)
  {
    match attempt {
      case Opens(_) => hide FailAttempt;
      case Throws(badCredential) =>
        hide OpenTransport;
        hide FailAttempt;
        if !c.link.status.Disposed? {
          FailAttemptInv(c, badCredential);
        }
    }
  }

  lemma ConnectInv(c: Client, attempt: Attempt)
    requires Inv(c)
    ensures Inv(Connect(c, attempt).client)
  {
    hide AttemptConnect;
    if !c.link.status.Disposed? {
      AttemptInv(c.(link := c.link.(shouldReconnect := true, connectHandlers := true)), attempt);
    }
  }

  lemma EnsureConnectedInv(c: Client, attempt: Attempt)
    requires Inv(c)
    ensures Inv(EnsureConnected(c, attempt).client)
  {
    hide Connect;
    if !c.link.status.Disposed? {
      ConnectInv(c.(link := c.link.(shouldReconnect := true)), attempt);
    }
  }

  lemma {:induction false} RemakingKeeps(c: Client, files: seq<string>)
    ensures var remade := RemakeRequests(c, files).client;
            remade == c.(calls := remade.calls)
    ensures CanSend(c.link) ==> RemakeRequests(c, files).client.calls.queue == c.calls.queue
    decreases files
  {
    if files != [] {
      RemakingKeeps(SendRequest(c, files[0], FILE_SUBSCRIBE_RESPONSE, ANY_PAYLOAD, true).client, files[1..]);
      hide RemakeRequests;
    }
  }

  lemma BecomeConnectedInv(c: Client)
    requires Inv(c) && c.link.status.Connecting?
    ensures Inv(BecomeConnected(c).client)
  {
    RemakingKeeps(EnterConnected(c), c.others.files);
    hide RemakeRequests, FlushAll, RejectAll;
  }

  lemma ServerInfoInv(c: Client, authenticates: bool)
    requires Inv(c) && !c.link.status.Disposed?
    ensures Inv(HandleMessage(c, ServerInfo(authenticates)).client)
  {
    hide TearDown;
    if c.link.credential && !authenticates {
      hide BecomeConnected;
      TearDownInv(c.(link := RejectConnect(c.link.(shouldReconnect := false)).link));
    } else if c.link.status.Connecting? {
      hide BecomeConnected;
      BecomeConnectedInv(c);
    }
  }

  lemma MessageInv(c: Client, m: SessionMessage)
    requires Inv(c) && !c.link.status.Disposed?
    ensures Inv(HandleMessage(c, m).client)
  {
    hide RefuseAuthentication;
    hide BecomeConnected;
    if m.ServerInfo? {
      ServerInfoInv(c, m.authenticates);
    }
  }

  lemma FrameInv(c: Client, f: Frame)
    requires Inv(c) && !c.link.status.Disposed?
    ensures Inv(HandleFrame(c, f).client)
  {
    hide HandleMessage;
    match f {
      case Session(m) => MessageInv(Heard(c), m);
      case Binary(Some(requestId)) => MessageInv(Heard(c), Response(FILE_RESPONSE, requestId, FILE_PAYLOAD));
      case _ =>
    }
  }

  lemma TransportFailureInv(c: Client, e: TransportEvent)
    requires Inv(c) && c.link.transport.Some? && (e.Closed? || e.Failed?)
    ensures Inv(HandleTransport(c, e).client)
  {
    hide HandleFrame;
    hide ScheduleReconnect;
    ScheduleReconnectInv(c.(link := c.link.(connectTimer := false, genericErrorTimer := false)));
  }

  lemma TransportStepInv(c: Client, e: TransportEvent)
    requires Inv(c)
    ensures Inv(HandleTransport(c, e).client)
  {
    hide HandleFrame;
    hide ScheduleReconnect;
    if c.link.transport.Some? {
      match e {
        case Open =>
        case Message(frame) => FrameInv(c, frame); hide Inv;
        case _ => hide HandleTransport; TransportFailureInv(c, e); hide Inv;
      }
    }
  }

  lemma PingTimeoutInv(c: Client)
    requires Inv(c)
    ensures Inv(PingTimeout(c).client)
  {
    hide TearDown;
    if c.heart.probe.Some? {
      TearDownInv(c.(heart := RejectProbe(c.heart).(failures := 0)));
    }
  }

  lemma TimerInv(c: Client, e: Event)
    requires Inv(c) && (e.OnReconnectTimer? || e.OnConnectTimer? || e.OnGenericErrorTimer?)
    ensures Inv(Step(c, e).client)
  {
    hide AttemptConnect;
    hide TearDown;
    hide ScheduleReconnect;
    match e {
      case OnReconnectTimer(attempt) => AttemptInv(c.(link := c.link.(reconnectTimer := false)), attempt);
      case OnConnectTimer =>
        if c.link.status.Connecting? {
          TearDownInv(c);
        }
      case OnGenericErrorTimer =>
        if !Settled(c.link.status) && c.link.genericErrorTimer {
          ScheduleReconnectInv(c.(link := c.link.(genericErrorTimer := false)));
        }
    }
  }

  lemma CallInv(c: Client, e: Event)
    requires Inv(c) && (e.CallRequest? || e.OnWaiterTimer? || e.OnQueueTimer?)
    ensures Inv(Step(c, e).client)
  {
  }

  lemma OtherInv(c: Client, e: Event)
    requires Inv(c)
    requires e.CallClose? || e.CallSetReconnectEnabled? || e.CallSubscribe? || e.CallUnsubscribe?
          || e.CallMeasureLatency? || e.OnHeartbeatTimer? || e.OtherSubscriptions?
    ensures Inv(Step(c, e).client)
  {
  }

  /** Every step keeps the connection invariant. */
  lemma StepInv(c: Client, e: Event)
    requires Inv(c)
    ensures Inv(Step(c, e).client)
  {
    match e {
      case CallConnect(attempt) => hide Inv, Connect; ConnectInv(c, attempt);
      case CallEnsureConnected(attempt) => hide Inv, EnsureConnected; EnsureConnectedInv(c, attempt);
      case OnTransport(event) => hide Inv, HandleTransport; TransportStepInv(c, event);
      case OnPingTimer => hide Inv, PingTimeout; PingTimeoutInv(c);
      case OnReconnectTimer(_) => hide Inv, Step; TimerInv(c, e);
      case OnConnectTimer => hide Inv, Step; TimerInv(c, e);
      case OnGenericErrorTimer => hide Inv, Step; TimerInv(c, e);
      case CallRequest(_, _, _, _) => hide Inv, Step; CallInv(c, e);
      case OnWaiterTimer(_) => hide Inv, Step; CallInv(c, e);
      case OnQueueTimer(_) => hide Inv, Step; CallInv(c, e);
      case _ => hide Inv, Step; OtherInv(c, e);
    }
  }

  lemma {:induction false} RunInv(c: Client, events: seq<Event>)
    requires Inv(c)
    ensures Inv(Run(c, events).client)
  {
    hide Inv, Step;
    if events != [] {
      RunInv(c, events[..|events| - 1]);
      StepInv(Run(c, events[..|events| - 1]).client, events[|events| - 1]);
    }
  }

  /** The connection invariant over every run. */
  lemma EveryRunInv(reconnectEnabled: bool, events: seq<Event>)
    ensures Inv(Run(Initial(reconnectEnabled), events).client)
  {
    InitialInv(reconnectEnabled);
    RunInv(Initial(reconnectEnabled), events);
  }

  // ---------------------------------------------------------------------------
  // Failing to start
  // ---------------------------------------------------------------------------

  predicate OnlyConnects(events: seq<Event>) {
    forall i :: 0 <= i < |events| ==> events[i].CallConnect? || events[i].CallEnsureConnected?
  }

  lemma ConnectStaysDown(c: Client, e: Event)
    requires c.link.status.Disconnected? && c.link.connectPromise && (e.CallConnect? || e.CallEnsureConnected?)
    ensures Step(c, e).effects == []
    ensures Step(c, e).client.link.status.Disconnected? && Step(c, e).client.link.connectPromise
  {
  }

  /** A client that fails to start and plans no retry keeps its failed promise and stays down. */
  lemma {:induction false} StaysDown(c: Client, events: seq<Event>)
    requires c.link.status.Disconnected? && c.link.connectPromise && OnlyConnects(events)
    ensures Run(c, events).effects == []
    ensures Run(c, events).client.link.status.Disconnected? && Run(c, events).client.link.connectPromise
  {
    hide Step;
    if events != [] {
      StaysDown(c, events[..|events| - 1]);
      ConnectStaysDown(Run(c, events[..|events| - 1]).client, events[|events| - 1]);
    }
  }

  /**
   * A `connect()` whose attempt throws leaves a retry armed exactly when retries are enabled and
   * the credential was not at fault. Otherwise no later `connect()` or `ensureConnected()` ever
   * tries again: each returns the promise stored after the failure, whatever its transport would do.
   */
  lemma FailedStart(c: Client, badCredential: bool, later: seq<Event>)
    requires Inv(c) && Settled(c.link.status) && !c.link.status.Disposed? && !c.link.connectPromise
    requires OnlyConnects(later)
    ensures var failed := Connect(c, Throws(badCredential)).client;
            && failed.link.status.Disconnected?
            && (failed.link.reconnectTimer <==> c.link.reconnectEnabled && !badCredential)
            && Run(failed, later).effects == []
            && Run(failed, later).client.link.status.Disconnected?
  {
    var failed := Connect(c, Throws(badCredential)).client;
    StaysDown(failed, later);
  }

  // ---------------------------------------------------------------------------
  // Disposal
  // ---------------------------------------------------------------------------

  predicate TouchesNothing(e: Effect) {
    !e.Sent? && !e.StatusChanged? && !e.TransportOpened? && !e.TransportClosed?
  }

  lemma DisposedStep(c: Client, e: Event)
    requires Inv(c) && c.link.status.Disposed?
    ensures Step(c, e).client.link.status.Disposed?
    ensures forall i :: 0 <= i < |Step(c, e).effects| ==> TouchesNothing(Step(c, e).effects[i])
  {
  }

  /** Disposal is final: whatever is called or fires afterwards, nothing is opened, sent or reported. */
  lemma {:induction false} DisposedIsFinal(c: Client, events: seq<Event>)
    requires Inv(c) && c.link.status.Disposed?
    ensures Run(c, events).client.link.status.Disposed?
    ensures forall i :: 0 <= i < |Run(c, events).effects| ==> TouchesNothing(Run(c, events).effects[i])
  {
    hide Inv, Step;
    if events != [] {
      var before := events[..|events| - 1];
      DisposedIsFinal(c, before);
      RunInv(c, before);
      DisposedStep(Run(c, before).client, events[|events| - 1]);
    }
  }
}
