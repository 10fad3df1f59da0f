/**
 * Reactions: what each call, frame and timer is bound to do, said outright. Together with the
 * reasons of effects this says when something happens and when it does not.
 */
module DaemonSessionReactions {
  import opened Wrappers
  import opened Sequences
  import opened DaemonSession
  import opened DaemonSessionInvariant
  import opened DaemonSessionLedger
  import opened DaemonSessionShapes
  import opened DaemonSessionConservation

  // ---------------------------------------------------------------------------
  // Requests
  // ---------------------------------------------------------------------------

  /** A request is sent at once when connected, queued while connecting, and refused otherwise. */
  lemma RequestIsTaken(c: Client, requestId: string, responseType: string, accepts: int -> bool, timed: bool)
    requires Inv(c)
    ensures var n := Step(c, CallRequest(requestId, responseType, accepts, timed));
            var id := c.calls.nextId;
            var waiter := Waiter(id, requestId, responseType, accepts, timed);
            && n.client == c.(calls := n.client.calls) && n.client.calls.nextId == id + 1
            && match c.link.status
               case Connected =>
                 && n.effects == [RequestMade(id, requestId), Sent(c.link.transport.value, Request(id)),
                                  SendSettled(id, SendOk)]
                 && n.client.calls.waiters == c.calls.waiters + [waiter] && n.client.calls.queue == c.calls.queue
               case Connecting =>
                 && n.effects == [RequestMade(id, requestId)]
                 && n.client.calls.waiters == c.calls.waiters + [waiter]
                 && n.client.calls.queue == c.calls.queue + [PendingSend(id)]
               case _ =>
                 && n.effects == [RequestMade(id, requestId), SendSettled(id, SendRejected),
                                  WaiterSettled(id, requestId, ByCancel)]
                 && n.client.calls.waiters == c.calls.waiters && n.client.calls.queue == c.calls.queue
  {
  }

  function WithId(id: nat): Waiter -> bool { (w: Waiter) => w.id == id }

  function SendOf(id: nat): PendingSend -> bool { (p: PendingSend) => p.id == id }

  lemma {:induction false} RemovalIsFilter(ws: seq<Waiter>, id: nat)
    requires DistinctIds(ws)
    ensures RemoveWaiter(ws, id) == FilterOut(WithId(id), ws)
    decreases ws
  {
    if ws != [] {
      assert DistinctIds(ws[1..]) by {
        assert forall i :: 0 <= i < |ws[1..]| ==> ws[1..][i] == ws[i + 1];
      }
      RemovalIsFilter(ws[1..], id);
      if ws[0].id == id {
        NobodyFiltered(ws[1..], id);
      }
    }
  }

  lemma {:induction false} NobodyFiltered(ws: seq<Waiter>, id: nat)
    requires forall w :: w in ws ==> w.id != id
    ensures FilterOut(WithId(id), ws) == ws && FindWaiter(ws, id) == None
    decreases ws
  {
    if ws != [] {
      assert ws[0] in ws && forall w :: w in ws[1..] ==> w in ws;
      NobodyFiltered(ws[1..], id);
    }
  }

  lemma {:induction false} FoundWaiter(ws: seq<Waiter>, w: Waiter)
    requires DistinctIds(ws) && w in ws
    ensures FindWaiter(ws, w.id) == Some(w)
    decreases ws
  {
    if ws[0].id == w.id {
      var k :| 0 <= k < |ws| && ws[k] == w;
      assert k == 0;
    } else {
      assert DistinctIds(ws[1..]) by {
        assert forall i :: 0 <= i < |ws[1..]| ==> ws[1..][i] == ws[i + 1];
      }
      FoundWaiter(ws[1..], w);
    }
  }

  /** Looking a waiter up by its id. */
  lemma LookedUp(ws: seq<Waiter>, id: nat)
    requires DistinctIds(ws)
    ensures forall w :: w in ws && w.id == id ==> FindWaiter(ws, id) == Some(w)
    ensures FindWaiter(ws, id).None? ==> (forall w :: w in ws ==> w.id != id) && FilterOut(WithId(id), ws) == ws
    ensures RemoveWaiter(ws, id) == FilterOut(WithId(id), ws)
  {
    hide FilterOut, RemoveWaiter, FindWaiter, DistinctIds;
    RemovalIsFilter(ws, id);
    forall w | w in ws && w.id == id ensures FindWaiter(ws, id) == Some(w) {
      FoundWaiter(ws, w);
    }
    if FindWaiter(ws, id).None? {
      NobodyFiltered(ws, id);
    }
  }

  /** The timer of a waiter that has one settles it, if it still waits, and does nothing else. */
  lemma WaiterTimesOut(c: Client, id: nat)
    requires DistinctIds(c.calls.waiters)
    ensures var n := Step(c, OnWaiterTimer(id));
            && (forall w :: w in c.calls.waiters && w.id == id && w.timed ==>
                  && n.effects == [WaiterSettled(id, w.requestId, ByTimeout)]
                  && n.client == c.(calls := c.calls.(waiters := FilterOut(WithId(id), c.calls.waiters))))
            && ((forall w :: w in c.calls.waiters && w.id == id ==> !w.timed) ==> n == Next(c, []))
  {
    hide FilterOut, RemoveWaiter, FindWaiter, DistinctIds;
    LookedUp(c.calls.waiters, id);
  }

  /** No request is queued twice. */
  predicate DistinctSends(queue: seq<PendingSend>) {
    forall i, j :: 0 <= i < j < |queue| ==> queue[i].id != queue[j].id
  }

  lemma {:induction false} SendRemovalIsFilter(queue: seq<PendingSend>, id: nat)
    requires DistinctSends(queue)
    ensures RemoveSend(queue, id) == FilterOut(SendOf(id), queue)
    decreases queue
  {
    if queue != [] {
      assert DistinctSends(queue[1..]) by {
        assert forall i :: 0 <= i < |queue[1..]| ==> queue[1..][i] == queue[i + 1];
      }
      SendRemovalIsFilter(queue[1..], id);
      if queue[0].id == id {
        NoSendFiltered(queue[1..], id);
      }
    }
  }

  lemma {:induction false} NoSendFiltered(queue: seq<PendingSend>, id: nat)
    requires forall p :: p in queue ==> p.id != id
    ensures FilterOut(SendOf(id), queue) == queue
    decreases queue
  {
    if queue != [] {
      assert queue[0] in queue && forall p :: p in queue[1..] ==> p in queue;
      NoSendFiltered(queue[1..], id);
    }
  }

  /** The timer of a queued send drops and rejects it, and its waiter with it. */
  lemma QueuedSendTimesOut(c: Client, id: nat)
    requires DistinctIds(c.calls.waiters) && DistinctSends(c.calls.queue)
    ensures var n := Step(c, OnQueueTimer(id));
            && (PendingSend(id) !in c.calls.queue ==> n == Next(c, []))
            && (PendingSend(id) in c.calls.queue ==>
                  && n.client == c.(calls := c.calls.(queue := FilterOut(SendOf(id), c.calls.queue),
                                                      waiters := FilterOut(WithId(id), c.calls.waiters)))
                  && (forall w :: w in c.calls.waiters && w.id == id ==>
                        n.effects == [SendSettled(id, SendTimedOut), WaiterSettled(id, w.requestId, ByCancel)])
                  && ((forall w :: w in c.calls.waiters ==> w.id != id) ==>
                        n.effects == [SendSettled(id, SendTimedOut)]))
  {
    var called := ExpireSend(c.calls, id);
    assert Step(c, OnQueueTimer(id)) == Next(c.(calls := called.calls), called.effects);
    hide Step, FilterOut, RemoveWaiter, RemoveSend, FindWaiter, DistinctIds, DistinctSends;
    LookedUp(c.calls.waiters, id);
    SendRemovalIsFilter(c.calls.queue, id);
  }

  lemma {:induction false} QueuedTwice(queue: seq<PendingSend>, i: nat, j: nat)
    requires i < j < |queue|
    ensures Queued(queue, queue[j].id) >= 1
    ensures queue[i].id == queue[j].id ==> Queued(queue, queue[i].id) >= 2
    decreases queue
  {
    if i > 0 {
      QueuedTwice(queue[1..], i - 1, j - 1);
    } else if j > 1 {
      QueuedTwice(queue[1..], 0, j - 1);
    }
  }

  /** Every run keeps the queued requests apart. */
  lemma RunSends(enabled: bool, events: seq<Event>)
    ensures DistinctSends(Run(Initial(enabled), events).client.calls.queue)
  {
    hide Run;
    var queue := Run(Initial(enabled), events).client.calls.queue;
    forall i, j | 0 <= i < j < |queue| ensures queue[i].id != queue[j].id {
      RequestsAreConserved(enabled, events, queue[i].id);
      QueuedTwice(queue, i, j);
    }
  }

  // ---------------------------------------------------------------------------
  // Pings
  // ---------------------------------------------------------------------------

  /**
   * A due heartbeat pings, or joins the ping in flight, and waits for it; measuring the latency
   * pings unless a ping is in flight. Each ping is marked with who started it.
   */
  lemma PingStarts(c: Client)
    requires c.link.status.Connected? && c.link.transport.Some?
    ensures var beat := Step(c, OnHeartbeatTimer);
            if !c.heart.timer then beat == Next(c, [])
            else
              && beat.client == c.(heart := c.heart.(
                   timer := false, awaited := true,
                   probe := if c.heart.probe.Some? then c.heart.probe else Some(Probe(true))))
              && beat.effects == if c.heart.probe.Some? then []
                                 else [ProbeStarted(true), Sent(c.link.transport.value, Ping)]
    ensures var measured := Step(c, CallMeasureLatency);
            if c.heart.probe.Some? then measured == Next(c, [])
            else
              && measured.client == c.(heart := c.heart.(probe := Some(Probe(false))))
              && measured.effects == [ProbeStarted(false), Sent(c.link.transport.value, Ping)]
  {
  }

  /** Nothing is pinged unless connected. */
  lemma NoPingUnlessConnected(c: Client)
    requires !c.link.status.Connected?
    ensures Step(c, CallMeasureLatency) == Next(c, [])
    ensures Step(c, OnHeartbeatTimer).effects == []
  {
  }

  /** A pong settles the ping, clears the count, and sets the next heartbeat if one awaited it. */
  lemma PongSettlesPing(c: Client)
    requires Inv(c) && c.link.transport.Some?
    ensures var heart := c.heart;
            Step(c, OnTransport(Message(Pong)))
            == Next(c.(heart := Heart(None, false, 0, heart.timer || (heart.awaited && c.link.status.Connected?))),
                    [ValidFrame])
  {
  }

  /** Any valid frame clears the count first of all, and an invalid one does not touch it. */
  lemma ValidFrameClearsCount(c: Client, f: Frame)
    requires c.link.transport.Some?
    ensures var n := Step(c, OnTransport(Message(f)));
            if f.Invalid? then n.client.heart == c.heart && ValidFrame !in n.effects
            else |n.effects| > 0 && n.effects[0] == ValidFrame && n.client.heart.failures == 0
  {
    hide TearDown, SendRequests, ResolveWaiters, Resubscribe;
    match f {
      case Session(ServerInfo(_)) =>
        SendingOnly(EnterConnected(Heard(c)));
        TearDownKeepsCount(Heard(c).(link := RejectConnect(c.link.(shouldReconnect := false)).link));
      case Invalid(Some(requestId)) =>
        SettlingHearsNothing(OfRequest(c.calls.waiters, requestId), ByInvalidMessage(requestId));
      case _ =>
    }
    hide SettleAll;
  }

  lemma {:induction false} SettlingHearsNothing(ws: seq<Waiter>, how: Settlement)
    ensures ValidFrame !in SettleAll(ws, how)
    decreases ws
  {
    if ws != [] {
      SettlingHearsNothing(ws[1..], how);
    }
  }

  lemma TearDownKeepsCount(c: Client)
    ensures TearDown(c).client.heart.failures == c.heart.failures
  {
  }

  // ---------------------------------------------------------------------------
  // Losses
  // ---------------------------------------------------------------------------

  /** Nobody is left waiting: every waiter and queued send is settled, and no ping is in flight. */
  ghost predicate SettlesAll(c: Client, n: Next) {
    && n.client.calls == c.calls.(waiters := [], queue := [])
    && n.client.heart.probe.None? && !n.client.heart.awaited
    && (forall w :: w in c.calls.waiters ==> WaiterSettled(w.id, w.requestId, ByConnectionLoss) in n.effects)
    && (forall p :: p in c.calls.queue ==> SendSettled(p.id, SendRejected) in n.effects)
  }

  /** The connection is lost: everything is settled, and the client is disconnected. */
  ghost predicate IsLost(c: Client, n: Next) {
    SettlesAll(c, n) && n.client.link.status.Disconnected? && n.client.registry == c.registry
  }

  lemma {:induction false} EverySettled(ws: seq<Waiter>, how: Settlement)
    ensures forall w :: w in ws ==> WaiterSettled(w.id, w.requestId, how) in SettleAll(ws, how)
    decreases ws
  {
    if ws != [] {
      assert ws == [ws[0]] + ws[1..];
      EverySettled(ws[1..], how);
    }
  }

  lemma {:induction false} EveryRejected(queue: seq<PendingSend>)
    ensures forall p :: p in queue ==> SendSettled(p.id, SendRejected) in RejectAll(queue)
    decreases queue
  {
    if queue != [] {
      assert queue == [queue[0]] + queue[1..];
      EveryRejected(queue[1..]);
    }
  }

  lemma ScheduleIsLoss(c: Client)
    requires !c.link.status.Disposed?
    ensures IsLost(c, ScheduleReconnect(c)) && ScheduleReconnect(c).client.link.transport == c.link.transport
  {
    EverySettled(c.calls.waiters, ByConnectionLoss);
    EveryRejected(c.calls.queue);
    hide SettleAll, RejectAll;
  }

  lemma TearDownIsLoss(c: Client)
    requires !c.link.status.Disposed?
    ensures IsLost(c, TearDown(c)) && TearDown(c).client.link.transport.None?
    ensures c.link.transport.Some? ==> TransportClosed(c.link.transport.value) in TearDown(c).effects
  {
    hide ScheduleReconnect;
    ScheduleIsLoss(DisposeTransport(c).client);
  }

  /** The end of the transport, and an error that tells what went wrong, lose the connection at once. */
  lemma TransportEndLoses(c: Client)
    requires Inv(c) && c.link.transport.Some?
    ensures IsLost(c, Step(c, OnTransport(Closed))) && IsLost(c, Step(c, OnTransport(Failed(false))))
  {
    hide ScheduleReconnect;
    ScheduleIsLoss(c.(link := c.link.(connectTimer := false, genericErrorTimer := false)));
  }

  /** An error without details sets a timer, and loses nothing yet. */
  lemma GenericErrorWaits(c: Client)
    requires c.link.transport.Some?
    ensures Step(c, OnTransport(Failed(true)))
         == Next(c.(link := c.link.(connectTimer := false, genericErrorTimer := true)), [])
  {
  }

  /** When that timer, or the one of the attempt, runs out before the connection is up or down, it is lost. */
  lemma TimersLose(c: Client)
    requires Inv(c)
    ensures c.link.genericErrorTimer && (c.link.status.Connected? || c.link.status.Connecting?) ==>
              IsLost(c, Step(c, OnGenericErrorTimer))
    ensures c.link.connectTimer ==>
              && IsLost(c, Step(c, OnConnectTimer)) && Step(c, OnConnectTimer).client.link.transport.None?
              && TransportClosed(c.link.transport.value) in Step(c, OnConnectTimer).effects
    ensures !c.link.connectTimer ==> Step(c, OnConnectTimer) == Next(c, [])
  {
    hide ScheduleReconnect, TearDown, IsLost;
    if c.link.genericErrorTimer && (c.link.status.Connected? || c.link.status.Connecting?) {
      LossAfterTimer(c);
    }
    if c.link.connectTimer {
      TearDownIsLoss(c);
    }
  }

  lemma LossAfterTimer(c: Client)
    requires !c.link.status.Disposed?
    ensures IsLost(c, ScheduleReconnect(c.(link := c.link.(genericErrorTimer := false))))
  {
    hide ScheduleReconnect;
    ScheduleIsLoss(c.(link := c.link.(genericErrorTimer := false)));
  }

  /**
   * A ping that runs out is gone. A heartbeat's is counted; with one failure counted before, it
   * closes the transport, loses the connection and clears the count.
   */
  lemma PingTimesOut(c: Client)
    requires Inv(c) && c.heart.probe.Some?
    ensures var n := Step(c, OnPingTimer);
            && n.client.heart.probe.None?
            && (c.heart.probe == Some(Probe(false)) ==> n.effects == [] && n.client.heart.failures == c.heart.failures)
            && (c.heart.probe == Some(Probe(true)) && c.heart.failures == 0 ==>
                  && n.effects == [HeartbeatFailed] && n.client.heart.failures == 1
                  && n.client.link == c.link && n.client.calls == c.calls)
            && (c.heart.probe == Some(Probe(true)) && c.heart.failures == 1 ==>
                  && |n.effects| > 1 && n.effects[0] == HeartbeatFailed && n.effects[1] == LivenessTeardown
                  && IsLost(c, n) && n.client.heart.failures == 0 && n.client.link.transport.None?)
            && c.heart.failures <= 1
  {
    hide TearDown;
    if !c.link.status.Disposed? {
      var quiet := c.(heart := RejectProbe(c.heart).(failures := 0));
      TearDownIsLoss(quiet);
      TearDownKeepsCount(quiet);
    }
  }

  // ---------------------------------------------------------------------------
  // Connecting and closing
  // ---------------------------------------------------------------------------

  /** Opening the transport sends the greeting on it, and stops the timer an error had set. */
  lemma OpeningGreets(c: Client)
    requires c.link.transport.Some?
    ensures Step(c, OnTransport(Open))
         == Next(c.(link := c.link.(genericErrorTimer := false)), [Sent(c.link.transport.value, Hello)])
  {
  }

  /**
   * The greeting of a daemon that can check the credential, if there is one, connects a connecting
   * client: its caller, if one waits, is told so; the attempts are forgotten and the heartbeat set.
   */
  lemma GreetingConnects(c: Client, authenticates: bool)
    requires Inv(c) && c.link.status.Connecting? && (c.link.credential ==> authenticates)
    ensures var n := Step(c, OnTransport(Message(Session(ServerInfo(authenticates)))));
            && n.client.link == c.link.(status := Connected, connectTimer := false, reconnectAttempt := 0,
                                        connectPromise := false, connectHandlers := false)
            && n.client.heart == c.heart.(failures := 0, timer := true)
            && (ConnectResolved in n.effects <==> c.link.connectHandlers)
  {
    var up := EnterConnected(Heard(c));
    SendingOnly(up);
    ResubscribingOnly(up);
    hide SendRequests, Resubscribe;
  }

  /** To any other client it is just a sign of life. */
  lemma GreetingAgain(c: Client, authenticates: bool)
    requires !c.link.status.Connecting? && c.link.transport.Some? && (c.link.credential ==> authenticates)
    ensures Step(c, OnTransport(Message(Session(ServerInfo(authenticates))))) == Next(Heard(c), [ValidFrame])
  {
  }

  /** A daemon that cannot check the credential is left for good, and whoever waits is told so. */
  lemma UncheckedCredentialEndsIt(c: Client)
    requires Inv(c) && c.link.transport.Some? && c.link.credential
    ensures var n := Step(c, OnTransport(Message(Session(ServerInfo(false)))));
            && IsLost(c, n) && n.client.link.transport.None? && !n.client.link.shouldReconnect
            && !n.client.link.reconnectTimer && !n.client.link.connectHandlers
            && (c.link.connectHandlers ==> ConnectRejected in n.effects)
  {
    var refused := Heard(c).(link := RejectConnect(c.link.(shouldReconnect := false)).link);
    hide TearDown;
    TearDownIsLoss(refused);
    TearDownUnwanted(refused);
    RefusalAnswers(Heard(c));
  }

  lemma RefusalAnswers(c: Client)
    ensures c.link.connectHandlers ==> ConnectRejected in RefuseAuthentication(c).effects
  {
    hide TearDown;
  }

  lemma TearDownUnwanted(c: Client)
    requires !c.link.status.Disposed? && !c.link.shouldReconnect
    ensures var link := TearDown(c).client.link;
            !link.shouldReconnect && !link.reconnectTimer && !link.connectHandlers
  {
  }

  /** Closing settles everything, closes the transport, stops every timer and is final. */
  lemma ClosingDisposes(c: Client)
    requires !c.link.status.Disposed?
    ensures var n := Step(c, CallClose);
            && SettlesAll(c, n) && n.client.others == c.others.(files := []) && n.client.registry == c.registry
            && n.client.link == c.link.(status := Disposed, transport := None, shouldReconnect := false,
                                        connectPromise := false, connectHandlers := false, reconnectTimer := false,
                                        connectTimer := false, genericErrorTimer := false)
            && !n.client.heart.timer
            && (c.link.transport.Some? ==> TransportClosed(c.link.transport.value) in n.effects)
  {
    EverySettled(c.calls.waiters, ByConnectionLoss);
    EveryRejected(c.calls.queue);
    hide SettleAll, RejectAll;
  }

  /** A connection attempt that can open a transport: it is the next one, with this credential, and timed. */
  ghost predicate Dials(c: Client, n: Next, credential: bool) {
    var link := n.client.link;
    && link.status.Connecting? && link.transport == Some(c.link.nextTransport) && link.credential == credential
    && link.connectTimer && !link.genericErrorTimer && link.shouldReconnect
    && TransportOpened(c.link.nextTransport) in n.effects
    && (c.link.transport.Some? ==> TransportClosed(c.link.transport.value) in n.effects)
    && n.client.calls == c.calls && n.client.registry == c.registry && !n.client.heart.timer
  }

  /** `connect()` dials from idle and disconnected, unless a promise is stored, and joins the attempt under way. */
  lemma ConnectDials(c: Client, credential: bool)
    requires Inv(c)
    ensures var n := Step(c, CallConnect(Opens(credential)));
            if c.link.status.Disposed? || c.link.status.Connected? || c.link.connectPromise then n == Next(c, [])
            else if c.link.status.Connecting? then
              n == Next(c.(link := c.link.(shouldReconnect := true, connectHandlers := true, connectPromise := true)),
                        [])
            else Dials(c, n, credential) && n.client.link.connectHandlers && n.client.link.connectPromise
  {
  }

  /** `ensureConnected()` wishes for a connection whatever the status, and dials as `connect()` does. */
  lemma EnsureDials(c: Client, credential: bool)
    requires Inv(c)
    ensures var n := Step(c, CallEnsureConnected(Opens(credential)));
            if c.link.status.Disposed? then n == Next(c, [])
            else if c.link.status.Connected? || c.link.status.Connecting? || c.link.connectPromise then
              n == Next(c.(link := c.link.(shouldReconnect := true)), [])
            else Dials(c, n, credential) && n.client.link.connectHandlers && n.client.link.connectPromise
  {
  }

  /** The retry timer, if armed and still wanted, dials; while connecting it does nothing. */
  lemma RetryDials(c: Client, credential: bool)
    requires Inv(c)
    ensures var n := Step(c, OnReconnectTimer(Opens(credential)));
            if c.link.reconnectTimer && c.link.shouldReconnect && !c.link.status.Connecting?
            then Dials(c, n, credential)
            else n == Next(c.(link := c.link.(reconnectTimer := false)), [])
  {
  }
}
