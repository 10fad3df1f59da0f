/**
 * Retries. Whether a disconnected client has a retry armed was decided when it last reported the
 * loss: by whether it wanted a connection and retries were enabled then. Nothing it does later
 * arms one, but whoever waits in `connect()` at a disconnected client always has one coming.
 */
module DaemonSessionRetry {
  import opened DaemonSession
  import opened DaemonSessionInvariant
  import opened DaemonSessionExamples
  import opened DaemonSessionShapes

  const LOSS: Effect := StatusChanged(Disconnected)

  /** Whoever waits in `connect()` does so at a client that wants a connection. */
  predicate Wanted(link: Link) { link.connectHandlers ==> link.shouldReconnect }

  /** What decides, at a loss, about the next attempt. */
  predicate WouldRetry(link: Link) { link.shouldReconnect && link.reconnectEnabled }

  /** A retry is armed only for a client that wants it, and for everyone who waits disconnected. */
  predicate Ready(link: Link) {
    && Wanted(link)
    && (link.reconnectTimer ==> link.shouldReconnect)
    && (link.status.Disconnected? && link.connectHandlers ==> link.reconnectTimer)
  }

  /** The attempts are forgotten by the handshake, and one more is counted for each retry armed. */
  predicate Counts(before: Link, n: Next) {
    n.client.link.reconnectAttempt
    == if !before.status.Connected? && n.client.link.status.Connected? then 0
       else before.reconnectAttempt + if LOSS in n.effects && n.client.link.reconnectTimer then 1 else 0
  }

  /** If this left the client disconnected, it reported the loss and decided about the next attempt. */
  predicate Loses(before: Link, n: Next) {
    && Ready(n.client.link) && Counts(before, n)
    && (n.client.link.status.Disconnected? ==>
          LOSS in n.effects && n.client.link.reconnectTimer == WouldRetry(n.client.link))
  }

  /** The client was disconnected and still is, with the same retry; the wish came back only behind a promise. */
  predicate Stays(before: Link, after: Link) {
    && before.status.Disconnected? && after.reconnectTimer == before.reconnectTimer
    && (before.connectPromise ==> after.connectPromise)
    && (after.shouldReconnect && !before.shouldReconnect ==> after.connectPromise)
  }

  /** What a step does to the retry of a client it leaves disconnected. */
  predicate Decides(before: Link, n: Next) {
    && Ready(n.client.link) && Counts(before, n)
    && (n.client.link.status.Disconnected? ==>
          if LOSS in n.effects then n.client.link.reconnectTimer == WouldRetry(n.client.link)
          else Stays(before, n.client.link))
  }

  // ---------------------------------------------------------------------------
  // Losses
  // ---------------------------------------------------------------------------

  lemma DownLoses(c: Client, link: Link, pre: seq<Effect>)
    requires Wanted(link) && !link.reconnectTimer && LOSS !in pre
    ensures Loses(link, Next(c.(link := LinkDown(link).link), pre + LinkDown(link).effects))
  {
  }

  lemma {:induction false} SettlingIsNoLoss(ws: seq<Waiter>, how: Settlement)
    ensures LOSS !in SettleAll(ws, how)
    decreases ws
  {
    if ws != [] {
      SettlingIsNoLoss(ws[1..], how);
    }
  }

  lemma {:induction false} RejectingIsNoLoss(queue: seq<PendingSend>)
    ensures LOSS !in RejectAll(queue)
    decreases queue
  {
    if queue != [] {
      RejectingIsNoLoss(queue[1..]);
    }
  }

  lemma DroppingIsNoLoss(calls: Calls)
    ensures LOSS !in DropCalls(calls).effects
  {
    SettlingIsNoLoss(calls.waiters, ByConnectionLoss);
    RejectingIsNoLoss(calls.queue);
  }

  lemma ScheduleLoses(c: Client)
    requires Wanted(c.link)
    ensures Loses(c.link, ScheduleReconnect(c))
  {
    DroppingIsNoLoss(c.calls);
    hide LinkDown, DropCalls;
    DownLoses(c, c.link.(reconnectTimer := false), DropCalls(c.calls).effects);
  }

  lemma TearDownLoses(c: Client)
    requires Wanted(c.link)
    ensures Loses(c.link, TearDown(c))
  {
    hide ScheduleReconnect;
    ScheduleLoses(DisposeTransport(c).client);
  }

  lemma FailLoses(c: Client, badCredential: bool)
    requires Wanted(c.link)
    ensures var n := FailAttempt(c, badCredential); Loses(c.link, n) && Ready(n.client.link.(connectPromise := true))
  {
    hide ScheduleReconnect;
    var link := DisposeTransport(c).client.link;
    var refused := if badCredential then RejectConnect(link.(shouldReconnect := false)) else Linked(link, []);
    ScheduleLoses(DisposeTransport(c).client.(link := refused.link));
  }

  lemma AttemptLoses(c: Client, attempt: Attempt)
    requires Inv(c) && c.link.shouldReconnect
    ensures var n := AttemptConnect(c, attempt);
            Loses(c.link, n) || (c.link.status.Connecting? && n == Next(c, []))
  {
    hide FailAttempt;
    if attempt.Throws? {
      FailLoses(c, attempt.badCredential);
    }
  }

  // ---------------------------------------------------------------------------
  // Steps
  // ---------------------------------------------------------------------------

  lemma ConnectDecides(c: Client, attempt: Attempt)
    requires Inv(c) && Ready(c.link)
    ensures Decides(c.link, Connect(c, attempt))
  {
    hide AttemptConnect;
    if !c.link.status.Disposed? {
      AttemptLoses(c.(link := c.link.(shouldReconnect := true, connectHandlers := true)), attempt);
    }
    hide Inv;
  }

  lemma EnsureDecides(c: Client, attempt: Attempt)
    requires Inv(c) && Ready(c.link)
    ensures Decides(c.link, EnsureConnected(c, attempt))
  {
    var link := c.link;
    if link.status.Disposed? || link.status.Connected? || link.status.Connecting? || link.connectPromise {
      assert EnsureConnected(c, attempt)
          == Next(if link.status.Disposed? then c else c.(link := link.(shouldReconnect := true)), []);
      hide EnsureConnected, Inv;
    } else {
      hide Decides, EnsureConnected, Connect, Inv;
      EnsureIsConnect(c, attempt);
      DialDecides(c, attempt);
    }
  }

  lemma EnsureIsConnect(c: Client, attempt: Attempt)
    requires !c.link.status.Disposed? && !c.link.status.Connected? && !c.link.status.Connecting?
    ensures EnsureConnected(c, attempt) == Connect(c.(link := c.link.(shouldReconnect := true)), attempt)
  {
    hide AttemptConnect;
  }

  lemma DialDecides(c: Client, attempt: Attempt)
    requires Inv(c) && !c.link.status.Disposed? && !c.link.status.Connected? && !c.link.status.Connecting?
    requires !c.link.connectPromise
    ensures Decides(c.link, Connect(c.(link := c.link.(shouldReconnect := true)), attempt))
  {
    var dialling := c.(link := c.link.(shouldReconnect := true, connectHandlers := true));
    var n := AttemptConnect(dialling, attempt);
    hide AttemptConnect, Loses, Decides;
    AttemptLoses(dialling, attempt);
    hide Inv;
    StoredDecides(c.link, dialling.link, n);
  }

  /** Storing the promise afterwards decides nothing. */
  lemma StoredDecides(before: Link, dialling: Link, n: Next)
    requires Loses(dialling, n)
    requires before.status == dialling.status && before.reconnectAttempt == dialling.reconnectAttempt
    ensures Decides(before, Next(n.client.(link := n.client.link.(connectPromise := true)), n.effects))
  {
  }

  lemma RefuseLoses(c: Client)
    ensures Loses(c.link, RefuseAuthentication(c))
  {
    hide TearDown;
    TearDownLoses(c.(link := RejectConnect(c.link.(shouldReconnect := false)).link));
  }

  lemma BecomeLoses(c: Client)
    requires c.link.status.Connecting? && Ready(c.link)
    ensures Loses(c.link, BecomeConnected(c))
  {
    hide SendRequests, Resubscribe;
    SendingOnly(EnterConnected(c));
    ResubscribingOnly(EnterConnected(c));
  }

  lemma MessageDecides(c: Client, m: SessionMessage)
    requires Inv(c) && Ready(c.link)
    ensures var n := HandleMessage(c, m);
            Loses(c.link, n) || (n.client.link == c.link && LOSS !in n.effects)
  {
    hide RefuseAuthentication, BecomeConnected, SettleAll, Inv;
    match m {
      case ServerInfo(authenticates) =>
        RefuseLoses(c);
        if c.link.status.Connecting? {
          BecomeLoses(c);
        }
      case Response(_, requestId, _) => SettlingIsNoLoss(Selected(c.calls.waiters, m), ByMessage(requestId));
      case RpcError(requestId) => SettlingIsNoLoss(Selected(c.calls.waiters, m), ByMessage(requestId));
      case Other =>
    }
  }

  lemma FrameDecides(c: Client, f: Frame)
    requires Inv(c) && Ready(c.link)
    ensures Decides(c.link, HandleFrame(c, f))
  {
    hide HandleMessage, SettleAll;
    match f {
      case Session(m) => MessageDecides(Heard(c), m);
      case Binary(Some(requestId)) => MessageDecides(Heard(c), Response(FILE_RESPONSE, requestId, FILE_PAYLOAD));
      case Invalid(Some(requestId)) =>
        SettlingIsNoLoss(OfRequest(c.calls.waiters, requestId), ByInvalidMessage(requestId));
      case _ =>
    }
  }

  lemma TransportDecides(c: Client, e: TransportEvent)
    requires Inv(c) && Ready(c.link)
    ensures Decides(c.link, HandleTransport(c, e))
  {
    hide ScheduleReconnect, HandleFrame, Inv;
    match e {
      case Message(frame) => FrameDecides(c, frame);
      case Open =>
      case Failed(true) =>
      case _ => ScheduleLoses(c.(link := c.link.(connectTimer := false, genericErrorTimer := false)));
    }
  }

  lemma PingDecides(c: Client)
    requires Inv(c) && Ready(c.link)
    ensures Decides(c.link, PingTimeout(c))
  {
    hide TearDown;
    TearDownLoses(c.(heart := RejectProbe(c.heart).(failures := 0)));
    hide Inv;
  }

  lemma TimerDecides(c: Client, e: Event)
    requires Inv(c) && Ready(c.link) && (e.OnReconnectTimer? || e.OnConnectTimer? || e.OnGenericErrorTimer?)
    ensures Decides(c.link, Step(c, e))
  {
    hide AttemptConnect, TearDown, ScheduleReconnect;
    match e {
      case OnReconnectTimer(attempt) =>
        if c.link.shouldReconnect {
          AttemptLoses(c.(link := c.link.(reconnectTimer := false)), attempt);
        }
      case OnConnectTimer => TearDownLoses(c);
      case OnGenericErrorTimer => ScheduleLoses(c.(link := c.link.(genericErrorTimer := false)));
    }
    hide Inv;
  }

  lemma OtherDecides(c: Client, e: Event)
    requires Inv(c) && Ready(c.link)
    requires e.CallClose? || e.CallSetReconnectEnabled? || e.CallRequest? || e.CallSubscribe? || e.CallUnsubscribe?
          || e.CallMeasureLatency? || e.OtherSubscriptions? || e.OnHeartbeatTimer? || e.OnWaiterTimer?
          || e.OnQueueTimer?
    ensures Decides(c.link, Step(c, e))
  {
    if e.CallClose? {
      DroppingIsNoLoss(c.calls);
      hide DropCalls;
    }
  }

  /** Every step keeps or decides the retry of a client that it leaves disconnected. */
  lemma StepDecides(c: Client, e: Event)
    requires Inv(c) && Ready(c.link)
    ensures Decides(c.link, Step(c, e))
  {
    hide Inv, Ready, Decides;
    match e {
      case CallConnect(attempt) => hide Connect; ConnectDecides(c, attempt);
      case CallEnsureConnected(attempt) => hide EnsureConnected; EnsureDecides(c, attempt);
      case OnTransport(event) => hide HandleTransport; TransportDecides(c, event);
      case OnPingTimer => hide PingTimeout; PingDecides(c);
      case OnReconnectTimer(_) => hide Step; TimerDecides(c, e);
      case OnConnectTimer => hide Step; TimerDecides(c, e);
      case OnGenericErrorTimer => hide Step; TimerDecides(c, e);
      case _ => hide Step; OtherDecides(c, e);
    }
  }

  // ---------------------------------------------------------------------------
  // Whole runs
  // ---------------------------------------------------------------------------

  /** The step reports the loss of the connection. */
  predicate Reports(reconnectEnabled: bool, events: seq<Event>, k: nat)
    requires k < |events|
  {
    LOSS in Step(Run(Initial(reconnectEnabled), events[..k]).client, events[k]).effects
  }

  /** The loss was last reported by the step at `k`. */
  predicate LastLossAt(reconnectEnabled: bool, events: seq<Event>, k: nat) {
    && k < |events| && Reports(reconnectEnabled, events, k)
    && forall j: nat :: k < j < |events| ==> !Reports(reconnectEnabled, events, j)
  }

  lemma ReportsEarlier(reconnectEnabled: bool, events: seq<Event>, n: nat, k: nat)
    requires k < n <= |events|
    ensures Reports(reconnectEnabled, events[..n], k) == Reports(reconnectEnabled, events, k)
  {
    assert events[..n][..k] == events[..k] && events[..n][k] == events[k];
    hide Step, Run;
  }

  /** One step more moves the last loss only by reporting one. */
  lemma LastLossStep(reconnectEnabled: bool, events: seq<Event>, k: nat)
    requires events != [] && k < |events| - 1
    ensures LastLossAt(reconnectEnabled, events, k)
       <==> LastLossAt(reconnectEnabled, events[..|events| - 1], k) && !Reports(reconnectEnabled, events, |events| - 1)
  {
    hide Reports;
    var n := |events| - 1;
    var earlier := events[..n];
    ReportsEarlier(reconnectEnabled, events, n, k);
    if LastLossAt(reconnectEnabled, events, k) {
      forall j: nat | k < j < n ensures !Reports(reconnectEnabled, earlier, j) {
        ReportsEarlier(reconnectEnabled, events, n, j);
      }
    }
    if LastLossAt(reconnectEnabled, earlier, k) {
      forall j: nat | k < j < n ensures !Reports(reconnectEnabled, events, j) {
        ReportsEarlier(reconnectEnabled, events, n, j);
      }
    }
  }

  lemma {:induction false} RunReady(reconnectEnabled: bool, events: seq<Event>)
    ensures Ready(LinkAfter(reconnectEnabled, events))
  {
    if events != [] {
      hide Step, Inv, Ready;
      var earlier := events[..|events| - 1];
      RunReady(reconnectEnabled, earlier);
      EveryRunInv(reconnectEnabled, earlier);
      StepDecides(Run(Initial(reconnectEnabled), earlier).client, events[|events| - 1]);
    }
  }

  lemma RunDecides(reconnectEnabled: bool, events: seq<Event>)
    requires events != []
    ensures var before := LinkAfter(reconnectEnabled, events[..|events| - 1]);
            var after := LinkAfter(reconnectEnabled, events);
            after.status.Disconnected? ==>
              if Reports(reconnectEnabled, events, |events| - 1) then after.reconnectTimer == WouldRetry(after)
              else Stays(before, after)
  {
    hide Step, Inv, Ready;
    var earlier := events[..|events| - 1];
    RunReady(reconnectEnabled, earlier);
    EveryRunInv(reconnectEnabled, earlier);
    StepDecides(Run(Initial(reconnectEnabled), earlier).client, events[|events| - 1]);
  }

  /** A disconnected client has reported its loss. */
  lemma {:induction false} LossWasReported(reconnectEnabled: bool, events: seq<Event>) returns (k: nat)
    requires LinkAfter(reconnectEnabled, events).status.Disconnected?
    ensures LastLossAt(reconnectEnabled, events, k)
  {
    hide LinkAfter, Reports;
    NotLostAtFirst(reconnectEnabled);
    var n := |events| - 1;
    k := n;
    if !Reports(reconnectEnabled, events, n) {
      RunDecides(reconnectEnabled, events);
      hide LastLossAt;
      k := LossWasReported(reconnectEnabled, events[..n]);
      LastLossIsEarlier(reconnectEnabled, events[..n], k);
      LastLossStep(reconnectEnabled, events, k);
    }
  }

  lemma NotLostAtFirst(reconnectEnabled: bool)
    ensures !LinkAfter(reconnectEnabled, []).status.Disconnected?
  {
  }

  lemma LastLossIsEarlier(reconnectEnabled: bool, events: seq<Event>, k: nat)
    requires LastLossAt(reconnectEnabled, events, k)
    ensures k < |events| && Reports(reconnectEnabled, events, k)
  {
  }

  /** How many losses since the last handshake armed a retry. */
  function RetriesArmed(reconnectEnabled: bool, events: seq<Event>): nat {
    if events == [] then 0
    else
      var earlier := events[..|events| - 1];
      var before, after := LinkAfter(reconnectEnabled, earlier), LinkAfter(reconnectEnabled, events);
      if !before.status.Connected? && after.status.Connected? then 0
      else RetriesArmed(reconnectEnabled, earlier)
           + if Reports(reconnectEnabled, events, |events| - 1) && after.reconnectTimer then 1 else 0
  }

  /** Over every run: the attempt that the delay goes by counts the retries armed since the last handshake. */
  lemma {:induction false} AttemptsAreCounted(reconnectEnabled: bool, events: seq<Event>)
    ensures LinkAfter(reconnectEnabled, events).reconnectAttempt == RetriesArmed(reconnectEnabled, events)
  {
    if events != [] {
      hide Step, Inv, Ready;
      var earlier := events[..|events| - 1];
      AttemptsAreCounted(reconnectEnabled, earlier);
      RunReady(reconnectEnabled, earlier);
      EveryRunInv(reconnectEnabled, earlier);
      StepDecides(Run(Initial(reconnectEnabled), earlier).client, events[|events| - 1]);
    }
  }

  /** The retry is as it was decided, and a wish that came later hides behind a promise. */
  predicate AsDecided(link: Link, decided: Link) {
    && link.reconnectTimer == WouldRetry(decided)
    && (link.shouldReconnect && !decided.shouldReconnect ==> link.connectPromise)
  }

  lemma StaysDecided(before: Link, after: Link, decided: Link)
    requires Stays(before, after) && AsDecided(before, decided)
    ensures AsDecided(after, decided)
  {
  }

  lemma {:induction false} SinceLoss(reconnectEnabled: bool, events: seq<Event>, k: nat)
    requires LinkAfter(reconnectEnabled, events).status.Disconnected? && LastLossAt(reconnectEnabled, events, k)
    ensures k < |events|
    ensures AsDecided(LinkAfter(reconnectEnabled, events), LinkAfter(reconnectEnabled, events[..k + 1]))
  {
    hide Reports, LinkAfter, LastLossAt, AsDecided;
    LastLossIsEarlier(reconnectEnabled, events, k);
    RunDecides(reconnectEnabled, events);
    var earlier := events[..|events| - 1];
    if k == |earlier| {
      JustDecided(LinkAfter(reconnectEnabled, events));
      assert events[..k + 1] == events;
    } else {
      assert earlier[..k + 1] == events[..k + 1];
      LastLossStep(reconnectEnabled, events, k);
      SinceLoss(reconnectEnabled, earlier, k);
      StaysDecided(LinkAfter(reconnectEnabled, earlier), LinkAfter(reconnectEnabled, events),
                   LinkAfter(reconnectEnabled, events[..k + 1]));
    }
  }

  lemma JustDecided(link: Link)
    requires link.reconnectTimer == WouldRetry(link)
    ensures AsDecided(link, link)
  {
  }

  /**
   * Over every run, whatever is enabled or disabled in between. A disconnected client has reported
   * its loss, and has a retry armed if and only if it wanted a connection and retries were enabled
   * when it last did; if they were enabled, but no retry is armed although it wants one now, a
   * stale promise keeps it from trying. A retry is armed only for a client that wants a connection,
   * and whoever waits in `connect()` at a disconnected client has one armed.
   */
  lemma NeverGivesUp(reconnectEnabled: bool, events: seq<Event>)
    ensures Ready(LinkAfter(reconnectEnabled, events))
    ensures var link := LinkAfter(reconnectEnabled, events);
            link.status.Disconnected? ==>
              && (exists k: nat :: LastLossAt(reconnectEnabled, events, k))
              && (forall k: nat :: LastLossAt(reconnectEnabled, events, k) ==>
                    var decided := LinkAfter(reconnectEnabled, events[..k + 1]);
                    && (link.reconnectTimer <==> WouldRetry(decided))
                    && (decided.reconnectEnabled && link.shouldReconnect && !link.reconnectTimer ==> Stale(link)))
  {
    RunReady(reconnectEnabled, events);
    hide LinkAfter, LastLossAt;
    if LinkAfter(reconnectEnabled, events).status.Disconnected? {
      var k := LossWasReported(reconnectEnabled, events);
      forall k: nat | LastLossAt(reconnectEnabled, events, k) {
        SinceLoss(reconnectEnabled, events, k);
      }
    }
  }

  /** Retries that are enabled again after the loss come too late: nobody tries any more. */
  lemma EnabledTooLate()
    ensures var events := [DIAL, GREETING] + [CallSetReconnectEnabled(false)] + [OnTransport(Closed)]
                          + [CallSetReconnectEnabled(true)];
            var link := LinkAfter(true, events);
            && link.status.Disconnected? && WouldRetry(link) && !link.reconnectTimer && !link.connectPromise
  {
    hide Step;
    var c := Initial(true);
    var disable, close, enable := CallSetReconnectEnabled(false), OnTransport(Closed), CallSetReconnectEnabled(true);
    RunStep(c, [DIAL, GREETING], disable);
    RunStep(c, [DIAL, GREETING] + [disable], close);
    RunStep(c, [DIAL, GREETING] + [disable] + [close], enable);
    FirstConnection(true);
    hide Run;
    LostWhileDisabled(FirstConnected(true));
  }

  lemma LostWhileDisabled(c: Client)
    requires c.link.transport.Some? && !c.link.status.Disposed? && c.link.shouldReconnect && !c.link.connectPromise
    ensures var disabled := Step(c, CallSetReconnectEnabled(false)).client;
            var link := Step(Step(disabled, OnTransport(Closed)).client, CallSetReconnectEnabled(true)).client.link;
            && link.status.Disconnected? && WouldRetry(link) && !link.reconnectTimer && !link.connectPromise
  {
  }
}
