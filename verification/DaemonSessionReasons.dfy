/**
 * Why things happen: every effect of a step has its reason in the event. What settles a waiter or
 * a send names the event that did it, and nothing is sent, made or pinged without one.
 */
module DaemonSessionReasons {
  import opened Wrappers
  import opened DaemonSession
  import opened DaemonSessionInvariant
  import opened DaemonSessionShapes

  /** The daemon's greeting. */
  predicate Greets(e: Event) {
    e.OnTransport? && e.event.Message? && e.event.frame.Session? && e.event.frame.message.ServerInfo?
  }

  /** The frame passed validation. */
  predicate IsValid(e: Event) {
    e.OnTransport? && e.event.Message? && !e.event.frame.Invalid?
  }

  /** The frame carries an answer to this request. */
  predicate Carries(e: Event, requestId: string) {
    && IsValid(e)
    && match e.event.frame
       case Session(Response(_, id, _)) => id == requestId
       case Session(RpcError(id)) => id == requestId
       case Binary(completes) => completes == Some(requestId)
       case _ => false
  }

  /** What settles a waiter; a loss leaves the client disconnected or disposed. */
  predicate SettlementReason(c: Client, e: Event, after: Link, id: nat, how: Settlement) {
    match how
    case ByMessage(requestId) => Carries(e, requestId)
    case ByInvalidMessage(requestId) => e.OnTransport? && e.event == Message(Invalid(Some(requestId)))
    case ByTimeout => e.OnWaiterTimer? && e.id == id
    case ByCancel => (e.OnQueueTimer? && e.id == id) || (e.CallRequest? && id == c.calls.nextId && !CanSend(c.link))
    case ByConnectionLoss => Settled(after.status)
  }

  predicate SendReason(c: Client, e: Event, after: Link, id: nat, outcome: SendOutcome) {
    match outcome
    case SendOk => (e.CallRequest? && id == c.calls.nextId && CanSend(c.link)) || Greets(e)
    case SendTimedOut => e.OnQueueTimer? && e.id == id
    case SendRejected => (e.CallRequest? && id == c.calls.nextId && !CanSend(c.link)) || Settled(after.status)
  }

  predicate WireReason(c: Client, e: Event, wire: Wire) {
    match wire
    case Hello => e.OnTransport? && e.event.Open?
    case Ping => e.OnHeartbeatTimer? || e.CallMeasureLatency?
    case Subscribe(s) => (e.CallSubscribe? && e.subscription == s) || Greets(e)
    case Unsubscribe(s) => e.CallUnsubscribe? && e.subscription == s
    case SubscribeDiff(_) => Greets(e)
    case Request(id) => (e.CallRequest? && id == c.calls.nextId) || Greets(e)
  }

  predicate Reason(c: Client, e: Event, after: Link, x: Effect) {
    match x
    case ValidFrame => IsValid(e)
    case Sent(t, wire) => c.link.transport == Some(t) && WireReason(c, e, wire)
    case RequestMade(id, requestId) =>
      (e.CallRequest? && id == c.calls.nextId && requestId == e.requestId) || Greets(e)
    case SendSettled(id, outcome) => SendReason(c, e, after, id, outcome)
    case WaiterSettled(id, _, how) => SettlementReason(c, e, after, id, how)
    case ProbeStarted(byHeartbeat) => if byHeartbeat then e.OnHeartbeatTimer? else e.CallMeasureLatency?
    case HeartbeatFailed => e.OnPingTimer?
    case LivenessTeardown => e.OnPingTimer?
    case ConnectResolved => Greets(e) && after.status.Connected?
    case ConnectRejected => !after.status.Connected?
    case TransportOpened(_) => e.CallConnect? || e.CallEnsureConnected? || e.OnReconnectTimer?
    case TransportClosed(t) => c.link.transport == Some(t)
    case StatusChanged(status) => status == after.status
  }

  predicate Reasoned(c: Client, e: Event, after: Link, es: seq<Effect>) {
    forall i :: 0 <= i < |es| ==> Reason(c, e, after, es[i])
  }

  lemma ReasonedConcat(c: Client, e: Event, after: Link, a: seq<Effect>, b: seq<Effect>)
    requires Reasoned(c, e, after, a) && Reasoned(c, e, after, b)
    ensures Reasoned(c, e, after, a + b)
  {
    hide Reason;
  }

  // ---------------------------------------------------------------------------
  // Losses
  // ---------------------------------------------------------------------------

  /** What a loss does, whatever the event: it settles, rejects, closes and reports. */
  predicate OfLoss(c: Client, after: Link, es: seq<Effect>) {
    forall i :: 0 <= i < |es| ==>
      match es[i]
      case SendSettled(_, outcome) => outcome.SendRejected?
      case WaiterSettled(_, _, how) => how.ByConnectionLoss?
      case TransportClosed(t) => c.link.transport == Some(t)
      case StatusChanged(status) => status == after.status
      case ConnectRejected => true
      case _ => false
  }

  lemma OfLossConcat(c: Client, after: Link, a: seq<Effect>, b: seq<Effect>)
    requires OfLoss(c, after, a) && OfLoss(c, after, b)
    ensures OfLoss(c, after, a + b)
  {
  }

  lemma LossReasoned(c: Client, e: Event, after: Link, es: seq<Effect>)
    requires OfLoss(c, after, es) && Settled(after.status)
    ensures Reasoned(c, e, after, es)
  {
  }

  lemma {:induction false} SettlingOfLoss(c: Client, after: Link, ws: seq<Waiter>)
    ensures OfLoss(c, after, SettleAll(ws, ByConnectionLoss))
    decreases ws
  {
    if ws != [] {
      SettlingOfLoss(c, after, ws[1..]);
    }
  }

  lemma {:induction false} RejectingOfLoss(c: Client, after: Link, queue: seq<PendingSend>)
    ensures OfLoss(c, after, RejectAll(queue))
    decreases queue
  {
    if queue != [] {
      RejectingOfLoss(c, after, queue[1..]);
    }
  }

  lemma DroppingOfLoss(c: Client, after: Link, calls: Calls)
    ensures OfLoss(c, after, DropCalls(calls).effects)
  {
    SettlingOfLoss(c, after, calls.waiters);
    RejectingOfLoss(c, after, calls.queue);
    hide OfLoss;
    OfLossConcat(c, after, SettleAll(calls.waiters, ByConnectionLoss), RejectAll(calls.queue));
  }

  lemma RejectOfLoss(c: Client, after: Link, link: Link)
    ensures OfLoss(c, after, RejectConnect(link).effects) && RejectConnect(link).link.status == link.status
    ensures RejectConnect(link).link.transport == link.transport
  {
  }

  lemma DownOfLoss(c: Client, link: Link, after: Link)
    requires after.status == LinkDown(link).link.status
    ensures OfLoss(c, after, LinkDown(link).effects) && Settled(LinkDown(link).link.status)
  {
    hide RejectConnect;
    RejectOfLoss(c, after, link);
    RejectOfLoss(c, after, link.(status := Disconnected));
    ReportOfLoss(c, after);
    hide OfLoss;
    OfLossConcat(c, after, [StatusChanged(after.status)], RejectConnect(link.(status := Disconnected)).effects);
  }

  lemma ReportOfLoss(c: Client, after: Link)
    ensures OfLoss(c, after, [StatusChanged(after.status)]) && OfLoss(c, after, [])
  {
  }

  lemma DisposeOfLoss(c: Client, loser: Client, after: Link)
    requires loser.link.transport == c.link.transport
    ensures OfLoss(c, after, DisposeTransport(loser).effects)
  {
  }

  lemma ScheduleOfLoss(c: Client, loser: Client, after: Link)
    requires after.status == ScheduleReconnect(loser).client.link.status
    ensures OfLoss(c, after, ScheduleReconnect(loser).effects) && Settled(after.status)
  {
    hide DropCalls, LinkDown, OfLoss;
    DroppingOfLoss(c, after, loser.calls);
    DownOfLoss(c, loser.link.(reconnectTimer := false), after);
    OfLossConcat(c, after, DropCalls(loser.calls).effects, LinkDown(loser.link.(reconnectTimer := false)).effects);
  }

  lemma TearDownOfLoss(c: Client, loser: Client, after: Link)
    requires after.status == TearDown(loser).client.link.status && loser.link.transport == c.link.transport
    ensures OfLoss(c, after, TearDown(loser).effects) && Settled(after.status)
  {
    var disposed := DisposeTransport(loser);
    hide ScheduleReconnect, OfLoss;
    DisposeOfLoss(c, loser, after);
    ScheduleOfLoss(c, disposed.client, after);
    OfLossConcat(c, after, disposed.effects, ScheduleReconnect(disposed.client).effects);
  }

  lemma FailOfLoss(c: Client, loser: Client, badCredential: bool, after: Link)
    requires after.status == FailAttempt(loser, badCredential).client.link.status
    requires loser.link.transport == c.link.transport
    ensures OfLoss(c, after, FailAttempt(loser, badCredential).effects) && Settled(after.status)
  {
    var disposed := DisposeTransport(loser);
    var link := disposed.client.link;
    var refused := if badCredential then RejectConnect(link.(shouldReconnect := false)) else Linked(link, []);
    var scheduled := ScheduleReconnect(disposed.client.(link := refused.link));
    var rejected := RejectConnect(scheduled.client.link).effects;
    hide ScheduleReconnect, OfLoss, DisposeTransport, RejectConnect;
    DisposeOfLoss(c, loser, after);
    ReportOfLoss(c, after);
    RejectOfLoss(c, after, link.(shouldReconnect := false));
    RejectOfLoss(c, after, scheduled.client.link);
    ScheduleOfLoss(c, disposed.client.(link := refused.link), after);
    OfLossConcat(c, after, disposed.effects, refused.effects);
    OfLossConcat(c, after, disposed.effects + refused.effects, scheduled.effects);
    OfLossConcat(c, after, disposed.effects + refused.effects + scheduled.effects, rejected);
  }

  // ---------------------------------------------------------------------------
  // Steps
  // ---------------------------------------------------------------------------

  lemma AttemptReasoned(c: Client, dialler: Client, attempt: Attempt, e: Event)
    requires dialler.link.transport == c.link.transport && (dialler.link.status == c.link.status)
    requires e.CallConnect? || e.CallEnsureConnected? || e.OnReconnectTimer?
    requires dialler.link.shouldReconnect && !dialler.link.status.Disposed?
    ensures Reasoned(c, e, AttemptConnect(dialler, attempt).client.link, AttemptConnect(dialler, attempt).effects)
  {
    hide FailAttempt;
    var n := AttemptConnect(dialler, attempt);
    if attempt.Throws? && !dialler.link.status.Connecting? {
      hide Reasoned, OfLoss;
      FailOfLoss(c, dialler, attempt.badCredential, n.client.link);
      LossReasoned(c, e, n.client.link, n.effects);
    }
  }

  lemma ConnectReasoned(c: Client, wanting: Client, attempt: Attempt, e: Event)
    requires wanting.link.transport == c.link.transport && wanting.link.status == c.link.status
    requires e.CallConnect? || e.CallEnsureConnected?
    ensures Reasoned(c, e, Connect(wanting, attempt).client.link, Connect(wanting, attempt).effects)
  {
    hide AttemptConnect;
    if !wanting.link.status.Disposed? {
      AttemptReasoned(c, wanting.(link := wanting.link.(shouldReconnect := true, connectHandlers := true)), attempt, e);
    }
  }

  lemma CloseReasoned(c: Client, e: Event)
    requires e.CallClose?
    ensures Reasoned(c, e, Step(c, e).client.link, Step(c, e).effects)
  {
    var n := Step(c, e);
    if !c.link.status.Disposed? {
      var disposed, dropped, last := DisposeTransport(c).effects, DropCalls(c.calls).effects, [StatusChanged(Disposed)];
      assert OfLoss(c, n.client.link, disposed) && OfLoss(c, n.client.link, last);
      assert n.effects == disposed + dropped + last && n.client.link.status.Disposed?;
      hide DropCalls, OfLoss, Step, Reasoned;
      DroppingOfLoss(c, n.client.link, c.calls);
      OfLossConcat(c, n.client.link, disposed, dropped);
      OfLossConcat(c, n.client.link, disposed + dropped, last);
      LossReasoned(c, e, n.client.link, n.effects);
    }
  }

  lemma {:induction false} RemakingReasoned(c: Client, up: Client, files: seq<string>, e: Event, after: Link)
    requires Greets(e) && CanSend(up.link) && up.link.transport == c.link.transport
    ensures Reasoned(c, e, after, RemakeRequests(up, files).effects)
    decreases files
  {
    if files != [] {
      var one := SendRequest(up, files[0], FILE_SUBSCRIBE_RESPONSE, ANY_PAYLOAD, true);
      RemakingReasoned(c, one.client, files[1..], e, after);
      assert Reasoned(c, e, after, one.effects);
      hide Reasoned, RemakeRequests;
      ReasonedConcat(c, e, after, one.effects, RemakeRequests(one.client, files[1..]).effects);
    }
  }

  lemma {:induction false} FlushReasoned(c: Client, t: nat, queue: seq<PendingSend>, e: Event, after: Link)
    requires Greets(e) && c.link.transport == Some(t)
    ensures Reasoned(c, e, after, FlushAll(t, queue))
    decreases queue
  {
    if queue != [] {
      FlushReasoned(c, t, queue[1..], e, after);
    }
  }

  lemma ResubscribingReasoned(c: Client, e: Event, after: Link, es: seq<Effect>)
    requires Greets(e) && Resubscribing(es, c.link.transport)
    ensures Reasoned(c, e, after, es)
  {
  }

  lemma BecomeReasoned(c: Client, connecting: Client, e: Event)
    requires Greets(e) && connecting.link == c.link && c.link.transport.Some?
    ensures Reasoned(c, e, BecomeConnected(connecting).client.link, BecomeConnected(connecting).effects)
  {
    var n, up := BecomeConnected(connecting), EnterConnected(connecting);
    var remade := RemakeRequests(up, up.others.files);
    var flushed := FlushCalls(remade.client.calls, up.link).effects;
    var first, resolved := [StatusChanged(Connected)], ResolveConnect(up.link).effects;
    var after := n.client.link;
    SendingOnly(up);
    ResubscribingOnly(up);
    assert flushed == FlushAll(c.link.transport.value, remade.client.calls.queue);
    assert Reasoned(c, e, after, first) && Reasoned(c, e, after, resolved);
    assert n.effects == first + Resubscribe(up) + (remade.effects + flushed) + resolved;
    hide BecomeConnected, SendRequests, RemakeRequests, FlushAll, Resubscribe, ResolveConnect, Reasoned, Resubscribing;
    ResubscribingReasoned(c, e, after, Resubscribe(up));
    RemakingReasoned(c, up, up.others.files, e, after);
    FlushReasoned(c, c.link.transport.value, remade.client.calls.queue, e, after);
    ReasonedConcat(c, e, after, remade.effects, flushed);
    ReasonedConcat(c, e, after, first, Resubscribe(up));
    ReasonedConcat(c, e, after, first + Resubscribe(up), remade.effects + flushed);
    ReasonedConcat(c, e, after, first + Resubscribe(up) + (remade.effects + flushed), resolved);
  }

  lemma RefuseReasoned(c: Client, refusing: Client, e: Event)
    requires Greets(e) && refusing.link == c.link
    ensures Reasoned(c, e, RefuseAuthentication(refusing).client.link, RefuseAuthentication(refusing).effects)
  {
    var rejected := RejectConnect(refusing.link.(shouldReconnect := false));
    var torn := TearDown(refusing.(link := rejected.link));
    assert OfLoss(c, torn.client.link, rejected.effects);
    hide TearDown, OfLoss, Reasoned;
    TearDownOfLoss(c, refusing.(link := rejected.link), torn.client.link);
    OfLossConcat(c, torn.client.link, rejected.effects, torn.effects);
    LossReasoned(c, e, torn.client.link, rejected.effects + torn.effects);
  }

  lemma {:induction false} SettlingReasoned(c: Client, e: Event, after: Link, ws: seq<Waiter>, how: Settlement)
    requires match how
             case ByMessage(requestId) => Carries(e, requestId)
             case ByInvalidMessage(requestId) => e.OnTransport? && e.event == Message(Invalid(Some(requestId)))
             case _ => false
    ensures Reasoned(c, e, after, SettleAll(ws, how))
    decreases ws
  {
    if ws != [] {
      SettlingReasoned(c, e, after, ws[1..], how);
    }
  }

  lemma MessageReasoned(c: Client, m: SessionMessage, e: Event)
    requires Inv(c) && IsValid(e)
    requires if m.ServerInfo? then Greets(e) else (m.Response? || m.RpcError? ==> Carries(e, m.requestId))
    ensures Reasoned(c, e, HandleMessage(Heard(c), m).client.link, HandleMessage(Heard(c), m).effects)
  {
    hide RefuseAuthentication, BecomeConnected;
    match m {
      case ServerInfo(_) =>
        RefuseReasoned(c, Heard(c), e);
        if c.link.status.Connecting? {
          BecomeReasoned(c, Heard(c), e);
        }
      case Response(_, requestId, _) =>
        SettlingReasoned(c, e, c.link, Selected(c.calls.waiters, m), ByMessage(requestId));
      case RpcError(requestId) =>
        SettlingReasoned(c, e, c.link, Selected(c.calls.waiters, m), ByMessage(requestId));
      case Other =>
    }
    hide Reason, SettleAll;
  }

  lemma FrameReasoned(c: Client, f: Frame, e: Event)
    requires Inv(c) && e.OnTransport? && e.event == Message(f)
    ensures Reasoned(c, e, HandleFrame(c, f).client.link, HandleFrame(c, f).effects)
  {
    hide HandleMessage;
    var after := HandleFrame(c, f).client.link;
    match f {
      case Session(m) =>
        MessageReasoned(c, m, e);
        ReasonedConcat(c, e, after, [ValidFrame], HandleMessage(Heard(c), m).effects);
      case Binary(Some(requestId)) =>
        var m := Response(FILE_RESPONSE, requestId, FILE_PAYLOAD);
        MessageReasoned(c, m, e);
        ReasonedConcat(c, e, after, [ValidFrame], HandleMessage(Heard(c), m).effects);
      case Invalid(Some(requestId)) =>
        SettlingReasoned(c, e, after, OfRequest(c.calls.waiters, requestId), ByInvalidMessage(requestId));
      case _ =>
    }
    hide SettleAll, HandleMessage;
  }

  lemma TransportReasoned(c: Client, e: Event)
    requires Inv(c) && e.OnTransport?
    ensures Reasoned(c, e, Step(c, e).client.link, Step(c, e).effects)
  {
    hide HandleFrame, ScheduleReconnect;
    if c.link.transport.Some? {
      match e.event {
        case Message(frame) => hide Reasoned; FrameReasoned(c, frame, e);
        case Open =>
        case _ =>
          var quiet := c.(link := c.link.(connectTimer := false, genericErrorTimer := false));
          hide OfLoss;
          ScheduleOfLoss(c, quiet, ScheduleReconnect(quiet).client.link);
          LossReasoned(c, e, ScheduleReconnect(quiet).client.link, ScheduleReconnect(quiet).effects);
      }
    }
  }

  lemma PingReasoned(c: Client, e: Event)
    requires e.OnPingTimer?
    ensures Reasoned(c, e, Step(c, e).client.link, Step(c, e).effects)
  {
    hide TearDown;
    var torn := TearDown(c.(heart := RejectProbe(c.heart).(failures := 0)));
    TearDownOfLoss(c, c.(heart := RejectProbe(c.heart).(failures := 0)), torn.client.link);
    LossReasoned(c, e, torn.client.link, torn.effects);
    assert Reasoned(c, e, torn.client.link, [HeartbeatFailed, LivenessTeardown]);
    ReasonedConcat(c, e, torn.client.link, [HeartbeatFailed, LivenessTeardown], torn.effects);
    hide OfLoss;
  }

  lemma TimerReasoned(c: Client, e: Event)
    requires Inv(c) && (e.OnReconnectTimer? || e.OnConnectTimer? || e.OnGenericErrorTimer?)
    ensures Reasoned(c, e, Step(c, e).client.link, Step(c, e).effects)
  {
    hide AttemptConnect, TearDown, ScheduleReconnect, OfLoss;
    match e {
      case OnReconnectTimer(attempt) =>
        if c.link.shouldReconnect {
          AttemptReasoned(c, c.(link := c.link.(reconnectTimer := false)), attempt, e);
        }
      case OnConnectTimer =>
        TearDownOfLoss(c, c, TearDown(c).client.link);
        LossReasoned(c, e, TearDown(c).client.link, TearDown(c).effects);
      case OnGenericErrorTimer =>
        var fired := c.(link := c.link.(genericErrorTimer := false));
        ScheduleOfLoss(c, fired, ScheduleReconnect(fired).client.link);
        LossReasoned(c, e, ScheduleReconnect(fired).client.link, ScheduleReconnect(fired).effects);
    }
    hide Reason;
  }

  lemma OtherReasoned(c: Client, e: Event)
    requires e.CallSetReconnectEnabled? || e.CallRequest? || e.CallSubscribe? || e.CallUnsubscribe?
          || e.CallMeasureLatency? || e.OtherSubscriptions? || e.OnHeartbeatTimer? || e.OnWaiterTimer?
          || e.OnQueueTimer?
    ensures Reasoned(c, e, Step(c, e).client.link, Step(c, e).effects)
  {
  }

  /** Every effect of a step has its reason in the event, whatever led to the client's state. */
  lemma EveryEffectHasItsReason(c: Client, e: Event)
    requires Inv(c)
    ensures Reasoned(c, e, Step(c, e).client.link, Step(c, e).effects)
  {
    hide Reasoned, Inv;
    match e {
      case CallConnect(attempt) => hide Connect; ConnectReasoned(c, c, attempt, e);
      case CallEnsureConnected(attempt) => hide EnsureConnected; EnsureReasoned(c, attempt, e);
      case CallClose => hide Step; CloseReasoned(c, e);
      case OnTransport(_) => hide Step; TransportReasoned(c, e);
      case OnPingTimer => hide Step; PingReasoned(c, e);
      case OnReconnectTimer(_) => hide Step; TimerReasoned(c, e);
      case OnConnectTimer => hide Step; TimerReasoned(c, e);
      case OnGenericErrorTimer => hide Step; TimerReasoned(c, e);
      case _ => hide Step; OtherReasoned(c, e);
    }
  }

  lemma EnsureReasoned(c: Client, attempt: Attempt, e: Event)
    requires e.CallEnsureConnected?
    ensures Reasoned(c, e, EnsureConnected(c, attempt).client.link, EnsureConnected(c, attempt).effects)
  {
    hide Connect;
    ConnectReasoned(c, c.(link := c.link.(shouldReconnect := true)), attempt, e);
    hide Reason;
  }
}
