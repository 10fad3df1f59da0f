/**
 * The promise of `connect()`: whoever starts waiting for a connection is answered exactly once,
 * is still waiting, or was dropped by `close()`; and is told of success only by the handshake.
 */
module DaemonSessionPromise {
  import opened Wrappers
  import opened DaemonSession
  import opened DaemonSessionInvariant
  import opened DaemonSessionQuiet
  import opened DaemonSessionShapes

  function One(b: bool): nat { if b then 1 else 0 }

  predicate IsAnswer(e: Effect) { e.ConnectResolved? || e.ConnectRejected? }

  function Answers(es: seq<Effect>): nat {
    if es == [] then 0 else One(IsAnswer(es[0])) + Answers(es[1..])
  }

  lemma {:induction false} AnswersAppend(a: seq<Effect>, b: seq<Effect>)
    ensures Answers(a + b) == Answers(a) + Answers(b)
  {
    if a == [] {
      assert a + b == b;
    } else {
      assert (a + b)[0] == a[0] && (a + b)[1..] == a[1..] + b;
      AnswersAppend(a[1..], b);
    }
  }

  predicate Unanswered(es: seq<Effect>) {
    forall i :: 0 <= i < |es| ==> !IsAnswer(es[i])
  }

  lemma {:induction false} NoAnswers(es: seq<Effect>)
    requires Unanswered(es)
    ensures Answers(es) == 0
  {
    if es != [] {
      NoAnswers(es[1..]);
    }
  }

  /** Answers count nothing that happens around them. */
  lemma AnswersBehind(pre: seq<Effect>, es: seq<Effect>)
    requires Unanswered(pre)
    ensures Answers(pre + es) == Answers(es)
  {
    NoAnswers(pre);
    AnswersAppend(pre, es);
  }

  /** Who waited before is answered or still waits, behind the promise stored; whoever is answered, it is gone. */
  predicate Accounted(before: Link, after: Link, es: seq<Effect>) {
    && (after.connectPromise ==> before.connectPromise && after.connectHandlers == before.connectHandlers)
    && One(before.connectHandlers) == One(after.connectHandlers) + Answers(es)
    && ((before.connectHandlers ==> before.connectPromise) ==> (after.connectHandlers ==> after.connectPromise))
  }

  lemma RejectAccounted(link: Link)
    ensures Accounted(link, RejectConnect(link).link, RejectConnect(link).effects)
    ensures !RejectConnect(link).link.connectHandlers
  {
    assert Answers([]) == 0;
    assert [ConnectRejected][1..] == [];
  }

  lemma ResolveAccounted(link: Link)
    ensures Accounted(link, ResolveConnect(link).link, ResolveConnect(link).effects)
  {
    assert Answers([]) == 0;
    assert [ConnectResolved][1..] == [];
  }

  lemma SilentAccounted(before: Link, after: Link, es: seq<Effect>)
    requires Unanswered(es)
    requires after.connectHandlers == before.connectHandlers && after.connectPromise == before.connectPromise
    ensures Accounted(before, after, es)
  {
    NoAnswers(es);
  }

  lemma {:induction false} SettlingIsSilent(ws: seq<Waiter>, how: Settlement)
    ensures Unanswered(SettleAll(ws, how))
    decreases ws
  {
    if ws != [] {
      SettlingIsSilent(ws[1..], how);
    }
  }

  lemma DroppingIsSilent(calls: Calls)
    ensures Unanswered(DropCalls(calls).effects)
  {
    SettlingIsSilent(calls.waiters, ByConnectionLoss);
    RejectionIsAboutRequests(None, calls.queue);
  }

  lemma DownAccounted(link: Link)
    ensures Accounted(link, LinkDown(link).link, LinkDown(link).effects)
  {
    hide RejectConnect, Answers;
    var down := link.(status := Disconnected);
    RejectAccounted(link);
    RejectAccounted(down);
    AnswersBehind([StatusChanged(Disconnected)], RejectConnect(down).effects);
    NoAnswers([StatusChanged(Disconnected)]);
  }

  lemma ScheduleAccounted(c: Client)
    ensures Accounted(c.link, ScheduleReconnect(c).client.link, ScheduleReconnect(c).effects)
  {
    hide LinkDown, DropCalls, Answers;
    DroppingIsSilent(c.calls);
    DownAccounted(c.link.(reconnectTimer := false));
    AnswersBehind(DropCalls(c.calls).effects, LinkDown(c.link.(reconnectTimer := false)).effects);
  }

  lemma TearDownAccounted(c: Client)
    ensures Accounted(c.link, TearDown(c).client.link, TearDown(c).effects)
  {
    hide ScheduleReconnect, Answers;
    var disposed := DisposeTransport(c);
    ScheduleAccounted(disposed.client);
    AnswersBehind(disposed.effects, ScheduleReconnect(disposed.client).effects);
  }

  lemma FailAccounted(c: Client, badCredential: bool)
    ensures Accounted(c.link, FailAttempt(c, badCredential).client.link, FailAttempt(c, badCredential).effects)
    ensures !FailAttempt(c, badCredential).client.link.connectHandlers
  {
    var disposed := DisposeTransport(c);
    var link := disposed.client.link;
    var refused := if badCredential then RejectConnect(link.(shouldReconnect := false)) else Linked(link, []);
    assert Unanswered(disposed.effects) && Answers([]) == 0;
    RejectAccounted(link.(shouldReconnect := false));
    hide RejectConnect, ScheduleReconnect, Answers, DisposeTransport;
    var scheduled := ScheduleReconnect(disposed.client.(link := refused.link));
    ScheduleAccounted(disposed.client.(link := refused.link));
    RejectAccounted(scheduled.client.link);
    var rejected := RejectConnect(scheduled.client.link).effects;
    AnswersBehind(disposed.effects, refused.effects);
    AnswersAppend(disposed.effects + refused.effects, scheduled.effects);
    AnswersAppend(disposed.effects + refused.effects + scheduled.effects, rejected);
  }

  lemma AttemptAccounted(c: Client, attempt: Attempt)
    ensures Accounted(c.link, AttemptConnect(c, attempt).client.link, AttemptConnect(c, attempt).effects)
  {
    hide Answers, FailAttempt;
    RejectAccounted(c.link);
    NoAnswers([]);
    if attempt.Throws? {
      FailAccounted(c, attempt.badCredential);
    } else {
      NoAnswers(OpenTransport(c, attempt.credential).effects);
    }
  }

  /** A call that starts waiting for the connection. */
  predicate StartsWaiting(c: Client, e: Event) {
    && (e.CallConnect? || (e.CallEnsureConnected? && !c.link.status.Connecting?))
    && !c.link.status.Disposed? && !c.link.status.Connected? && !c.link.connectPromise
  }

  /** A call that drops whoever is waiting. */
  predicate Drops(c: Client, e: Event) {
    e.CallClose? && !c.link.status.Disposed? && c.link.connectHandlers
  }

  /** A call whose attempt fails at once. */
  predicate StartsFailing(c: Client, e: Event) {
    StartsWaiting(c, e) && e.attempt.Throws?
  }

  predicate Held(link: Link) { link.connectHandlers ==> link.connectPromise }

  /** The account of one step. */
  predicate Settles(c: Client, e: Event) {
    var n := Step(c, e);
    && One(c.link.connectHandlers) + One(StartsWaiting(c, e))
       == One(n.client.link.connectHandlers) + Answers(n.effects) + One(Drops(c, e))
    && Held(n.client.link)
    && (Stale(n.client.link) ==> Stale(c.link) || StartsFailing(c, e))
  }

  lemma ConnectSettles(c: Client, attempt: Attempt)
    requires Held(c.link)
    ensures Settles(c, CallConnect(attempt))
  {
    AttemptAccounted(c.(link := c.link.(shouldReconnect := true, connectHandlers := true)), attempt);
    NoAnswers([]);
    hide AttemptConnect, Answers;
  }

  lemma EnsureSettles(c: Client, attempt: Attempt)
    requires Held(c.link)
    ensures Settles(c, CallEnsureConnected(attempt))
  {
    ConnectSettles(c.(link := c.link.(shouldReconnect := true)), attempt);
    NoAnswers([]);
    hide Connect, Answers;
  }

  lemma CloseSettles(c: Client)
    requires Held(c.link)
    ensures Settles(c, CallClose)
  {
    DroppingIsSilent(c.calls);
    NoAnswers(Close(c).effects);
    hide DropCalls, Answers;
  }

  /** Any other step accounts for the promise without a new call or a drop. */
  lemma AccountedSettles(c: Client, e: Event)
    requires Held(c.link) && !e.CallConnect? && !e.CallEnsureConnected? && !e.CallClose?
    requires Accounted(c.link, Step(c, e).client.link, Step(c, e).effects)
    ensures Settles(c, e)
  {
    hide Step, Answers;
  }

  lemma RefuseAccounted(c: Client)
    ensures Accounted(c.link, RefuseAuthentication(c).client.link, RefuseAuthentication(c).effects)
  {
    hide TearDown, RejectConnect, Answers;
    var rejected := RejectConnect(c.link.(shouldReconnect := false));
    RejectAccounted(c.link.(shouldReconnect := false));
    TearDownAccounted(c.(link := rejected.link));
    AnswersAppend(rejected.effects, TearDown(c.(link := rejected.link)).effects);
  }

  lemma BecomeAccounted(c: Client)
    ensures Accounted(c.link, BecomeConnected(c).client.link, BecomeConnected(c).effects)
  {
    var up := EnterConnected(c);
    ResubscribingOnly(up);
    SendingOnly(up);
    hide SendRequests, Resubscribe, ResolveConnect, Answers;
    var pre := [StatusChanged(Connected)] + Resubscribe(up) + SendRequests(up).effects;
    assert Unanswered(pre);
    hide Unanswered;
    ResolveAccounted(up.link);
    AnswersBehind(pre, ResolveConnect(up.link).effects);
  }

  lemma MessageAccounted(c: Client, m: SessionMessage)
    ensures Accounted(c.link, HandleMessage(c, m).client.link, HandleMessage(c, m).effects)
  {
    match m {
      case ServerInfo(authenticates) =>
        if c.link.credential && !authenticates {
          RefuseAccounted(c);
          hide RefuseAuthentication;
        } else if c.link.status.Connecting? {
          BecomeAccounted(c);
          hide BecomeConnected;
        } else {
          NoAnswers([]);
        }
      case Response(_, requestId, _) =>
        SettlingIsSilent(Selected(c.calls.waiters, m), ByMessage(requestId));
        SilentAccounted(c.link, c.link, HandleMessage(c, m).effects);
      case RpcError(requestId) =>
        SettlingIsSilent(Selected(c.calls.waiters, m), ByMessage(requestId));
        SilentAccounted(c.link, c.link, HandleMessage(c, m).effects);
      case Other => NoAnswers([]);
    }
    hide HandleMessage, Answers;
  }

  lemma FrameAccounted(c: Client, f: Frame)
    ensures Accounted(c.link, HandleFrame(c, f).client.link, HandleFrame(c, f).effects)
  {
    hide HandleMessage, Answers;
    NoAnswers([]);
    NoAnswers([ValidFrame]);
    match f {
      case Session(m) =>
        MessageAccounted(Heard(c), m);
        AnswersBehind([ValidFrame], HandleMessage(Heard(c), m).effects);
      case Binary(Some(requestId)) =>
        var m := Response(FILE_RESPONSE, requestId, FILE_PAYLOAD);
        MessageAccounted(Heard(c), m);
        AnswersBehind([ValidFrame], HandleMessage(Heard(c), m).effects);
      case Invalid(Some(requestId)) =>
        SettlingIsSilent(OfRequest(c.calls.waiters, requestId), ByInvalidMessage(requestId));
        SilentAccounted(c.link, c.link, HandleFrame(c, f).effects);
      case _ =>
    }
  }

  lemma TransportAccounted(c: Client, e: TransportEvent)
    ensures Accounted(c.link, HandleTransport(c, e).client.link, HandleTransport(c, e).effects)
  {
    hide HandleFrame, ScheduleReconnect, Answers;
    NoAnswers([]);
    match e {
      case Message(frame) => FrameAccounted(c, frame);
      case Open => NoAnswers(HandleTransport(c, e).effects);
      case _ => ScheduleAccounted(c.(link := c.link.(connectTimer := false, genericErrorTimer := false)));
    }
  }

  lemma PingAccounted(c: Client)
    ensures Accounted(c.link, PingTimeout(c).client.link, PingTimeout(c).effects)
  {
    hide TearDown, Answers;
    var quiet := c.(heart := RejectProbe(c.heart).(failures := 0));
    TearDownAccounted(quiet);
    AnswersBehind([HeartbeatFailed, LivenessTeardown], TearDown(quiet).effects);
    NoAnswers([HeartbeatFailed]);
    NoAnswers([]);
  }

  lemma TimerAccounted(c: Client, e: Event)
    requires e.OnReconnectTimer? || e.OnConnectTimer? || e.OnGenericErrorTimer?
    ensures Accounted(c.link, Step(c, e).client.link, Step(c, e).effects)
  {
    hide AttemptConnect, TearDown, ScheduleReconnect, Answers;
    NoAnswers([]);
    match e {
      case OnReconnectTimer(attempt) => AttemptAccounted(c.(link := c.link.(reconnectTimer := false)), attempt);
      case OnConnectTimer => TearDownAccounted(c);
      case OnGenericErrorTimer => ScheduleAccounted(c.(link := c.link.(genericErrorTimer := false)));
    }
  }

  lemma OtherAccounted(c: Client, e: Event)
    requires e.CallSetReconnectEnabled? || e.CallRequest? || e.CallSubscribe? || e.CallUnsubscribe?
          || e.CallMeasureLatency? || e.OnHeartbeatTimer? || e.OnWaiterTimer? || e.OnQueueTimer?
          || e.OtherSubscriptions?
    ensures Accounted(c.link, Step(c, e).client.link, Step(c, e).effects)
  {
    NoAnswers(Step(c, e).effects);
    hide Answers;
  }

  lemma StepSettles(c: Client, e: Event)
    requires Held(c.link)
    ensures Settles(c, e)
  {
    hide Settles, Accounted;
    match e {
      case CallConnect(attempt) => ConnectSettles(c, attempt);
      case CallEnsureConnected(attempt) => EnsureSettles(c, attempt);
      case CallClose => CloseSettles(c);
      case OnTransport(event) =>
        TransportAccounted(c, event);
        hide HandleTransport;
        AccountedSettles(c, e);
      case OnPingTimer =>
        PingAccounted(c);
        hide PingTimeout;
        AccountedSettles(c, e);
      case _ =>
        hide Step;
        if e.OnReconnectTimer? || e.OnConnectTimer? || e.OnGenericErrorTimer? {
          TimerAccounted(c, e);
        } else {
          OtherAccounted(c, e);
        }
        AccountedSettles(c, e);
    }
  }

  // ---------------------------------------------------------------------------
  // Whole runs
  // ---------------------------------------------------------------------------

  /** How many calls started waiting during a run, and how many `close()` dropped. */
  function Started(c: Client, events: seq<Event>): nat {
    if events == [] then 0
    else
      var before := events[..|events| - 1];
      Started(c, before) + One(StartsWaiting(Run(c, before).client, events[|events| - 1]))
  }

  function Dropped(c: Client, events: seq<Event>): nat {
    if events == [] then 0
    else
      var before := events[..|events| - 1];
      Dropped(c, before) + One(Drops(Run(c, before).client, events[|events| - 1]))
  }

  /** Over every run: a stored promise that has been answered comes from a call whose attempt failed at once. */
  lemma {:induction false} StaleComesFromFailedStart(reconnectEnabled: bool, events: seq<Event>)
    ensures Held(LinkAfter(reconnectEnabled, events))
    ensures Stale(LinkAfter(reconnectEnabled, events)) ==>
              exists k :: 0 <= k < |events|
                       && StartsFailing(Run(Initial(reconnectEnabled), events[..k]).client, events[k])
  {
    if events != [] {
      hide Step, StartsFailing, Answers;
      var earlier := events[..|events| - 1];
      StaleComesFromFailedStart(reconnectEnabled, earlier);
      StepSettles(Run(Initial(reconnectEnabled), earlier).client, events[|events| - 1]);
      if k :| 0 <= k < |earlier| && StartsFailing(Run(Initial(reconnectEnabled), earlier[..k]).client, earlier[k]) {
        assert earlier[..k] == events[..k] && earlier[k] == events[k];
      }
    }
  }

  lemma DropsDispose(c: Client, e: Event)
    requires Inv(c)
    ensures Drops(c, e) ==> !c.link.status.Disposed? && Step(c, e).client.link.status.Disposed?
    ensures c.link.status.Disposed? ==> Step(c, e).client.link.status.Disposed?
  {
    if c.link.status.Disposed? {
      DisposedStep(c, e);
      hide Step;
    } else if e.CallClose? {
      hide DropCalls, Inv;
    } else {
      hide Step, Inv;
    }
  }

  /**
   * Over every run: of the calls that started waiting for the connection, each was answered
   * once, was dropped by `close()`, or is the one still waiting; `close()` drops at most one.
   */
  lemma {:induction false} EveryCallerIsAccountedFor(reconnectEnabled: bool, events: seq<Event>)
    ensures var c := Initial(reconnectEnabled);
            var run := Run(c, events);
            && Started(c, events)
               == Answers(run.effects) + Dropped(c, events) + One(run.client.link.connectHandlers)
            && Held(run.client.link)
            && Dropped(c, events) <= One(run.client.link.status.Disposed?)
  {
    var c := Initial(reconnectEnabled);
    if events == [] {
      NoAnswers([]);
    } else {
      hide Step, Answers, Inv;
      var earlier, last := events[..|events| - 1], events[|events| - 1];
      var before := Run(c, earlier);
      EveryCallerIsAccountedFor(reconnectEnabled, earlier);
      StepSettles(before.client, last);
      AnswersAppend(before.effects, Step(before.client, last).effects);
      EveryRunInv(reconnectEnabled, earlier);
      DropsDispose(before.client, last);
    }
  }

  lemma CallsAnswerNobody(c: Client, e: Event)
    requires e.CallRequest? || e.CallSubscribe? || e.CallUnsubscribe?
    ensures Unanswered(Step(c, e).effects)
  {
  }

  lemma OtherShapesResolveNothing(c: Client, n: Next)
    requires Quiet(c, n) || Opening(c, n) || Hearing(c, n) || Pinging(c, n) || Faltering(c, n) || GivingUp(c, n)
    ensures forall i :: 0 <= i < |n.effects| ==> !n.effects[i].ConnectResolved?
  {
    hide QuietCalls;
    forall i | 0 <= i < |n.effects| ensures !n.effects[i].ConnectResolved? {
      if Quiet(c, n) {
        assert QuietEffect(c, n.effects[i]);
      } else if Hearing(c, n) {
        assert i > 0 ==> QuietEffect(Heard(c), n.effects[1..][i - 1]);
      } else if GivingUp(c, n) {
        assert i > 1 ==> QuietEffect(c.(heart := RejectProbe(c.heart).(failures := 0)), n.effects[2..][i - 2]);
      }
    }
  }

  /** Success is announced only by the step that completes the handshake. */
  lemma ResolvedByHandshake(c: Client, e: Event, i: nat)
    requires i < |Step(c, e).effects| && Step(c, e).effects[i].ConnectResolved?
    ensures Handshake(c, Step(c, e))
  {
    var n := Step(c, e);
    if e.CallRequest? || e.CallSubscribe? || e.CallUnsubscribe? {
      CallsAnswerNobody(c, e);
    } else {
      hide Step, Handshake, Quiet, Opening, Hearing, Pinging, Faltering, GivingUp;
      StepShape(c, e);
      if !Handshake(c, n) {
        OtherShapesResolveNothing(c, n);
      }
    }
  }
}
