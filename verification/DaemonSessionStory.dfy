/**
 * What the outside can tell of the connection: the status reported last is the client's, and
 * every transport is opened once, and closed once unless it is the present one.
 */
module DaemonSessionStory {
  import opened Wrappers
  import opened Sequences
  import opened DaemonSession
  import opened DaemonSessionInvariant
  import opened DaemonSessionShapes

  predicate Tells(e: Effect) { e.StatusChanged? || e.TransportOpened? || e.TransportClosed? }

  /** The reports and the transports among the effects, in order. */
  function Story(es: seq<Effect>): seq<Effect> {
    if es == [] then []
    else if Tells(es[0]) then [es[0]] + Story(es[1..])
    else Story(es[1..])
  }

  lemma {:induction false} StoryAppend(a: seq<Effect>, b: seq<Effect>)
    ensures Story(a + b) == Story(a) + Story(b)
  {
    if a == [] {
      assert a + b == b;
    } else {
      hide Tells;
      assert (a + b)[0] == a[0] && (a + b)[1..] == a[1..] + b;
      StoryAppend(a[1..], b);
      if Tells(a[0]) {
        Assoc([a[0]], Story(a[1..]), Story(b));
      }
    }
  }

  predicate Untold(es: seq<Effect>) { forall i :: 0 <= i < |es| ==> !Tells(es[i]) }

  lemma {:induction false} NoStory(es: seq<Effect>)
    requires Untold(es)
    ensures Story(es) == []
  {
    if es != [] {
      NoStory(es[1..]);
    }
  }

  lemma StoryBehind(pre: seq<Effect>, es: seq<Effect>)
    requires Untold(pre)
    ensures Story(pre + es) == Story(es)
  {
    NoStory(pre);
    StoryAppend(pre, es);
  }

  lemma StoryBefore(es: seq<Effect>, post: seq<Effect>)
    requires Untold(post)
    ensures Story(es + post) == Story(es)
  {
    NoStory(post);
    StoryAppend(es, post);
    assert Story(es) + [] == Story(es);
  }

  lemma {:induction false} WholeStory(es: seq<Effect>)
    requires forall i :: 0 <= i < |es| ==> Tells(es[i])
    ensures Story(es) == es
  {
    if es != [] {
      WholeStory(es[1..]);
    }
  }

  lemma {:induction false} SettlingUntold(ws: seq<Waiter>, how: Settlement)
    ensures Untold(SettleAll(ws, how))
    decreases ws
  {
    if ws != [] {
      SettlingUntold(ws[1..], how);
    }
  }

  lemma {:induction false} RejectingUntold(queue: seq<PendingSend>)
    ensures Untold(RejectAll(queue))
    decreases queue
  {
    if queue != [] {
      RejectingUntold(queue[1..]);
    }
  }

  lemma DroppingUntold(calls: Calls)
    ensures Untold(DropCalls(calls).effects)
  {
    SettlingUntold(calls.waiters, ByConnectionLoss);
    RejectingUntold(calls.queue);
  }

  // ---------------------------------------------------------------------------
  // The story of a step
  // ---------------------------------------------------------------------------

  function Closing(transport: Option<nat>): seq<Effect> {
    if transport.Some? then [TransportClosed(transport.value)] else []
  }

  /** Nothing is told, and nothing has changed. */
  predicate NothingTold(before: Link, after: Link, story: seq<Effect>) {
    && story == [] && after.status == before.status && after.transport == before.transport
    && after.nextTransport == before.nextTransport
  }

  /** The present transport, if any, is closed, and the next one opened. */
  predicate OpensNext(before: Link, after: Link, story: seq<Effect>) {
    && story == Closing(before.transport) + [TransportOpened(before.nextTransport), StatusChanged(Connecting)]
    && after.status.Connecting? && after.transport == Some(before.nextTransport)
    && after.nextTransport == before.nextTransport + 1
  }

  /** The new status is reported; the transport stays. */
  predicate ReportsOnly(before: Link, after: Link, story: seq<Effect>) {
    && story == [StatusChanged(after.status)] && after.transport == before.transport
    && after.nextTransport == before.nextTransport
  }

  /** The present transport, if any, is closed, and the new status reported. */
  predicate ClosesAndReports(before: Link, after: Link, story: seq<Effect>) {
    && story == Closing(before.transport) + [StatusChanged(after.status)] && after.transport.None?
    && after.nextTransport == before.nextTransport
  }

  predicate Fits(before: Link, n: Next) {
    var after, story := n.client.link, Story(n.effects);
    || NothingTold(before, after, story) || OpensNext(before, after, story)
    || ReportsOnly(before, after, story) || ClosesAndReports(before, after, story)
  }

  lemma SilentFits(before: Link, n: Next)
    requires Untold(n.effects) && n.client.link.status == before.status
    requires n.client.link.transport == before.transport && n.client.link.nextTransport == before.nextTransport
    ensures Fits(before, n)
  {
    NoStory(n.effects);
  }

  lemma DownStory(link: Link)
    requires !link.status.Disposed?
    ensures Story(LinkDown(link).effects) == [StatusChanged(Disconnected)] && LinkDown(link).link.status.Disconnected?
    ensures LinkDown(link).link.transport == link.transport && LinkDown(link).link.nextTransport == link.nextTransport
  {
    var es := LinkDown(link).effects;
    assert es[0] == StatusChanged(Disconnected) && Untold(es[1..]);
    NoStory(es[1..]);
  }

  lemma ScheduleStory(c: Client)
    requires !c.link.status.Disposed?
    ensures Story(ScheduleReconnect(c).effects) == [StatusChanged(Disconnected)]
    ensures ReportsOnly(c.link, ScheduleReconnect(c).client.link, [StatusChanged(Disconnected)])
    ensures ScheduleReconnect(c).client.link.status.Disconnected?
  {
    hide DropCalls, LinkDown, Story;
    DroppingUntold(c.calls);
    DownStory(c.link.(reconnectTimer := false));
    StoryBehind(DropCalls(c.calls).effects, LinkDown(c.link.(reconnectTimer := false)).effects);
  }

  lemma DisposeStory(c: Client)
    ensures Story(DisposeTransport(c).effects) == Closing(c.link.transport)
  {
    WholeStory(DisposeTransport(c).effects);
  }

  lemma TearDownStory(c: Client)
    requires !c.link.status.Disposed?
    ensures ClosesAndReports(c.link, TearDown(c).client.link, Story(TearDown(c).effects))
    ensures TearDown(c).client.link.status.Disconnected?
  {
    hide ScheduleReconnect, Story;
    var disposed := DisposeTransport(c);
    DisposeStory(c);
    ScheduleStory(disposed.client);
    StoryAppend(disposed.effects, ScheduleReconnect(disposed.client).effects);
  }

  lemma FailStory(c: Client, badCredential: bool)
    requires !c.link.status.Disposed?
    ensures ClosesAndReports(c.link, FailAttempt(c, badCredential).client.link,
                             Story(FailAttempt(c, badCredential).effects))
  {
    var disposed := DisposeTransport(c);
    var link := disposed.client.link;
    var refused := if badCredential then RejectConnect(link.(shouldReconnect := false)) else Linked(link, []);
    var closed := disposed.client.(link := refused.link);
    var scheduled := ScheduleReconnect(closed);
    var rejected := RejectConnect(scheduled.client.link);
    assert Untold(refused.effects) && Untold(rejected.effects);
    DisposeStory(c);
    hide ScheduleReconnect, Story;
    ScheduleStory(closed);
    StoryBefore(disposed.effects, refused.effects);
    StoryAppend(disposed.effects + refused.effects, scheduled.effects);
    StoryBefore(disposed.effects + refused.effects + scheduled.effects, rejected.effects);
  }

  lemma AttemptFits(c: Client, attempt: Attempt)
    ensures Fits(c.link, AttemptConnect(c, attempt))
  {
    hide FailAttempt;
    if c.link.status.Disposed? || !c.link.shouldReconnect || c.link.status.Connecting? {
      SilentFits(c.link, AttemptConnect(c, attempt));
    } else {
      match attempt {
        case Throws(badCredential) => FailStory(c, badCredential);
        case Opens(credential) =>
          DisposeStory(c);
          WholeStory([TransportOpened(c.link.nextTransport), StatusChanged(Connecting)]);
          StoryAppend(DisposeTransport(c).effects, [TransportOpened(c.link.nextTransport), StatusChanged(Connecting)]);
      }
    }
    hide Story;
  }

  lemma ConnectFits(c: Client, attempt: Attempt)
    ensures Fits(c.link, Connect(c, attempt)) && Fits(c.link, EnsureConnected(c, attempt))
  {
    AttemptFits(c.(link := c.link.(shouldReconnect := true, connectHandlers := true)), attempt);
    SilentFits(c.link, Next(c, []));
    hide AttemptConnect, Story;
  }

  lemma CloseFits(c: Client)
    ensures Fits(c.link, Close(c))
  {
    hide DropCalls;
    if !c.link.status.Disposed? {
      var disposed, dropped := DisposeTransport(c).effects, DropCalls(c.calls).effects;
      DisposeStory(c);
      DroppingUntold(c.calls);
      WholeStory([StatusChanged(Disposed)]);
      StoryBefore(disposed, dropped);
      StoryAppend(disposed + dropped, [StatusChanged(Disposed)]);
    } else {
      SilentFits(c.link, Close(c));
    }
    hide Story;
  }

  lemma PartsUntold(resubscribed: seq<Effect>, sent: seq<Effect>, transport: Option<nat>)
    requires Resubscribing(resubscribed, transport) && AboutRequests(sent, transport)
    ensures Untold(resubscribed) && Untold(sent)
  {
  }

  lemma BecomeStory(c: Client)
    ensures ReportsOnly(c.link, BecomeConnected(c).client.link, Story(BecomeConnected(c).effects))
  {
    var up := EnterConnected(c);
    var resubscribed, sent, resolved := Resubscribe(up), SendRequests(up).effects, ResolveConnect(up.link).effects;
    ResubscribingOnly(up);
    SendingOnly(up);
    PartsUntold(resubscribed, sent, up.link.transport);
    assert Untold(resolved);
    WholeStory([StatusChanged(Connected)]);
    hide SendRequests, Resubscribe, Story, Untold;
    StoryBefore([StatusChanged(Connected)], resubscribed);
    StoryBefore([StatusChanged(Connected)] + resubscribed, sent);
    StoryBefore([StatusChanged(Connected)] + resubscribed + sent, resolved);
  }

  lemma RefuseStory(c: Client)
    requires !c.link.status.Disposed?
    ensures ClosesAndReports(c.link, RefuseAuthentication(c).client.link, Story(RefuseAuthentication(c).effects))
  {
    var rejected := RejectConnect(c.link.(shouldReconnect := false));
    hide TearDown, Story;
    TearDownStory(c.(link := rejected.link));
    StoryBehind(rejected.effects, TearDown(c.(link := rejected.link)).effects);
  }

  lemma MessageFits(c: Client, m: SessionMessage)
    requires !c.link.status.Disposed?
    ensures Fits(c.link, HandleMessage(c, m))
  {
    hide RefuseAuthentication, BecomeConnected;
    if m.ServerInfo? {
      RefuseStory(c);
      BecomeStory(c);
      SilentFits(c.link, Next(c, []));
    } else {
      if m.Response? || m.RpcError? {
        SettlingUntold(Selected(c.calls.waiters, m), ByMessage(m.requestId));
      }
      SilentFits(c.link, HandleMessage(c, m));
    }
    hide Story, SettleAll;
  }

  lemma FrameFits(c: Client, f: Frame)
    requires !c.link.status.Disposed?
    ensures Fits(c.link, HandleFrame(c, f))
  {
    hide HandleMessage;
    match f {
      case Session(m) =>
        MessageFits(Heard(c), m);
        StoryBehind([ValidFrame], HandleMessage(Heard(c), m).effects);
      case Binary(Some(requestId)) =>
        MessageFits(Heard(c), Response(FILE_RESPONSE, requestId, FILE_PAYLOAD));
        StoryBehind([ValidFrame], HandleMessage(Heard(c), Response(FILE_RESPONSE, requestId, FILE_PAYLOAD)).effects);
      case Invalid(Some(requestId)) =>
        SettlingUntold(OfRequest(c.calls.waiters, requestId), ByInvalidMessage(requestId));
        SilentFits(c.link, HandleFrame(c, f));
      case _ => SilentFits(c.link, HandleFrame(c, f));
    }
    hide Story;
  }

  lemma TransportFits(c: Client, e: TransportEvent)
    requires Inv(c)
    ensures Fits(c.link, HandleTransport(c, e))
  {
    hide HandleFrame, ScheduleReconnect, Story;
    if c.link.transport.None? || e.Open? || e == Failed(true) {
      hide Fits;
      SilentFits(c.link, HandleTransport(c, e));
    } else if e.Message? {
      hide Fits;
      FrameFits(c, e.frame);
    } else {
      ScheduleStory(c.(link := c.link.(connectTimer := false, genericErrorTimer := false)));
    }
  }

  lemma PingFits(c: Client)
    requires Inv(c)
    ensures Fits(c.link, PingTimeout(c))
  {
    hide TearDown;
    if c.heart.probe.Some? {
      var quiet := c.(heart := RejectProbe(c.heart).(failures := 0));
      TearDownStory(quiet);
      StoryBehind([HeartbeatFailed, LivenessTeardown], TearDown(quiet).effects);
    }
    assert Untold(PingTimeout(c).effects) ==> Story(PingTimeout(c).effects) == [] by {
      if Untold(PingTimeout(c).effects) {
        NoStory(PingTimeout(c).effects);
      }
    }
    hide Story;
  }

  lemma TimerFits(c: Client, e: Event)
    requires Inv(c) && (e.OnReconnectTimer? || e.OnConnectTimer? || e.OnGenericErrorTimer?)
    ensures Fits(c.link, Step(c, e))
  {
    hide AttemptConnect, TearDown, ScheduleReconnect;
    NoStory([]);
    hide Story;
    match e {
      case OnReconnectTimer(attempt) => AttemptFits(c.(link := c.link.(reconnectTimer := false)), attempt);
      case OnConnectTimer =>
        if c.link.status.Connecting? {
          TearDownStory(c);
        }
      case OnGenericErrorTimer =>
        if !c.link.status.Disposed? {
          ScheduleStory(c.(link := c.link.(genericErrorTimer := false)));
        }
    }
  }

  lemma OtherFits(c: Client, e: Event)
    requires e.CallSetReconnectEnabled? || e.CallRequest? || e.CallSubscribe? || e.CallUnsubscribe?
          || e.CallMeasureLatency? || e.OtherSubscriptions? || e.OnHeartbeatTimer? || e.OnWaiterTimer?
          || e.OnQueueTimer?
    ensures Fits(c.link, Step(c, e))
  {
    SilentFits(c.link, Step(c, e));
    hide Story;
  }

  /** Every step tells of its status and its transports in one of four ways. */
  lemma StepFits(c: Client, e: Event)
    requires Inv(c)
    ensures Fits(c.link, Step(c, e))
  {
    hide Fits, Inv;
    match e {
      case CallConnect(attempt) => ConnectFits(c, attempt); hide Connect;
      case CallEnsureConnected(attempt) => ConnectFits(c, attempt); hide EnsureConnected;
      case CallClose => CloseFits(c); hide Close;
      case OnTransport(event) => TransportFits(c, event); hide HandleTransport;
      case OnPingTimer => PingFits(c); hide PingTimeout;
      case OnReconnectTimer(_) => TimerFits(c, e); hide Step;
      case OnConnectTimer => TimerFits(c, e); hide Step;
      case OnGenericErrorTimer => TimerFits(c, e); hide Step;
      case _ => OtherFits(c, e); hide Step;
    }
  }

  // ---------------------------------------------------------------------------
  // Whole runs
  // ---------------------------------------------------------------------------

  /** The status a listener knows: the one reported last. */
  function Reported(es: seq<Effect>): Status {
    if es == [] then Idle
    else if es[|es| - 1].StatusChanged? then es[|es| - 1].status
    else Reported(es[..|es| - 1])
  }

  function Opened(es: seq<Effect>, t: nat): nat {
    if es == [] then 0 else Opened(es[..|es| - 1], t) + if es[|es| - 1] == TransportOpened(t) then 1 else 0
  }

  function Closed(es: seq<Effect>, t: nat): nat {
    if es == [] then 0 else Closed(es[..|es| - 1], t) + if es[|es| - 1] == TransportClosed(t) then 1 else 0
  }

  lemma SnocCounts(es: seq<Effect>, e: Effect, t: nat)
    ensures Reported(es + [e]) == if e.StatusChanged? then e.status else Reported(es)
    ensures Opened(es + [e], t) == Opened(es, t) + if e == TransportOpened(t) then 1 else 0
    ensures Closed(es + [e], t) == Closed(es, t) + if e == TransportClosed(t) then 1 else 0
  {
    assert (es + [e])[..|es + [e]| - 1] == es;
  }

  lemma StoryOne(e: Effect)
    ensures Story([e]) == if Tells(e) then [e] else []
  {
    assert [e][1..] == [];
  }

  /** Two stretches of effects tell the same. */
  predicate TellSame(a: seq<Effect>, b: seq<Effect>, t: nat) {
    Reported(a) == Reported(b) && Opened(a, t) == Opened(b, t) && Closed(a, t) == Closed(b, t)
  }

  lemma TellOneMore(a: seq<Effect>, b: seq<Effect>, e: Effect, t: nat)
    requires TellSame(a, b, t)
    ensures TellSame(a + [e], b + Story([e]), t)
  {
    StoryOne(e);
    SnocCounts(a, e, t);
    SnocCounts(b, e, t);
    assert b + [] == b;
    hide Story, Reported, Opened, Closed;
  }

  /** Only what tells counts. */
  lemma {:induction false} StoryCounts(pre: seq<Effect>, es: seq<Effect>, t: nat)
    ensures TellSame(pre + es, pre + Story(es), t)
    decreases |es|
  {
    if es == [] {
      assert Story(es) == es;
    } else {
      hide Story, TellSame;
      var earlier, e := es[..|es| - 1], es[|es| - 1];
      StoryCounts(pre, earlier, t);
      TellOneMore(pre + earlier, pre + Story(earlier), e, t);
      assert es == earlier + [e];
      Assoc(pre, earlier, [e]);
      StoryAppend(earlier, [e]);
      Assoc(pre, Story(earlier), Story([e]));
    }
  }

  /** The listeners know the status; of each transport it is known when it was opened and closed. */
  predicate Known(es: seq<Effect>, link: Link, t: nat) {
    && Reported(es) == link.status
    && Opened(es, t) == (if t < link.nextTransport then 1 else 0)
    && Closed(es, t) == (if t < link.nextTransport && link.transport != Some(t) then 1 else 0)
  }

  lemma ClosingCounts(es: seq<Effect>, transport: Option<nat>, t: nat)
    ensures Reported(es + Closing(transport)) == Reported(es) && Opened(es + Closing(transport), t) == Opened(es, t)
    ensures Closed(es + Closing(transport), t) == Closed(es, t) + if transport == Some(t) then 1 else 0
  {
    if transport.Some? {
      SnocCounts(es, TransportClosed(transport.value), t);
    } else {
      assert es + [] == es;
    }
  }

  lemma FittingIsKnown(es: seq<Effect>, before: Link, n: Next, t: nat)
    requires Known(es, before, t) && Fits(before, n)
    requires before.transport.Some? ==> before.transport.value < before.nextTransport
    ensures Known(es + n.effects, n.client.link, t)
  {
    StoryCounts(es, n.effects, t);
    var story, closing := Story(n.effects), Closing(before.transport);
    var after := n.client.link;
    hide Story, Reported, Opened, Closed, Closing;
    assert es + [] == es;
    ClosingCounts(es, before.transport, t);
    SnocCounts(es, StatusChanged(after.status), t);
    SnocCounts(es + closing, StatusChanged(after.status), t);
    SnocCounts(es + closing, TransportOpened(before.nextTransport), t);
    SnocCounts(es + closing + [TransportOpened(before.nextTransport)], StatusChanged(Connecting), t);
    assert es + (closing + [StatusChanged(after.status)]) == es + closing + [StatusChanged(after.status)];
    assert es + (closing + [TransportOpened(before.nextTransport), StatusChanged(Connecting)])
        == es + closing + [TransportOpened(before.nextTransport)] + [StatusChanged(Connecting)];
  }

  /**
   * Over every run: the status reported last is the client's; every transport it made was opened
   * once; and each of them but the present one was closed once.
   */
  lemma {:induction false} ConnectionIsKnown(reconnectEnabled: bool, events: seq<Event>, t: nat)
    ensures var run := Run(Initial(reconnectEnabled), events); Known(run.effects, run.client.link, t)
  {
    if events != [] {
      hide Step, Known, Fits;
      var earlier := events[..|events| - 1];
      var before := Run(Initial(reconnectEnabled), earlier);
      ConnectionIsKnown(reconnectEnabled, earlier, t);
      EveryRunInv(reconnectEnabled, earlier);
      StepFits(before.client, events[|events| - 1]);
      FittingIsKnown(before.effects, before.client.link, Step(before.client, events[|events| - 1]), t);
    }
  }
}
