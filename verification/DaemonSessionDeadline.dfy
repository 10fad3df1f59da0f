/**
 * Deadlines. A connecting client ends its attempt by itself when a timer runs out, unless its
 * transport opened after it had reported an error without details: then both timers of the attempt
 * are gone, and only the last ping of an earlier connection can still end it.
 */
module DaemonSessionDeadline {
  import opened Wrappers
  import opened DaemonSession
  import opened DaemonSessionInvariant
  import opened DaemonSessionShapes
  import opened DaemonSessionExamples

  /** What the present transport went through: an error without details, and an opening after it. */
  datatype Trouble = Calm | Failing | Cleared

  predicate Fails(e: Event) { e.OnTransport? && e.event == Failed(true) }

  predicate IsOpening(e: Event) { e.OnTransport? && e.event == Open }

  function After(w: Trouble, e: Event, anew: bool): Trouble {
    if anew then Calm
    else if Fails(e) then Failing
    else if IsOpening(e) && w.Failing? then Cleared
    else w
  }

  /** Either timer ends an attempt that takes too long. */
  predicate Timed(link: Link) { link.connectTimer || link.genericErrorTimer }

  predicate Guarded(link: Link, w: Trouble) {
    link.status.Connecting? ==> (link.connectTimer <==> w.Calm?) && (link.genericErrorTimer <==> w.Failing?)
  }

  /** Another transport has been opened. */
  predicate Reopened(before: Link, after: Link) { after.nextTransport != before.nextTransport }

  /** A step that leaves a client connecting opened a transport, or found it so. */
  predicate Continues(before: Link, after: Link, e: Event) {
    && after.nextTransport >= before.nextTransport
    && (Fails(e) || IsOpening(e) ==> !Reopened(before, after))
    && (after.status.Connecting? ==>
          if Reopened(before, after) then after.connectTimer && !after.genericErrorTimer
          else
            && before.status.Connecting?
            && after.connectTimer == (before.connectTimer && !Fails(e))
            && after.genericErrorTimer == (Fails(e) || (before.genericErrorTimer && !IsOpening(e))))
  }

  lemma AttemptContinues(c: Client, attempt: Attempt, e: Event)
    requires Inv(c) && !Fails(e) && !IsOpening(e)
    ensures Continues(c.link, AttemptConnect(c, attempt).client.link, e)
  {
    hide DropCalls, Inv;
  }

  lemma ConnectContinues(c: Client, attempt: Attempt, e: Event)
    requires Inv(c) && !Fails(e) && !IsOpening(e)
    ensures Continues(c.link, Connect(c, attempt).client.link, e)
  {
    if !c.link.status.Disposed? {
      AttemptContinues(c.(link := c.link.(shouldReconnect := true, connectHandlers := true)), attempt, e);
    }
    hide AttemptConnect;
  }

  lemma EnsureContinues(c: Client, attempt: Attempt, e: Event)
    requires Inv(c) && !Fails(e) && !IsOpening(e)
    ensures Continues(c.link, EnsureConnected(c, attempt).client.link, e)
  {
    if !c.link.status.Disposed? {
      ConnectContinues(c.(link := c.link.(shouldReconnect := true)), attempt, e);
    }
    hide Connect;
  }

  /** A loss ends the attempt. */
  lemma LossContinues(c: Client)
    ensures var link := ScheduleReconnect(c).client.link;
            !link.status.Connecting? && link.nextTransport == c.link.nextTransport
    ensures var link := TearDown(c).client.link;
            !link.status.Connecting? && link.nextTransport == c.link.nextTransport
  {
    hide DropCalls, LinkDown;
    DownContinues(c.link.(reconnectTimer := false));
    DownContinues(DisposeTransport(c).client.link.(reconnectTimer := false));
  }

  lemma DownContinues(link: Link)
    ensures !LinkDown(link).link.status.Connecting? && LinkDown(link).link.nextTransport == link.nextTransport
  {
  }

  lemma MessageContinues(c: Client, m: SessionMessage)
    ensures var link := HandleMessage(c, m).client.link;
            link == c.link || (!link.status.Connecting? && link.nextTransport == c.link.nextTransport)
  {
    hide TearDown, SendRequests, ResolveWaiters;
    if m.ServerInfo? {
      LossContinues(c.(link := RejectConnect(c.link.(shouldReconnect := false)).link));
      SendingOnly(EnterConnected(c));
    }
  }

  lemma FrameContinues(c: Client, f: Frame)
    ensures Continues(c.link, HandleFrame(c, f).client.link, OnTransport(Message(f)))
  {
    hide HandleMessage, RejectWaiters;
    match f {
      case Session(m) => MessageContinues(Heard(c), m);
      case Binary(Some(requestId)) => MessageContinues(Heard(c), Response(FILE_RESPONSE, requestId, FILE_PAYLOAD));
      case _ =>
    }
  }

  lemma TransportContinues(c: Client, event: TransportEvent)
    requires Inv(c)
    ensures Continues(c.link, HandleTransport(c, event).client.link, OnTransport(event))
  {
    hide ScheduleReconnect, HandleFrame;
    match event {
      case Message(frame) => FrameContinues(c, frame);
      case _ => LossContinues(c.(link := c.link.(connectTimer := false, genericErrorTimer := false)));
    }
  }

  lemma PingContinues(c: Client)
    ensures Continues(c.link, PingTimeout(c).client.link, OnPingTimer)
  {
    hide TearDown;
    LossContinues(c.(heart := RejectProbe(c.heart).(failures := 0)));
  }

  lemma TimerContinues(c: Client, e: Event)
    requires Inv(c) && (e.OnReconnectTimer? || e.OnConnectTimer? || e.OnGenericErrorTimer?)
    ensures Continues(c.link, Step(c, e).client.link, e)
  {
    hide AttemptConnect, TearDown, ScheduleReconnect;
    match e {
      case OnReconnectTimer(attempt) => AttemptContinues(c.(link := c.link.(reconnectTimer := false)), attempt, e);
      case OnConnectTimer => LossContinues(c);
      case OnGenericErrorTimer => LossContinues(c.(link := c.link.(genericErrorTimer := false)));
    }
  }

  lemma OtherContinues(c: Client, e: Event)
    requires e.CallClose? || e.CallSetReconnectEnabled? || e.CallRequest? || e.CallSubscribe? || e.CallUnsubscribe?
          || e.CallMeasureLatency? || e.OtherSubscriptions? || e.OnHeartbeatTimer? || e.OnWaiterTimer?
          || e.OnQueueTimer?
    ensures Continues(c.link, Step(c, e).client.link, e)
  {
    hide DropCalls;
  }

  lemma StepContinues(c: Client, e: Event)
    requires Inv(c)
    ensures Continues(c.link, Step(c, e).client.link, e)
  {
    match e {
      case CallConnect(attempt) => ConnectContinues(c, attempt, e); hide Connect;
      case CallEnsureConnected(attempt) => EnsureContinues(c, attempt, e); hide EnsureConnected;
      case OnTransport(event) => TransportContinues(c, event); hide HandleTransport;
      case OnReconnectTimer(_) => TimerContinues(c, e); hide Step;
      case OnConnectTimer => TimerContinues(c, e); hide Step;
      case OnGenericErrorTimer => TimerContinues(c, e); hide Step;
      case OnPingTimer => PingContinues(c); hide PingTimeout;
      case _ => OtherContinues(c, e); hide Step;
    }
  }

  function Watch(reconnectEnabled: bool, events: seq<Event>): Trouble {
    if events == [] then Calm
    else
      var earlier := events[..|events| - 1];
      After(Watch(reconnectEnabled, earlier), events[|events| - 1],
            Reopened(LinkAfter(reconnectEnabled, earlier), LinkAfter(reconnectEnabled, events)))
  }

  lemma RunContinues(reconnectEnabled: bool, events: seq<Event>)
    requires events != []
    ensures var earlier := events[..|events| - 1];
            Continues(LinkAfter(reconnectEnabled, earlier), LinkAfter(reconnectEnabled, events), events[|events| - 1])
  {
    hide Step, Inv, Continues;
    var earlier := events[..|events| - 1];
    EveryRunInv(reconnectEnabled, earlier);
    StepContinues(Run(Initial(reconnectEnabled), earlier).client, events[|events| - 1]);
  }

  lemma {:induction false} RunGuarded(reconnectEnabled: bool, events: seq<Event>)
    ensures Guarded(LinkAfter(reconnectEnabled, events), Watch(reconnectEnabled, events))
  {
    if events != [] {
      RunGuarded(reconnectEnabled, events[..|events| - 1]);
      RunContinues(reconnectEnabled, events);
      hide LinkAfter;
    }
  }

  // ---------------------------------------------------------------------------
  // What that means for a run
  // ---------------------------------------------------------------------------

  /** The last error without details came at `i`, on the present transport. */
  predicate FailedLastAt(reconnectEnabled: bool, events: seq<Event>, i: nat) {
    && i < |events| && Fails(events[i])
    && (forall k :: i < k < |events| ==> !Fails(events[k]))
    && !Reopened(LinkAfter(reconnectEnabled, events[..i]), LinkAfter(reconnectEnabled, events))
  }

  predicate OpensAfter(events: seq<Event>, i: nat) {
    exists j :: i < j < |events| && IsOpening(events[j])
  }

  lemma {:induction false} TransportsGrow(reconnectEnabled: bool, events: seq<Event>, i: nat)
    requires i <= |events|
    ensures LinkAfter(reconnectEnabled, events[..i]).nextTransport <= LinkAfter(reconnectEnabled, events).nextTransport
  {
    if i < |events| {
      var earlier := events[..|events| - 1];
      TransportsGrow(reconnectEnabled, earlier, i);
      RunContinues(reconnectEnabled, events);
      hide LinkAfter;
      assert earlier[..i] == events[..i];
    } else {
      assert events[..i] == events;
    }
  }

  /** One step more does not move the last error, unless it is one or opens another transport. */
  lemma FailedLastStep(reconnectEnabled: bool, events: seq<Event>, i: nat)
    requires events != [] && i < |events| - 1
    ensures var earlier, e := events[..|events| - 1], events[|events| - 1];
            FailedLastAt(reconnectEnabled, events, i)
            <==> FailedLastAt(reconnectEnabled, earlier, i) && !Fails(e)
                 && !Reopened(LinkAfter(reconnectEnabled, earlier), LinkAfter(reconnectEnabled, events))
  {
    var earlier := events[..|events| - 1];
    hide LinkAfter, Fails;
    assert earlier[..i] == events[..i] && earlier[i] == events[i];
    TransportsGrow(reconnectEnabled, earlier, i);
    RunContinues(reconnectEnabled, events);
    assert forall k :: i < k < |earlier| ==> earlier[k] == events[k];
  }

  lemma OpensAfterStep(events: seq<Event>, i: nat)
    requires events != [] && i < |events| - 1
    ensures var earlier, e := events[..|events| - 1], events[|events| - 1];
            OpensAfter(events, i) <==> OpensAfter(earlier, i) || IsOpening(e)
  {
    hide IsOpening;
    var earlier := events[..|events| - 1];
    if j :| i < j < |events| && IsOpening(events[j]) && j < |earlier| {
      assert IsOpening(earlier[j]);
    }
    if j :| i < j < |earlier| && IsOpening(earlier[j]) {
      assert IsOpening(events[j]);
    }
  }

  lemma {:induction false} WatchMeans(reconnectEnabled: bool, events: seq<Event>)
    ensures var w := Watch(reconnectEnabled, events);
            && (forall i: nat :: FailedLastAt(reconnectEnabled, events, i) ==>
                  !w.Calm? && (w.Cleared? <==> OpensAfter(events, i)))
            && (!w.Calm? ==> exists i: nat :: FailedLastAt(reconnectEnabled, events, i))
  {
    if events != [] {
      var n := |events| - 1;
      var earlier, w := events[..n], Watch(reconnectEnabled, events);
      WatchMeans(reconnectEnabled, earlier);
      RunContinues(reconnectEnabled, events);
      hide LinkAfter;
      forall i: nat | FailedLastAt(reconnectEnabled, events, i)
        ensures !w.Calm? && (w.Cleared? <==> OpensAfter(events, i))
      {
        if i < n {
          FailedLastStep(reconnectEnabled, events, i);
          OpensAfterStep(events, i);
        }
      }
      if !w.Calm? {
        if Fails(events[n]) {
          assert FailedLastAt(reconnectEnabled, events, n);
        } else {
          var i: nat :| FailedLastAt(reconnectEnabled, earlier, i);
          FailedLastStep(reconnectEnabled, events, i);
          OpensAfterStep(events, i);
        }
      }
    }
  }

  /** The present transport opened after its last error without details. */
  ghost predicate OpenedAfterError(reconnectEnabled: bool, events: seq<Event>) {
    exists i: nat :: FailedLastAt(reconnectEnabled, events, i) && OpensAfter(events, i)
  }

  // ---------------------------------------------------------------------------
  // Ending by itself
  // ---------------------------------------------------------------------------

  /** The ping in flight is a heartbeat's, and its failure would be the last one tolerated. */
  predicate LastPing(heart: Heart) {
    heart.probe == Some(Probe(true)) && heart.failures + 1 >= LIVENESS_FAILURE_RECONNECT_THRESHOLD
  }

  /** Events that neither the transport nor `close()` brings about: calls and timers. */
  predicate OwnDoing(e: Event) { !e.OnTransport? && !e.CallClose? }

  predicate AllOwnDoing(events: seq<Event>) {
    forall i :: 0 <= i < |events| ==> OwnDoing(events[i])
  }

  /** The attempt can end without word from the transport. */
  ghost predicate EndsByItself(c: Client) {
    exists events :: AllOwnDoing(events) && !Run(c, events).client.link.status.Connecting?
  }

  /** No timer of the client's will end the attempt. */
  predicate Stalled(c: Client) {
    c.link.status.Connecting? && !Timed(c.link) && !LastPing(c.heart) && !c.heart.timer
  }

  predicate AnswersNobody(es: seq<Effect>) {
    forall i :: 0 <= i < |es| ==> !es[i].ConnectResolved? && !es[i].ConnectRejected? && !es[i].TransportOpened?
  }

  lemma StalledStep(c: Client, e: Event)
    requires Stalled(c) && OwnDoing(e)
    ensures Stalled(Step(c, e).client) && AnswersNobody(Step(c, e).effects)
  {
  }

  /**
   * However often it is asked to connect and whatever timers fire, a stalled client stays as it
   * is until the transport reports something or the client is closed; nobody is answered.
   */
  lemma {:induction false} StalledStays(c: Client, events: seq<Event>)
    requires Stalled(c) && AllOwnDoing(events)
    ensures Stalled(Run(c, events).client) && AnswersNobody(Run(c, events).effects)
  {
    if events != [] {
      hide Step, Stalled;
      StalledStays(c, events[..|events| - 1]);
      StalledStep(Run(c, events[..|events| - 1]).client, events[|events| - 1]);
    }
  }

  lemma EndingStep(c: Client) returns (e: Event)
    requires Inv(c) && c.link.status.Connecting? && (Timed(c.link) || LastPing(c.heart))
    ensures OwnDoing(e) && !Step(c, e).client.link.status.Connecting?
  {
    hide ScheduleReconnect, TearDown;
    if c.link.connectTimer {
      e := OnConnectTimer;
      LossContinues(c);
    } else if c.link.genericErrorTimer {
      e := OnGenericErrorTimer;
      LossContinues(c.(link := c.link.(genericErrorTimer := false)));
    } else {
      e := OnPingTimer;
      LossContinues(c.(heart := RejectProbe(c.heart).(failures := 0)));
    }
  }

  lemma TimedEnds(c: Client)
    requires Inv(c) && c.link.status.Connecting? && (Timed(c.link) || LastPing(c.heart))
    ensures EndsByItself(c)
  {
    hide Step, Inv;
    var e := EndingStep(c);
    RunStep(c, [], e);
    assert [] + [e] == [e] && Run(c, []).client == c;
    hide Run, OwnDoing;
    assert AllOwnDoing([e]) && !Run(c, [e]).client.link.status.Connecting?;
  }

  lemma StalledNeverEnds(c: Client)
    requires Stalled(c)
    ensures !EndsByItself(c)
  {
    hide Run, AllOwnDoing;
    forall events | AllOwnDoing(events) ensures Run(c, events).client.link.status.Connecting? {
      StalledStays(c, events);
    }
  }

  /** An attempt can end by itself exactly if one of three timers is there to end it. */
  lemma EndsExactly(c: Client)
    requires Inv(c) && c.link.status.Connecting?
    ensures EndsByItself(c) <==> Timed(c.link) || LastPing(c.heart)
  {
    hide EndsByItself;
    if Timed(c.link) || LastPing(c.heart) {
      TimedEnds(c);
    } else {
      StalledNeverEnds(c);
    }
  }

  /**
   * Over every run: a connecting client can end its attempt by itself if and only if its present
   * transport did not open after the last error without details it reported, or the last
   * heartbeat ping tolerated is in flight. The former is what keeps the connect timer or the
   * error timer armed.
   */
  lemma ConnectingIsTimed(reconnectEnabled: bool, events: seq<Event>)
    requires LinkAfter(reconnectEnabled, events).status.Connecting?
    ensures Timed(LinkAfter(reconnectEnabled, events)) <==> !OpenedAfterError(reconnectEnabled, events)
    ensures var c := Run(Initial(reconnectEnabled), events).client;
            EndsByItself(c) <==> !OpenedAfterError(reconnectEnabled, events) || LastPing(c.heart)
  {
    var c := Run(Initial(reconnectEnabled), events).client;
    assert c.link == LinkAfter(reconnectEnabled, events);
    hide LinkAfter, FailedLastAt, OpensAfter, Run, EndsByItself, Inv;
    RunGuarded(reconnectEnabled, events);
    WatchMeans(reconnectEnabled, events);
    EveryRunInv(reconnectEnabled, events);
    EndsExactly(c);
  }

  lemma FailThenOpen(c: Client)
    requires c.link.transport.Some?
    ensures Step(Step(c, OnTransport(Failed(true))).client, OnTransport(Open)).client
         == c.(link := c.link.(connectTimer := false, genericErrorTimer := false))
  {
  }

  /** An error without details, and then the opening of the transport, stall a first `connect()`. */
  lemma OpenAfterErrorStalls()
    ensures var c := Run(Initial(true), [DIAL, OnTransport(Failed(true)), OnTransport(Open)]).client;
            && Stalled(c) && c.link.shouldReconnect && c.link.connectHandlers && !c.link.reconnectTimer
  {
    var c, fail, open := Initial(true), OnTransport(Failed(true)), OnTransport(Open);
    hide Step;
    RunStep(c, [], DIAL);
    RunStep(c, [DIAL], fail);
    RunStep(c, [DIAL, fail], open);
    assert [] + [DIAL] == [DIAL] && [DIAL] + [fail] == [DIAL, fail] && [DIAL, fail] + [open] == [DIAL, fail, open];
    hide Run;
    FirstDial(true);
    FailThenOpen(Step(c, DIAL).client);
  }
}
