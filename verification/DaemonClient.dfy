/**
 * The daemon client as an object that updates its fields in place. Every method is held to the
 * step function of the session, so what is proved about all runs holds of every such object.
 */
module DaemonClientObject {
  import opened Wrappers
  import opened Sequences
  import opened SubscriptionKey
  import S = DaemonSession
  import Invariant = DaemonSessionInvariant
  import Conservation = DaemonSessionConservation
  import Shapes = DaemonSessionShapes

  lemma RemoveFirst(w: S.Waiter, rest: seq<S.Waiter>, id: nat)
    ensures S.RemoveWaiter([w] + rest, id) == if w.id == id then rest else [w] + S.RemoveWaiter(rest, id)
  {
    assert ([w] + rest)[1..] == rest;
  }

  lemma {:induction false} RemoveAt(kept: seq<S.Waiter>, w: S.Waiter, rest: seq<S.Waiter>)
    requires forall k :: k in kept ==> k.id != w.id
    ensures S.RemoveWaiter(kept + ([w] + rest), w.id) == kept + rest
    decreases kept
  {
    hide S.RemoveWaiter;
    if kept == [] {
      RemoveFirst(w, rest, w.id);
      assert kept + ([w] + rest) == [w] + rest && kept + rest == rest;
    } else {
      var tail := kept[1..] + ([w] + rest);
      assert kept + ([w] + rest) == [kept[0]] + tail;
      RemoveFirst(kept[0], tail, w.id);
      RemoveAt(kept[1..], w, rest);
      assert kept + rest == [kept[0]] + (kept[1..] + rest);
    }
  }

  /** A loop that resolves waiters has visited `i` of them, kept some and settled the others. */
  ghost predicate Resolving(ws: seq<S.Waiter>, i: nat, m: S.SessionMessage, how: S.Settlement,
                            kept: seq<S.Waiter>, done: seq<S.Effect>) {
    && i <= |ws|
    && (forall a, b :: 0 <= a < |kept| && i <= b < |ws| ==> kept[a].id != ws[b].id)
    && kept + S.Unselected(ws[i..], m) == S.Unselected(ws, m)
    && done + S.SettleAll(S.Selected(ws[i..], m), how) == S.SettleAll(S.Selected(ws, m), how)
  }

  ghost predicate Rejecting(ws: seq<S.Waiter>, i: nat, requestId: string, how: S.Settlement,
                            kept: seq<S.Waiter>, done: seq<S.Effect>) {
    && i <= |ws|
    && (forall a, b :: 0 <= a < |kept| && i <= b < |ws| ==> kept[a].id != ws[b].id)
    && kept + S.WithoutRequest(ws[i..], requestId) == S.WithoutRequest(ws, requestId)
    && done + S.SettleAll(S.OfRequest(ws[i..], requestId), how) == S.SettleAll(S.OfRequest(ws, requestId), how)
  }

  lemma ResolvingStarts(ws: seq<S.Waiter>, m: S.SessionMessage, how: S.Settlement)
    ensures Resolving(ws, 0, m, how, [], [])
  {
    assert ws[0..] == ws;
  }

  lemma ResolvingEnds(ws: seq<S.Waiter>, m: S.SessionMessage, how: S.Settlement,
                      kept: seq<S.Waiter>, done: seq<S.Effect>)
    requires Resolving(ws, |ws|, m, how, kept, done)
    ensures kept + ws[|ws|..] == kept
    ensures kept == S.Unselected(ws, m) && done == S.SettleAll(S.Selected(ws, m), how)
  {
    assert ws[|ws|..] == [];
  }

  lemma RejectingStarts(ws: seq<S.Waiter>, requestId: string, how: S.Settlement)
    ensures Rejecting(ws, 0, requestId, how, [], [])
  {
    assert ws[0..] == ws;
  }

  lemma RejectingEnds(ws: seq<S.Waiter>, requestId: string, how: S.Settlement,
                      kept: seq<S.Waiter>, done: seq<S.Effect>)
    requires Rejecting(ws, |ws|, requestId, how, kept, done)
    ensures kept + ws[|ws|..] == kept
    ensures kept == S.WithoutRequest(ws, requestId) && done == S.SettleAll(S.OfRequest(ws, requestId), how)
  {
    assert ws[|ws|..] == [];
  }

  lemma ResolveNext(ws: seq<S.Waiter>, i: nat, m: S.SessionMessage, how: S.Settlement,
                    kept: seq<S.Waiter>, done: seq<S.Effect>)
    requires Conservation.DistinctIds(ws) && i < |ws| && Resolving(ws, i, m, how, kept, done)
    ensures S.Selects(ws[i], m) ==>
      Resolving(ws, i + 1, m, how, kept, done + [S.WaiterSettled(ws[i].id, ws[i].requestId, how)])
    ensures !S.Selects(ws[i], m) ==> Resolving(ws, i + 1, m, how, kept + [ws[i]], done)
    ensures forall a :: 0 <= a < |kept| ==> kept[a].id != ws[i].id
  {
    hide S.Selects;
    var w, more := ws[i], ws[i + 1..];
    assert ws[i..][1..] == more;
    if S.Selects(w, m) {
      assert ([w] + S.Selected(more, m))[1..] == S.Selected(more, m);
      var settled, rest := [S.WaiterSettled(w.id, w.requestId, how)], S.SettleAll(S.Selected(more, m), how);
      assert S.SettleAll(S.Selected(ws[i..], m), how) == settled + rest;
      assert done + (settled + rest) == (done + settled) + rest;
    } else {
      assert kept + ([w] + S.Unselected(more, m)) == (kept + [w]) + S.Unselected(more, m);
    }
  }

  lemma RejectNext(ws: seq<S.Waiter>, i: nat, requestId: string, how: S.Settlement,
                   kept: seq<S.Waiter>, done: seq<S.Effect>)
    requires Conservation.DistinctIds(ws) && i < |ws| && Rejecting(ws, i, requestId, how, kept, done)
    ensures ws[i].requestId == requestId ==>
      Rejecting(ws, i + 1, requestId, how, kept, done + [S.WaiterSettled(ws[i].id, ws[i].requestId, how)])
    ensures ws[i].requestId != requestId ==> Rejecting(ws, i + 1, requestId, how, kept + [ws[i]], done)
    ensures forall a :: 0 <= a < |kept| ==> kept[a].id != ws[i].id
  {
    var w, more := ws[i], ws[i + 1..];
    assert ws[i..][1..] == more;
    if w.requestId == requestId {
      assert ([w] + S.OfRequest(more, requestId))[1..] == S.OfRequest(more, requestId);
      var settled, rest := [S.WaiterSettled(w.id, w.requestId, how)], S.SettleAll(S.OfRequest(more, requestId), how);
      assert S.SettleAll(S.OfRequest(ws[i..], requestId), how) == settled + rest;
      assert done + (settled + rest) == (done + settled) + rest;
    } else {
      assert kept + ([w] + S.WithoutRequest(more, requestId)) == (kept + [w]) + S.WithoutRequest(more, requestId);
    }
  }

  lemma Visit(kept: seq<S.Waiter>, ws: seq<S.Waiter>, i: nat)
    requires i < |ws|
    ensures kept + ws[i..] == kept + ([ws[i]] + ws[i + 1..]) == (kept + [ws[i]]) + ws[i + 1..]
  {
    assert ws[i..] == [ws[i]] + ws[i + 1..];
  }

  /** Cancelling the request made last restores the waiters before it. */
  lemma CancelLast(before: seq<S.Waiter>, w: S.Waiter)
    requires forall k :: k in before ==> k.id < w.id
    ensures S.FindWaiter(before + [w], w.id) == Some(w)
    ensures S.RemoveWaiter(before + [w], w.id) == before
    decreases before
  {
    if before == [] {
      assert before + [w] == [w];
    } else {
      assert (before + [w])[0] == before[0] && (before + [w])[1..] == before[1..] + [w];
      CancelLast(before[1..], w);
    }
  }

  /** Closing may forget what the client wanted before it disposes of the transport. */
  lemma CloseAfterForgetting(c: S.Client, forgotten: S.Client)
    requires !c.link.status.Disposed?
    requires forgotten == c.(link := c.link.(shouldReconnect := false, connectPromise := false,
                                             connectHandlers := false, reconnectTimer := false))
    ensures var disposed := S.DisposeTransport(forgotten);
            var dropped := S.DropCalls(c.calls);
            S.Close(c) == S.Next(S.Client(disposed.client.link.(status := S.Disposed), dropped.calls,
                                          S.RejectProbe(disposed.client.heart), c.registry, c.others.(files := [])),
                                 disposed.effects + dropped.effects + [S.StatusChanged(S.Disposed)])
    ensures S.DisposeTransport(forgotten).client.calls == c.calls
    ensures S.DisposeTransport(forgotten).client.registry == c.registry
    ensures S.DisposeTransport(forgotten).client.others == c.others
  {
  }

  /** A loop that makes requests again has made the first `i` of them. */
  ghost predicate Remaking(c: S.Client, start: seq<S.Effect>, files: seq<string>, now: S.Client,
                           trace: seq<S.Effect>, i: nat) {
    && i <= |files|
    && S.RemakeRequests(now, files[i..]).client == S.RemakeRequests(c, files).client
    && trace + S.RemakeRequests(now, files[i..]).effects == start + S.RemakeRequests(c, files).effects
  }

  lemma RemakeNext(c: S.Client, start: seq<S.Effect>, files: seq<string>, now: S.Client,
                   trace: seq<S.Effect>, i: nat)
    requires i < |files| && Remaking(c, start, files, now, trace, i)
    ensures var one := S.SendRequest(now, files[i], S.FILE_SUBSCRIBE_RESPONSE, S.ANY_PAYLOAD, true);
            Remaking(c, start, files, one.client, trace + one.effects, i + 1)
  {
    hide S.SendRequest;
    var one := S.SendRequest(now, files[i], S.FILE_SUBSCRIBE_RESPONSE, S.ANY_PAYLOAD, true);
    assert files[i..][1..] == files[i + 1..];
    Assoc(trace, one.effects, S.RemakeRequests(one.client, files[i + 1..]).effects);
  }

  /** A new request gets the next id. */
  lemma RequestAdds(c: S.Client, requestId: string, responseType: string, accepts: int -> bool, timed: bool)
    requires forall w :: w in c.calls.waiters ==> w.id < c.calls.nextId
    ensures var calls := S.SendRequest(c, requestId, responseType, accepts, timed).client.calls;
            forall w :: w in calls.waiters ==> w.id < calls.nextId
  {
  }

  class DaemonClient {
    var connectionState: S.Status
    var transport: Option<nat>
    var nextTransport: nat
    var helloDeviceCredential: bool
    var shouldReconnect: bool
    var reconnectEnabled: bool
    var reconnectAttempt: nat
    var connectPromise: bool
    var connectHandlers: bool
    var reconnectTimeout: bool
    var connectTimeout: bool
    var genericErrorTimeout: bool
    var waiters: seq<S.Waiter>
    var pendingSendQueue: seq<S.PendingSend>
    var nextId: nat
    var pingProbe: Option<S.Probe>
    var heartbeatAwaits: bool
    var consecutiveLivenessFailures: nat
    var livenessHeartbeatTimer: bool
    var terminalDirectorySubscriptions: seq<Subscription>
    var checkoutDiffSubscriptions: seq<string>
    var fileSubscriptions: seq<string>

    /** Everything that happened so far, and what made it happen. */
    ghost var trace: seq<S.Effect>
    ghost var history: seq<S.Event>
    ghost const enabled: bool

    function LinkState(): S.Link
      reads `connectionState, `transport, `nextTransport, `helloDeviceCredential, `shouldReconnect, `reconnectEnabled
      reads `reconnectAttempt, `connectPromise, `connectHandlers, `reconnectTimeout, `connectTimeout
      reads `genericErrorTimeout
    {
      S.Link(connectionState, transport, nextTransport, helloDeviceCredential, shouldReconnect, reconnectEnabled,
             reconnectAttempt, connectPromise, connectHandlers, reconnectTimeout, connectTimeout, genericErrorTimeout)
    }

    function CallState(): S.Calls
      reads `waiters, `pendingSendQueue, `nextId
    {
      S.Calls(waiters, pendingSendQueue, nextId)
    }

    function HeartState(): S.Heart
      reads `pingProbe, `heartbeatAwaits, `consecutiveLivenessFailures, `livenessHeartbeatTimer
    {
      S.Heart(pingProbe, heartbeatAwaits, consecutiveLivenessFailures, livenessHeartbeatTimer)
    }

    function OtherState(): S.Others
      reads `checkoutDiffSubscriptions, `fileSubscriptions
    {
      S.Others(checkoutDiffSubscriptions, fileSubscriptions)
    }

    function State(): S.Client
      reads this
    {
      S.Client(LinkState(), CallState(), HeartState(), terminalDirectorySubscriptions, OtherState())
    }

    /** The object moved as the session does. */
    twostate predicate Did(next: S.Next)
      reads this
    {
      State() == next.client && trace == old(trace) + next.effects
    }

    constructor (enabled: bool)
      ensures Valid() && this.enabled == enabled && history == []
    {
      this.enabled, history := enabled, [];
      connectionState, transport, nextTransport := S.Idle, None, 0;
      helloDeviceCredential, shouldReconnect, reconnectEnabled, reconnectAttempt := false, true, enabled, 0;
      connectPromise, connectHandlers, reconnectTimeout, connectTimeout := false, false, false, false;
      genericErrorTimeout, waiters, pendingSendQueue, nextId := false, [], [], 0;
      pingProbe, heartbeatAwaits, consecutiveLivenessFailures, livenessHeartbeatTimer := None, false, 0, false;
      terminalDirectorySubscriptions, checkoutDiffSubscriptions, fileSubscriptions, trace := [], [], [], [];
    }

    // -------------------------------------------------------------------------
    // Waiters and the send queue
    // -------------------------------------------------------------------------

    method ClearWaiters()
      modifies `waiters, `trace
      ensures CallState() == old(CallState()).(waiters := [])
      ensures trace == old(trace) + S.SettleAll(old(CallState()).waiters, S.ByConnectionLoss)
    {
      var i := 0;
      while i < |waiters|
        invariant 0 <= i <= |waiters| && waiters == old(waiters)
        invariant trace + S.SettleAll(waiters[i..], S.ByConnectionLoss)
               == old(trace) + S.SettleAll(waiters, S.ByConnectionLoss)
      {
        assert waiters[i..][1..] == waiters[i + 1..];
        trace := trace + [S.WaiterSettled(waiters[i].id, waiters[i].requestId, S.ByConnectionLoss)];
        i := i + 1;
      }
      waiters := [];
    }

    method RejectPendingSendQueue()
      modifies `pendingSendQueue, `trace
      ensures CallState() == old(CallState()).(queue := [])
      ensures trace == old(trace) + S.RejectAll(old(CallState()).queue)
    {
      var queue := pendingSendQueue;
      pendingSendQueue := [];
      var i := 0;
      while i < |queue|
        invariant 0 <= i <= |queue| && pendingSendQueue == []
        invariant trace + S.RejectAll(queue[i..]) == old(trace) + S.RejectAll(queue)
      {
        assert queue[i..][1..] == queue[i + 1..];
        trace := trace + [S.SendSettled(queue[i].id, S.SendRejected)];
        i := i + 1;
      }
    }

    method FlushPendingSendQueue()
      modifies `pendingSendQueue, `trace
      ensures CallState() == S.FlushCalls(old(CallState()), LinkState()).calls
      ensures trace == old(trace) + S.FlushCalls(old(CallState()), LinkState()).effects
    {
      var queue := pendingSendQueue;
      pendingSendQueue := [];
      ghost var start := trace;
      var i := 0;
      while i < |queue|
        invariant 0 <= i <= |queue| && pendingSendQueue == []
        invariant S.CanSend(LinkState()) ==>
          trace + S.FlushAll(transport.value, queue[i..]) == start + S.FlushAll(transport.value, queue)
        invariant !S.CanSend(LinkState()) ==> trace + S.RejectAll(queue[i..]) == start + S.RejectAll(queue)
      {
        assert queue[i..][1..] == queue[i + 1..];
        if transport.Some? && connectionState.Connected? {
          ghost var rest := S.FlushAll(transport.value, queue[i + 1..]);
          ghost var sent := [S.Sent(transport.value, S.Request(queue[i].id)), S.SendSettled(queue[i].id, S.SendOk)];
          assert trace + (sent + rest) == (trace + sent) + rest;
          trace := trace + sent;
        } else {
          trace := trace + [S.SendSettled(queue[i].id, S.SendRejected)];
        }
        i := i + 1;
      }
    }

    /** Removes a waiter that a loop over a copy of the waiters has reached. */
    method DeleteWaiter(w: S.Waiter, ghost kept: seq<S.Waiter>, ghost rest: seq<S.Waiter>)
      requires waiters == kept + ([w] + rest) && forall a :: 0 <= a < |kept| ==> kept[a].id != w.id
      modifies `waiters
      ensures waiters == kept + rest
    {
      RemoveAt(kept, w, rest);
      waiters := S.RemoveWaiter(waiters, w.id);
    }

    method ResolveWaiters(m: S.SessionMessage, requestId: string)
      requires Conservation.DistinctIds(waiters)
      modifies `waiters, `trace
      ensures CallState() == S.ResolveWaiters(old(CallState()), m, requestId).calls
      ensures trace == old(trace) + S.ResolveWaiters(old(CallState()), m, requestId).effects
    {
      hide Resolving, Conservation.DistinctIds, S.Selects, S.Selected, S.Unselected, S.SettleAll;
      var how := S.ByMessage(requestId);
      var ws, i := waiters, 0;
      ghost var kept: seq<S.Waiter>, done: seq<S.Effect> := [], [];
      ResolvingStarts(ws, m, how);
      while i < |ws|
        invariant i <= |ws| && Resolving(ws, i, m, how, kept, done)
        invariant waiters == kept + ws[i..] && trace == old(trace) + done
      {
        ResolveNext(ws, i, m, how, kept, done);
        Visit(kept, ws, i);
        if S.Selects(ws[i], m) {
          DeleteWaiter(ws[i], kept, ws[i + 1..]);
          trace := trace + [S.WaiterSettled(ws[i].id, ws[i].requestId, how)];
          done := done + [S.WaiterSettled(ws[i].id, ws[i].requestId, how)];
        } else {
          kept := kept + [ws[i]];
        }
        i := i + 1;
      }
      ResolvingEnds(ws, m, how, kept, done);
    }

    method RejectWaitersForRequestId(requestId: string)
      requires Conservation.DistinctIds(waiters)
      modifies `waiters, `trace
      ensures CallState() == S.RejectWaiters(old(CallState()), requestId).calls
      ensures trace == old(trace) + S.RejectWaiters(old(CallState()), requestId).effects
    {
      hide Rejecting, Conservation.DistinctIds, S.OfRequest, S.WithoutRequest, S.SettleAll;
      var how := S.ByInvalidMessage(requestId);
      var ws, i := waiters, 0;
      ghost var kept: seq<S.Waiter>, done: seq<S.Effect> := [], [];
      RejectingStarts(ws, requestId, how);
      while i < |ws|
        invariant i <= |ws| && Rejecting(ws, i, requestId, how, kept, done)
        invariant waiters == kept + ws[i..] && trace == old(trace) + done
      {
        RejectNext(ws, i, requestId, how, kept, done);
        Visit(kept, ws, i);
        if ws[i].requestId == requestId {
          DeleteWaiter(ws[i], kept, ws[i + 1..]);
          trace := trace + [S.WaiterSettled(ws[i].id, ws[i].requestId, how)];
          done := done + [S.WaiterSettled(ws[i].id, ws[i].requestId, how)];
        } else {
          kept := kept + [ws[i]];
        }
        i := i + 1;
      }
      RejectingEnds(ws, requestId, how, kept, done);
    }

    method DropCalls()
      modifies `waiters, `pendingSendQueue, `trace
      ensures CallState() == S.DropCalls(old(CallState())).calls
      ensures trace == old(trace) + S.DropCalls(old(CallState())).effects
    {
      hide S.SettleAll, S.RejectAll, CallState;
      ghost var calls := CallState();
      ClearWaiters();
      RejectPendingSendQueue();
      Assoc(old(trace), S.SettleAll(calls.waiters, S.ByConnectionLoss), S.RejectAll(calls.queue));
    }

    // -------------------------------------------------------------------------
    // Connection lifecycle
    // -------------------------------------------------------------------------

    method UpdateConnectionState(status: S.Status)
      modifies `connectionState, `trace
      ensures LinkState() == old(LinkState()).(status := status)
      ensures trace == old(trace) + [S.StatusChanged(status)]
    {
      connectionState := status;
      trace := trace + [S.StatusChanged(status)];
    }

    method ResolveConnect()
      modifies `connectPromise, `connectHandlers, `trace
      ensures LinkState() == S.ResolveConnect(old(LinkState())).link
      ensures trace == old(trace) + S.ResolveConnect(old(LinkState())).effects
    {
      if connectHandlers {
        trace := trace + [S.ConnectResolved];
      }
      connectPromise := false;
      connectHandlers := false;
    }

    method RejectConnect()
      modifies `connectPromise, `connectHandlers, `trace
      ensures LinkState() == S.RejectConnect(old(LinkState())).link
      ensures trace == old(trace) + S.RejectConnect(old(LinkState())).effects
    {
      if connectHandlers {
        trace := trace + [S.ConnectRejected];
      }
      connectPromise := false;
      connectHandlers := false;
    }

    method RejectPingProbe()
      modifies `pingProbe, `heartbeatAwaits
      ensures HeartState() == S.RejectProbe(old(HeartState()))
    {
      pingProbe := None;
      heartbeatAwaits := false;
    }

    method StopLivenessHeartbeat()
      modifies `livenessHeartbeatTimer
      ensures HeartState() == old(HeartState()).(timer := false)
    {
      livenessHeartbeatTimer := false;
    }

    method CloseTransport()
      modifies `connectTimeout, `genericErrorTimeout, `transport, `trace
      ensures LinkState() == old(LinkState()).(connectTimer := false, genericErrorTimer := false, transport := None)
      ensures trace == old(trace) + if old(LinkState()).transport.Some?
                then [S.TransportClosed(old(LinkState()).transport.value)] else []
    {
      connectTimeout := false;
      genericErrorTimeout := false;
      if transport.Some? {
        trace := trace + [S.TransportClosed(transport.value)];
        transport := None;
      }
    }

    method DisposeTransport()
      modifies `livenessHeartbeatTimer, `connectTimeout, `genericErrorTimeout, `transport, `trace
      ensures Did(S.DisposeTransport(old(State())))
    {
      hide LinkState, CallState, HeartState, OtherState;
      StopLivenessHeartbeat();
      CloseTransport();
    }

    method ArmReconnectTimer()
      modifies `reconnectAttempt, `reconnectTimeout
      ensures LinkState() == old(LinkState()).(reconnectAttempt := old(LinkState()).reconnectAttempt + 1,
                                               reconnectTimer := true)
    {
      reconnectAttempt := reconnectAttempt + 1;
      reconnectTimeout := true;
    }

    method ClearReconnectTimeout()
      modifies `reconnectTimeout
      ensures LinkState() == old(LinkState()).(reconnectTimer := false)
    {
      reconnectTimeout := false;
    }

    /** Reports the loss, and arms the next attempt if there is to be one. */
    method GoDown()
      modifies `connectionState, `connectPromise, `connectHandlers, `reconnectAttempt, `reconnectTimeout, `trace
      ensures LinkState() == S.LinkDown(old(LinkState())).link
      ensures trace == old(trace) + S.LinkDown(old(LinkState())).effects
    {
      var disposed, retries := connectionState.Disposed?, shouldReconnect && reconnectEnabled;
      assert LinkState().status.Disposed? == disposed;
      assert LinkState().shouldReconnect && LinkState().reconnectEnabled <==> retries;
      hide LinkState;
      if disposed {
        RejectConnect();
        return;
      }
      UpdateConnectionState(S.Disconnected);
      if !retries {
        RejectConnect();
        return;
      }
      ArmReconnectTimer();
    }

    method ScheduleReconnect()
      modifies this
      ensures Did(S.ScheduleReconnect(old(State())))
    {
      hide S.LinkDown, S.DropCalls, LinkState, CallState, HeartState, OtherState;
      ghost var c := State();
      ClearReconnectTimeout();
      DropCalls();
      RejectPingProbe();
      GoDown();
      Assoc(old(trace), S.DropCalls(c.calls).effects, S.LinkDown(c.link.(reconnectTimer := false)).effects);
    }

    method TearDown()
      modifies this
      ensures Did(S.TearDown(old(State())))
    {
      hide S.ScheduleReconnect, S.DisposeTransport, State;
      ghost var disposed := S.DisposeTransport(State());
      DisposeTransport();
      ScheduleReconnect();
      Assoc(old(trace), disposed.effects, S.ScheduleReconnect(disposed.client).effects);
    }

    /** A fresh transport replaces the one just disposed of. */
    method NewTransport(credential: bool)
      modifies `helloDeviceCredential, `transport, `nextTransport, `connectionState, `connectTimeout, `trace
      ensures LinkState() == old(LinkState()).(
                transport := Some(old(LinkState()).nextTransport),
                nextTransport := old(LinkState()).nextTransport + 1,
                credential := credential, status := S.Connecting, connectTimer := true)
      ensures trace == old(trace)
                     + [S.TransportOpened(old(LinkState()).nextTransport), S.StatusChanged(S.Connecting)]
    {
      helloDeviceCredential := credential;
      trace := trace + [S.TransportOpened(nextTransport)];
      transport := Some(nextTransport);
      nextTransport := nextTransport + 1;
      UpdateConnectionState(S.Connecting);
      connectTimeout := true;
    }

    method OpenTransport(credential: bool)
      modifies this
      ensures Did(S.OpenTransport(old(State()), credential))
    {
      hide LinkState, CallState, HeartState, OtherState;
      ghost var c := State();
      DisposeTransport();
      NewTransport(credential);
      Assoc(old(trace), S.DisposeTransport(c).effects,
            [S.TransportOpened(c.link.nextTransport), S.StatusChanged(S.Connecting)]);
    }

    /** A bad credential ends all attempts. */
    method GiveUp()
      modifies `shouldReconnect, `connectPromise, `connectHandlers, `trace
      ensures LinkState() == S.RejectConnect(old(LinkState()).(shouldReconnect := false)).link
      ensures trace == old(trace) + S.RejectConnect(old(LinkState()).(shouldReconnect := false)).effects
    {
      shouldReconnect := false;
      RejectConnect();
    }

    method FailAttempt(badCredential: bool)
      modifies this
      ensures Did(S.FailAttempt(old(State()), badCredential))
    {
      hide S.ScheduleReconnect, S.DisposeTransport, S.RejectConnect, LinkState, CallState, HeartState, OtherState;
      ghost var disposed := S.DisposeTransport(State());
      DisposeTransport();
      label Refusing:
      if badCredential {
        GiveUp();
      }
      ghost var refused := if badCredential then S.RejectConnect(disposed.client.link.(shouldReconnect := false))
                           else S.Linked(disposed.client.link, []);
      ghost var scheduled := S.ScheduleReconnect(disposed.client.(link := refused.link));
      assert trace == old(trace) + disposed.effects + refused.effects;
      ScheduleReconnect();
      RejectConnect();
      Assoc(old(trace), disposed.effects, refused.effects);
      Assoc(old(trace), disposed.effects + refused.effects, scheduled.effects);
      Assoc(old(trace), disposed.effects + refused.effects + scheduled.effects,
            S.RejectConnect(scheduled.client.link).effects);
    }

    method AttemptConnect(attempt: S.Attempt)
      modifies this
      ensures Did(S.AttemptConnect(old(State()), attempt))
    {
      hide S.OpenTransport, S.FailAttempt;
      if connectionState.Disposed? || !shouldReconnect {
        RejectConnect();
        return;
      }
      if connectionState.Connecting? {
        return;
      }
      match attempt {
        case Opens(credential) => OpenTransport(credential);
        case Throws(badCredential) => FailAttempt(badCredential);
      }
    }

    method StorePromise()
      modifies `connectPromise
      ensures LinkState() == old(LinkState()).(connectPromise := true)
    {
      connectPromise := true;
    }

    method WantConnection()
      modifies `shouldReconnect, `connectHandlers
      ensures LinkState() == old(LinkState()).(shouldReconnect := true, connectHandlers := true)
    {
      shouldReconnect := true;
      connectHandlers := true;
    }

    method StartConnecting(attempt: S.Attempt)
      requires !State().link.status.Disposed? && !State().link.status.Connected? && !State().link.connectPromise
      modifies this
      ensures Did(S.Connect(old(State()), attempt))
    {
      hide S.AttemptConnect, LinkState, CallState, HeartState, OtherState;
      WantConnection();
      AttemptConnect(attempt);
      StorePromise();
    }

    method Connect(attempt: S.Attempt)
      modifies this
      ensures Did(S.Connect(old(State()), attempt))
    {
      hide S.AttemptConnect;
      if connectionState.Disposed? || connectionState.Connected? || connectPromise {
        return;
      }
      StartConnecting(attempt);
    }

    method EnsureConnected(attempt: S.Attempt)
      modifies this
      ensures Did(S.EnsureConnected(old(State()), attempt))
    {
      hide S.Connect;
      if connectionState.Disposed? {
        return;
      }
      if !shouldReconnect {
        shouldReconnect := true;
      }
      if connectionState.Connected? || connectionState.Connecting? {
        return;
      }
      Connect(attempt);
    }

    method ForgetConnection()
      modifies `shouldReconnect, `connectPromise, `connectHandlers, `reconnectTimeout
      ensures LinkState() == old(LinkState()).(shouldReconnect := false, connectPromise := false,
                                               connectHandlers := false, reconnectTimer := false)
    {
      shouldReconnect := false;
      connectPromise := false;
      connectHandlers := false;
      reconnectTimeout := false;
    }

    method ClearFileSubscriptions()
      modifies `fileSubscriptions
      ensures OtherState() == old(OtherState()).(files := [])
    {
      fileSubscriptions := [];
    }

    /** Nobody waits any longer, and nothing is to be subscribed to again. */
    method SettlePending()
      modifies `waiters, `pendingSendQueue, `pingProbe, `heartbeatAwaits, `fileSubscriptions, `trace
      ensures CallState() == S.DropCalls(old(CallState())).calls
      ensures HeartState() == S.RejectProbe(old(HeartState()))
      ensures OtherState() == old(OtherState()).(files := [])
      ensures trace == old(trace) + S.DropCalls(old(CallState())).effects
    {
      hide S.DropCalls, S.RejectProbe, CallState, HeartState, OtherState;
      DropCalls();
      RejectPingProbe();
      ClearFileSubscriptions();
    }

    method CloseForGood()
      requires !State().link.status.Disposed?
      modifies this
      ensures Did(S.Close(old(State())))
    {
      hide S.DropCalls, S.DisposeTransport, S.Close, S.RejectProbe, LinkState, CallState, HeartState, OtherState;
      ghost var c := State();
      ForgetConnection();
      ghost var gone := S.DisposeTransport(State()).effects;
      CloseAfterForgetting(c, State());
      DisposeTransport();
      SettlePending();
      UpdateConnectionState(S.Disposed);
      Assoc(old(trace), gone, S.DropCalls(c.calls).effects);
      Assoc(old(trace), gone + S.DropCalls(c.calls).effects, [S.StatusChanged(S.Disposed)]);
    }

    method Close()
      modifies this
      ensures Did(S.Close(old(State())))
    {
      if !connectionState.Disposed? {
        CloseForGood();
      }
    }

    // -------------------------------------------------------------------------
    // Sending
    // -------------------------------------------------------------------------

    method WaitForWithCancel(requestId: string, responseType: string, accepts: int -> bool, timed: bool)
      returns (w: S.Waiter)
      modifies `waiters, `nextId, `trace
      ensures w == S.Waiter(old(CallState()).nextId, requestId, responseType, accepts, timed)
      ensures CallState() == old(CallState()).(waiters := old(CallState()).waiters + [w], nextId := w.id + 1)
      ensures trace == old(trace) + [S.RequestMade(w.id, requestId)]
    {
      w := S.Waiter(nextId, requestId, responseType, accepts, timed);
      waiters := waiters + [w];
      nextId := nextId + 1;
      trace := trace + [S.RequestMade(w.id, requestId)];
    }

    method Cancel(id: nat)
      modifies `waiters, `trace
      ensures CallState() == S.CancelWaiter(old(CallState()), id).calls
      ensures trace == old(trace) + S.CancelWaiter(old(CallState()), id).effects
    {
      var found := S.FindWaiter(waiters, id);
      if found.Some? {
        waiters := S.RemoveWaiter(waiters, id);
        trace := trace + [S.WaiterSettled(id, found.value.requestId, S.ByCancel)];
      }
    }

    method Enqueue(id: nat)
      modifies `pendingSendQueue
      ensures CallState() == old(CallState()).(queue := old(CallState()).queue + [S.PendingSend(id)])
    {
      pendingSendQueue := pendingSendQueue + [S.PendingSend(id)];
    }

    /** Where a message goes in the present state. */
    method Route() returns (route: S.Route)
      ensures route == S.RouteFor(LinkState())
    {
      if connectionState.Connected? && transport.Some? {
        return S.SendOn(transport.value);
      } else if connectionState.Connecting? {
        return S.Enqueue;
      } else {
        return S.Refuse;
      }
    }

    method SendNow(t: nat, id: nat)
      modifies `trace
      ensures trace == old(trace) + [S.Sent(t, S.Request(id)), S.SendSettled(id, S.SendOk)]
    {
      trace := trace + [S.Sent(t, S.Request(id)), S.SendSettled(id, S.SendOk)];
    }

    /** The send fails at once, and its waiter is cancelled. */
    method FailSend(w: S.Waiter, ghost before: seq<S.Waiter>)
      requires CallState().waiters == before + [w] && forall k :: k in before ==> k.id < w.id
      modifies `waiters, `trace
      ensures CallState() == old(CallState()).(waiters := before)
      ensures trace == old(trace)
                     + [S.SendSettled(w.id, S.SendRejected), S.WaiterSettled(w.id, w.requestId, S.ByCancel)]
    {
      hide CallState;
      trace := trace + [S.SendSettled(w.id, S.SendRejected)];
      CancelLast(before, w);
      Cancel(w.id);
    }

    method SendRequest(requestId: string, responseType: string, accepts: int -> bool, timed: bool)
      requires forall w :: w in CallState().waiters ==> w.id < CallState().nextId
      modifies this
      ensures Did(S.SendRequest(old(State()), requestId, responseType, accepts, timed))
    {
      hide LinkState, CallState, HeartState, OtherState, S.RouteFor;
      ghost var calls := CallState();
      var w := WaitForWithCancel(requestId, responseType, accepts, timed);
      ghost var made := trace;
      var route := Route();
      match route {
        case SendOn(t) => SendNow(t, w.id);
        case Enqueue => Enqueue(w.id);
        case Refuse => FailSend(w, calls.waiters);
      }
      ghost var rest := match route
        case SendOn(t) => [S.Sent(t, S.Request(w.id)), S.SendSettled(w.id, S.SendOk)]
        case Enqueue => []
        case Refuse => [S.SendSettled(w.id, S.SendRejected), S.WaiterSettled(w.id, w.requestId, S.ByCancel)];
      Assoc(old(trace), [S.RequestMade(w.id, requestId)], rest);
      assert made + [] == made && [S.RequestMade(w.id, requestId)] + [] == [S.RequestMade(w.id, requestId)];
    }

    method SubscribeTerminals(s: Subscription)
      modifies `terminalDirectorySubscriptions, `trace
      ensures Did(S.SubscribeTerminals(old(State()), s))
    {
      terminalDirectorySubscriptions := S.Put(terminalDirectorySubscriptions, s);
      if transport.None? || !connectionState.Connected? {
        return;
      }
      trace := trace + [S.Sent(transport.value, S.Subscribe(s))];
    }

    method UnsubscribeTerminals(s: Subscription)
      modifies `terminalDirectorySubscriptions, `trace
      ensures Did(S.UnsubscribeTerminals(old(State()), s))
    {
      terminalDirectorySubscriptions := S.Drop(terminalDirectorySubscriptions, Key(s));
      if transport.None? || !connectionState.Connected? {
        return;
      }
      trace := trace + [S.Sent(transport.value, S.Unsubscribe(s))];
    }

    method ResubscribeCheckoutDiffSubscriptions()
      modifies `trace
      ensures trace == old(trace) + if LinkState().transport.Some?
                then S.ResubscribeDiffs(LinkState().transport.value, OtherState().diffs) else []
    {
      if transport.None? {
        return;
      }
      var diffs, i := checkoutDiffSubscriptions, 0;
      while i < |diffs|
        invariant 0 <= i <= |diffs|
        invariant trace + S.ResubscribeDiffs(transport.value, diffs[i..])
               == old(trace) + S.ResubscribeDiffs(transport.value, diffs)
      {
        assert diffs[i..][1..] == diffs[i + 1..];
        trace := trace + [S.Sent(transport.value, S.SubscribeDiff(diffs[i]))];
        i := i + 1;
      }
    }

    method ResubscribeTerminalDirectorySubscriptions()
      modifies `trace
      ensures trace == old(trace) + if LinkState().transport.Some?
                then S.ResubscribeAll(LinkState().transport.value, terminalDirectorySubscriptions) else []
    {
      if transport.None? {
        return;
      }
      var registry, i := terminalDirectorySubscriptions, 0;
      while i < |registry|
        invariant 0 <= i <= |registry|
        invariant trace + S.ResubscribeAll(transport.value, registry[i..])
               == old(trace) + S.ResubscribeAll(transport.value, registry)
      {
        assert registry[i..][1..] == registry[i + 1..];
        trace := trace + [S.Sent(transport.value, S.Subscribe(registry[i]))];
        i := i + 1;
      }
    }

    /** Both kinds of subscription that need no answer. */
    method ResubscribeSilently()
      modifies `trace
      ensures trace == old(trace) + S.Resubscribe(State())
    {
      hide S.ResubscribeDiffs, S.ResubscribeAll, LinkState, OtherState;
      ghost var link := LinkState();
      ResubscribeCheckoutDiffSubscriptions();
      ResubscribeTerminalDirectorySubscriptions();
      if link.transport.Some? {
        Assoc(old(trace), S.ResubscribeDiffs(link.transport.value, OtherState().diffs),
              S.ResubscribeAll(link.transport.value, terminalDirectorySubscriptions));
      }
    }

    /** Each file subscription is requested again; the answers are awaited by waiters of their own. */
    method ResubscribeFileSubscriptions()
      requires forall w :: w in CallState().waiters ==> w.id < CallState().nextId
      modifies this
      ensures Did(S.RemakeRequests(old(State()), old(OtherState()).files))
    {
      hide S.SendRequest, LinkState, CallState, HeartState;
      var files, i := fileSubscriptions, 0;
      ghost var c, start := State(), trace;
      while i < |files|
        invariant 0 <= i <= |files|
        invariant forall w :: w in CallState().waiters ==> w.id < CallState().nextId
        invariant Remaking(c, start, files, State(), trace, i)
      {
        RemakeNext(c, start, files, State(), trace, i);
        RequestAdds(State(), files[i], S.FILE_SUBSCRIBE_RESPONSE, S.ANY_PAYLOAD, true);
        SendRequest(files[i], S.FILE_SUBSCRIBE_RESPONSE, S.ANY_PAYLOAD, true);
        i := i + 1;
      }
      assert files[|files|..] == [];
    }

    method SetOtherSubscriptions(others: S.Others)
      modifies `checkoutDiffSubscriptions, `fileSubscriptions
      ensures Did(S.Step(old(State()), S.OtherSubscriptions(others)))
    {
      checkoutDiffSubscriptions := others.diffs;
      fileSubscriptions := others.files;
    }

    // -------------------------------------------------------------------------
    // Pings
    // -------------------------------------------------------------------------

    method SendPing(byHeartbeat: bool)
      modifies `pingProbe, `trace
      ensures Did(S.SendPing(old(State()), byHeartbeat))
    {
      if !connectionState.Connected? || transport.None? {
        return;
      }
      if pingProbe.Some? {
        return;
      }
      pingProbe := Some(S.Probe(byHeartbeat));
      trace := trace + [S.ProbeStarted(byHeartbeat), S.Sent(transport.value, S.Ping)];
    }

    method AwaitPing()
      modifies `heartbeatAwaits
      ensures HeartState() == old(HeartState()).(awaited := old(HeartState()).probe.Some?)
    {
      heartbeatAwaits := pingProbe.Some?;
    }

    method HeartbeatTick()
      modifies this
      ensures Did(S.HeartbeatTick(old(State())))
    {
      var due := livenessHeartbeatTimer;
      assert due == HeartState().timer;
      hide LinkState, CallState, HeartState, OtherState, S.SendPing;
      if !due {
        return;
      }
      StopLivenessHeartbeat();
      SendPing(true);
      AwaitPing();
    }

    method ScheduleNextHeartbeat(awaited: bool)
      modifies `livenessHeartbeatTimer
      ensures State() == S.Rearm(old(State()), awaited)
    {
      if awaited && connectionState.Connected? {
        livenessHeartbeatTimer := true;
      }
    }

    method ResolvePingProbe()
      modifies `pingProbe, `heartbeatAwaits, `livenessHeartbeatTimer
      ensures State() == S.ResolveProbe(old(State()))
    {
      if pingProbe.None? {
        return;
      }
      var awaited := heartbeatAwaits;
      assert awaited == HeartState().awaited && HeartState().probe.Some?;
      hide LinkState, CallState, HeartState, OtherState;
      RejectPingProbe();
      ScheduleNextHeartbeat(awaited);
    }

    /** Counts a failure; tells whether the connection is to be given up. */
    method CountFailure() returns (giveUp: bool)
      modifies `consecutiveLivenessFailures, `trace
      ensures giveUp <==> old(HeartState()).failures + 1 >= S.LIVENESS_FAILURE_RECONNECT_THRESHOLD
      ensures HeartState() == old(HeartState()).(failures := if giveUp then 0 else old(HeartState()).failures + 1)
      ensures trace == old(trace) + if giveUp then [S.HeartbeatFailed, S.LivenessTeardown] else [S.HeartbeatFailed]
    {
      consecutiveLivenessFailures := consecutiveLivenessFailures + 1;
      trace := trace + [S.HeartbeatFailed];
      giveUp := consecutiveLivenessFailures >= S.LIVENESS_FAILURE_RECONNECT_THRESHOLD;
      if giveUp {
        consecutiveLivenessFailures := 0;
        trace := trace + [S.LivenessTeardown];
      }
    }

    method RecordLivenessFailure()
      modifies this
      ensures Did(S.RecordFailure(old(State())))
    {
      hide S.TearDown, LinkState, CallState, HeartState, OtherState;
      ghost var c := State();
      var giveUp := CountFailure();
      if giveUp {
        TearDown();
        Assoc(old(trace), [S.HeartbeatFailed, S.LivenessTeardown],
              S.TearDown(c.(heart := c.heart.(failures := 0))).effects);
      }
    }

    method PingTimeout()
      modifies this
      ensures Did(S.PingTimeout(old(State())))
    {
      if pingProbe.None? {
        return;
      }
      var probe, awaited := pingProbe.value, heartbeatAwaits;
      assert HeartState().probe == Some(probe) && HeartState().awaited == awaited;
      hide S.RecordFailure, S.Rearm, S.RejectProbe, LinkState, CallState, HeartState, OtherState;
      ghost var quiet := State().(heart := S.RejectProbe(HeartState()));
      ghost var failed := if probe.drivesLiveness then S.RecordFailure(quiet) else S.Next(quiet, []);
      assert S.PingTimeout(State()) == S.Next(S.Rearm(failed.client, awaited), failed.effects);
      hide S.PingTimeout;
      RejectPingProbe();
      assert State() == quiet;
      hide State;
      if probe.drivesLiveness {
        RecordLivenessFailure();
      }
      ScheduleNextHeartbeat(awaited);
    }

    // -------------------------------------------------------------------------
    // Inbound
    // -------------------------------------------------------------------------

    method RefuseAuthentication()
      modifies this
      ensures Did(S.RefuseAuthentication(old(State())))
    {
      hide S.TearDown, S.RejectConnect, LinkState, CallState, HeartState, OtherState;
      ghost var rejected := S.RejectConnect(State().link.(shouldReconnect := false));
      ghost var refused := State().(link := rejected.link);
      GiveUp();
      TearDown();
      Assoc(old(trace), rejected.effects, S.TearDown(refused).effects);
    }

    method EnterConnected()
      modifies `connectTimeout, `reconnectAttempt, `connectionState, `trace
      ensures LinkState() == old(LinkState()).(connectTimer := false, reconnectAttempt := 0, status := S.Connected)
      ensures trace == old(trace) + [S.StatusChanged(S.Connected)]
    {
      connectTimeout := false;
      reconnectAttempt := 0;
      UpdateConnectionState(S.Connected);
    }

    method StartLivenessHeartbeat()
      modifies `livenessHeartbeatTimer
      ensures HeartState() == old(HeartState()).(timer := true)
    {
      livenessHeartbeatTimer := true;
    }

    /** The requests of the file subscriptions, and then those that were queued. */
    method SendRequests()
      requires forall w :: w in CallState().waiters ==> w.id < CallState().nextId
      modifies this
      ensures Did(S.SendRequests(old(State())))
    {
      hide S.RemakeRequests, S.FlushCalls, LinkState, CallState, HeartState, OtherState;
      ghost var remade := S.RemakeRequests(State(), OtherState().files);
      Invariant.RemakingKeeps(State(), OtherState().files);
      ResubscribeFileSubscriptions();
      FlushPendingSendQueue();
      Assoc(old(trace), remade.effects, S.FlushCalls(remade.client.calls, remade.client.link).effects);
    }

    method BecomeConnected()
      requires forall w :: w in CallState().waiters ==> w.id < CallState().nextId
      modifies this
      ensures Did(S.BecomeConnected(old(State())))
    {
      hide S.SendRequests, S.Resubscribe, S.ResolveConnect, LinkState, CallState, HeartState, OtherState;
      EnterConnected();
      StartLivenessHeartbeat();
      ghost var up := State();
      assert up == S.EnterConnected(old(State()));
      Shapes.SendingOnly(up);
      ResubscribeSilently();
      SendRequests();
      ResolveConnect();
      ghost var greeted := [S.StatusChanged(S.Connected)];
      Assoc(old(trace), greeted, S.Resubscribe(up));
      Assoc(old(trace), greeted + S.Resubscribe(up), S.SendRequests(up).effects);
      Assoc(old(trace), greeted + S.Resubscribe(up) + S.SendRequests(up).effects, S.ResolveConnect(up.link).effects);
    }

    method HandleSessionMessage(m: S.SessionMessage)
      requires Conservation.DistinctIds(waiters) && forall w :: w in CallState().waiters ==> w.id < CallState().nextId
      modifies this
      ensures Did(S.HandleMessage(old(State()), m))
    {
      hide S.RefuseAuthentication, S.BecomeConnected, S.ResolveWaiters;
      match m {
        case ServerInfo(authenticates) =>
          if helloDeviceCredential && !authenticates {
            RefuseAuthentication();
            return;
          }
          if connectionState.Connecting? {
            BecomeConnected();
          }
        case Response(_, requestId, _) => ResolveWaiters(m, requestId);
        case RpcError(requestId) => ResolveWaiters(m, requestId);
        case Other =>
      }
    }

    method HearFrame()
      modifies `consecutiveLivenessFailures, `trace
      ensures HeartState() == old(HeartState()).(failures := 0)
      ensures trace == old(trace) + [S.ValidFrame]
    {
      consecutiveLivenessFailures := 0;
      trace := trace + [S.ValidFrame];
    }

    method HandleValidMessage(m: S.SessionMessage)
      requires Conservation.DistinctIds(waiters) && forall w :: w in CallState().waiters ==> w.id < CallState().nextId
      modifies this
      ensures Did(S.Next(S.HandleMessage(S.Heard(old(State())), m).client,
                         [S.ValidFrame] + S.HandleMessage(S.Heard(old(State())), m).effects))
    {
      hide S.HandleMessage, LinkState, CallState, HeartState, OtherState;
      ghost var heard := S.Heard(State());
      HearFrame();
      HandleSessionMessage(m);
      Assoc(old(trace), [S.ValidFrame], S.HandleMessage(heard, m).effects);
    }

    method HandleFrame(frame: S.Frame)
      requires Conservation.DistinctIds(waiters) && forall w :: w in CallState().waiters ==> w.id < CallState().nextId
      modifies this
      ensures Did(S.HandleFrame(old(State()), frame))
    {
      hide S.HandleMessage, S.RejectWaiters, S.ResolveProbe, Conservation.DistinctIds;
      hide LinkState, CallState, HeartState, OtherState;
      match frame {
        case Invalid(None) =>
        case Invalid(Some(requestId)) => RejectWaitersForRequestId(requestId);
        case Pong => HearFrame(); ResolvePingProbe();
        case Session(m) => HandleValidMessage(m);
        case Binary(None) => HearFrame();
        case Binary(Some(requestId)) => HandleValidMessage(S.Response(S.FILE_RESPONSE, requestId, S.FILE_PAYLOAD));
      }
    }

    // -------------------------------------------------------------------------
    // Transport events and timers
    // -------------------------------------------------------------------------

    method ClearGenericErrorTimeout()
      modifies `genericErrorTimeout
      ensures LinkState() == old(LinkState()).(genericErrorTimer := false)
    {
      genericErrorTimeout := false;
    }

    method LoseTransport()
      modifies this
      ensures Did(S.ScheduleReconnect(
                old(State()).(link := old(State()).link.(connectTimer := false, genericErrorTimer := false))))
    {
      connectTimeout := false;
      genericErrorTimeout := false;
      assert State() == old(State()).(link := old(State()).link.(connectTimer := false, genericErrorTimer := false));
      hide S.ScheduleReconnect, State;
      ScheduleReconnect();
    }

    method HandleTransport(e: S.TransportEvent)
      requires Conservation.DistinctIds(waiters) && forall w :: w in CallState().waiters ==> w.id < CallState().nextId
      modifies this
      ensures Did(S.HandleTransport(old(State()), e))
    {
      hide S.HandleFrame, S.ScheduleReconnect, Conservation.DistinctIds;
      if transport.None? {
        return;
      }
      match e {
        case Open =>
          ClearGenericErrorTimeout();
          trace := trace + [S.Sent(transport.value, S.Hello)];
        case Closed => LoseTransport();
        case Failed(generic) =>
          if generic {
            connectTimeout := false;
            genericErrorTimeout := true;
          } else {
            LoseTransport();
          }
        case Message(frame) => HandleFrame(frame);
      }
    }

    method ReconnectTimeout(attempt: S.Attempt)
      modifies this
      ensures Did(S.ReconnectTimeout(old(State()), attempt))
    {
      hide S.AttemptConnect;
      var due := reconnectTimeout;
      reconnectTimeout := false;
      if !due || !shouldReconnect {
        return;
      }
      AttemptConnect(attempt);
    }

    method ConnectTimeout()
      modifies this
      ensures Did(S.ConnectTimeout(old(State())))
    {
      hide S.TearDown;
      if !connectTimeout || !connectionState.Connecting? {
        return;
      }
      TearDown();
    }

    method GenericErrorTimeout()
      modifies this
      ensures Did(S.GenericErrorTimeout(old(State())))
    {
      hide S.ScheduleReconnect;
      var due := genericErrorTimeout;
      genericErrorTimeout := false;
      if due && (connectionState.Connected? || connectionState.Connecting?) {
        ScheduleReconnect();
      }
    }

    method WaiterTimeout(id: nat)
      modifies `waiters, `trace
      ensures Did(S.WaiterTimeout(old(State()), id))
    {
      var found := S.FindWaiter(waiters, id);
      if found.Some? && found.value.timed {
        waiters := S.RemoveWaiter(waiters, id);
        trace := trace + [S.WaiterSettled(id, found.value.requestId, S.ByTimeout)];
      }
    }

    /** The queued send is dropped and rejected; its caller then cancels the waiter. */
    method ExpireSend(id: nat)
      requires S.PendingSend(id) in CallState().queue
      modifies `waiters, `pendingSendQueue, `trace
      ensures CallState() == S.ExpireSend(old(CallState()), id).calls
      ensures trace == old(trace) + S.ExpireSend(old(CallState()), id).effects
    {
      hide S.CancelWaiter, S.RemoveSend, CallState;
      ghost var calls := CallState();
      DropSend(id);
      Cancel(id);
      Assoc(old(trace), [S.SendSettled(id, S.SendTimedOut)],
            S.CancelWaiter(calls.(queue := S.RemoveSend(calls.queue, id)), id).effects);
    }

    method QueueTimeout(id: nat)
      modifies `waiters, `pendingSendQueue, `trace
      ensures Did(S.QueueTimeout(old(State()), id))
    {
      var queued := S.PendingSend(id) in pendingSendQueue;
      assert queued == (S.PendingSend(id) in CallState().queue);
      assert !queued ==> S.ExpireSend(CallState(), id) == S.Called(CallState(), []);
      hide S.ExpireSend, LinkState, CallState, HeartState, OtherState;
      if queued {
        ExpireSend(id);
      }
    }

    method DropSend(id: nat)
      modifies `pendingSendQueue, `trace
      ensures CallState() == old(CallState()).(queue := S.RemoveSend(old(CallState()).queue, id))
      ensures trace == old(trace) + [S.SendSettled(id, S.SendTimedOut)]
    {
      pendingSendQueue := S.RemoveSend(pendingSendQueue, id);
      trace := trace + [S.SendSettled(id, S.SendTimedOut)];
    }

    method SetReconnectEnabled(enabled: bool)
      modifies `reconnectEnabled
      ensures Did(S.Step(old(State()), S.CallSetReconnectEnabled(enabled)))
    {
      reconnectEnabled := enabled;
    }

    // -------------------------------------------------------------------------
    // Whole runs
    // -------------------------------------------------------------------------

    /** The object is where the session's run of its history ends. */
    ghost predicate Valid()
      reads this
    {
      var run := S.Run(S.Initial(enabled), history);
      State() == run.client && trace == run.effects
    }

    predicate IsTimer(e: S.Event) {
      || e.OnReconnectTimer? || e.OnConnectTimer? || e.OnGenericErrorTimer? || e.OnHeartbeatTimer?
      || e.OnPingTimer? || e.OnWaiterTimer? || e.OnQueueTimer?
    }

    method FireTimer(e: S.Event)
      requires IsTimer(e)
      modifies this
      ensures Did(S.Step(old(State()), e))
    {
      hide LinkState, CallState, HeartState, OtherState;
      match e {
        case OnReconnectTimer(attempt) => hide S.ReconnectTimeout; ReconnectTimeout(attempt);
        case OnConnectTimer => hide S.ConnectTimeout; ConnectTimeout();
        case OnGenericErrorTimer => hide S.GenericErrorTimeout; GenericErrorTimeout();
        case OnHeartbeatTimer => hide S.HeartbeatTick; HeartbeatTick();
        case OnPingTimer => hide S.PingTimeout; PingTimeout();
        case OnWaiterTimer(id) => hide S.WaiterTimeout; WaiterTimeout(id);
        case OnQueueTimer(id) => hide S.QueueTimeout; QueueTimeout(id);
      }
    }

    method Dispatch(e: S.Event)
      requires Conservation.DistinctIds(CallState().waiters)
      requires forall w :: w in CallState().waiters ==> w.id < CallState().nextId
      modifies this
      ensures Did(S.Step(old(State()), e))
    {
      hide LinkState, HeartState, OtherState;
      match e {
        case CallConnect(attempt) => hide S.Connect; Connect(attempt);
        case CallEnsureConnected(attempt) => hide S.EnsureConnected; EnsureConnected(attempt);
        case CallClose => hide S.Close; Close();
        case CallSetReconnectEnabled(on) => hide S.Step; SetReconnectEnabled(on);
        case CallRequest(requestId, responseType, accepts, timed) =>
          hide S.SendRequest;
          SendRequest(requestId, responseType, accepts, timed);
        case CallSubscribe(s) => hide S.SubscribeTerminals; SubscribeTerminals(s);
        case CallUnsubscribe(s) => hide S.UnsubscribeTerminals; UnsubscribeTerminals(s);
        case CallMeasureLatency => hide S.SendPing; SendPing(false);
        case OtherSubscriptions(others) => hide S.Step; SetOtherSubscriptions(others);
        case OnTransport(event) => hide S.HandleTransport; HandleTransport(event);
        case _ => hide S.Step; FireTimer(e);
      }
    }

    /** Whatever happens to the object is a step of the session. */
    method Perform(e: S.Event)
      requires Valid()
      modifies this
      ensures Valid() && history == old(history) + [e]
      ensures Did(S.Step(old(State()), e)) && Invariant.Inv(State())
    {
      Conservation.RunWaiters(enabled, history);
      ghost var past := history;
      Dispatch(e);
      history := past + [e];
      assert history[..|history| - 1] == past;
      Invariant.EveryRunInv(enabled, history);
      hide S.Step, S.Initial, Invariant.Inv, LinkState, CallState, HeartState, OtherState;
    }
  }
}
