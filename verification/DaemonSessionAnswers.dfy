/**
 * Answers: which waiters an inbound frame settles. A response settles exactly the waiters of its
 * request id and type whose payload test it passes, an error all waiters of its request; the
 * others wait on, in their order.
 */
module DaemonSessionAnswers {
  import opened Wrappers
  import opened Sequences
  import opened DaemonSession
  import opened DaemonSessionConservation

  /** Exactly these waiters are settled, in this way, and gone; nothing else is done to requests. */
  ghost predicate SettlesExactly(c: Client, n: Next, answered: Waiter -> bool, how: Settlement) {
    && n.client.calls == c.calls.(waiters := FilterOut(answered, c.calls.waiters))
    && (forall w :: w in c.calls.waiters ==> (WaiterSettled(w.id, w.requestId, how) in n.effects <==> answered(w)))
    && (forall e :: e in n.effects ==> e == ValidFrame || (e.WaiterSettled? && e.settlement == how))
  }

  lemma {:induction false} SelectionIsFilter(ws: seq<Waiter>, m: SessionMessage, answered: Waiter -> bool)
    requires forall w :: answered(w) <==> Selects(w, m)
    ensures Selected(ws, m) == Filter(answered, ws) && Unselected(ws, m) == FilterOut(answered, ws)
    decreases ws
  {
    if ws != [] {
      hide Selects;
      SelectionIsFilter(ws[1..], m, answered);
    }
  }

  lemma {:induction false} RequestIsFilter(ws: seq<Waiter>, requestId: string, answered: Waiter -> bool)
    requires forall w: Waiter :: answered(w) <==> w.requestId == requestId
    ensures OfRequest(ws, requestId) == Filter(answered, ws) && WithoutRequest(ws, requestId) == FilterOut(answered, ws)
    decreases ws
  {
    if ws != [] {
      RequestIsFilter(ws[1..], requestId, answered);
    }
  }

  lemma {:induction false} SettlingFilter(ws: seq<Waiter>, answered: Waiter -> bool, how: Settlement,
                                          id: nat, requestId: string)
    ensures WaiterSettled(id, requestId, how) in SettleAll(Filter(answered, ws), how)
       <==> exists i :: 0 <= i < |ws| && answered(ws[i]) && ws[i].id == id && ws[i].requestId == requestId
    decreases ws
  {
    if ws != [] {
      var tail := ws[1..];
      SettlingFilter(tail, answered, how, id, requestId);
      var e := WaiterSettled(id, requestId, how);
      if answered(ws[0]) {
        var rest := Filter(answered, tail);
        assert ([ws[0]] + rest)[1..] == rest;
        assert SettleAll(Filter(answered, ws), how)
            == [WaiterSettled(ws[0].id, ws[0].requestId, how)] + SettleAll(rest, how);
      }
      if i :| 0 <= i < |tail| && answered(tail[i]) && tail[i].id == id && tail[i].requestId == requestId {
        assert answered(ws[i + 1]) && ws[i + 1].id == id && ws[i + 1].requestId == requestId;
      }
      if i :| 0 <= i < |ws| && answered(ws[i]) && ws[i].id == id && ws[i].requestId == requestId && i > 0 {
        assert answered(tail[i - 1]) && tail[i - 1].id == id && tail[i - 1].requestId == requestId;
      }
    }
  }

  lemma {:induction false} SettlingOnly(ws: seq<Waiter>, how: Settlement)
    ensures forall e :: e in SettleAll(ws, how) ==> e.WaiterSettled? && e.settlement == how
    decreases ws
  {
    if ws != [] {
      SettlingOnly(ws[1..], how);
    }
  }

  lemma FilterSettles(c: Client, n: Next, answered: Waiter -> bool, how: Settlement, pre: seq<Effect>)
    requires DistinctIds(c.calls.waiters) && (pre == [] || pre == [ValidFrame])
    requires n.client.calls == c.calls.(waiters := FilterOut(answered, c.calls.waiters))
    requires n.effects == pre + SettleAll(Filter(answered, c.calls.waiters), how)
    ensures SettlesExactly(c, n, answered, how)
  {
    var ws, settled := c.calls.waiters, SettleAll(Filter(answered, c.calls.waiters), how);
    SettlingOnly(Filter(answered, ws), how);
    assert forall e :: e in n.effects <==> e in pre || e in settled;
    hide SettleAll, Filter, FilterOut;
    forall w | w in ws ensures WaiterSettled(w.id, w.requestId, how) in n.effects <==> answered(w) {
      var k :| 0 <= k < |ws| && ws[k] == w;
      SettlingFilter(ws, answered, how, w.id, w.requestId);
      assert answered(w) ==> answered(ws[k]);
    }
  }

  // ---------------------------------------------------------------------------
  // What each frame answers
  // ---------------------------------------------------------------------------

  function ByResponse(responseType: string, requestId: string, payload: int): Waiter -> bool {
    (w: Waiter) => w.requestId == requestId && w.responseType == responseType && w.accepts(payload)
  }

  function ByRequestId(requestId: string): Waiter -> bool {
    (w: Waiter) => w.requestId == requestId
  }

  /** A client that a run leads to, with a transport. */
  ghost predicate Reachable(c: Client) {
    c.link.transport.Some? && exists enabled, events :: c == Run(Initial(enabled), events).client
  }

  lemma ReachableWaiters(c: Client)
    requires Reachable(c)
    ensures DistinctIds(c.calls.waiters)
  {
    var enabled, events :| c == Run(Initial(enabled), events).client;
    hide Run;
    RunWaiters(enabled, events);
  }

  lemma MessageSettles(c: Client, m: SessionMessage, requestId: string, answered: Waiter -> bool, n: Next)
    requires Reachable(c) && (m.Response? || m.RpcError?) && m.requestId == requestId
    requires forall w :: answered(w) <==> Selects(w, m)
    requires n.client == HandleMessage(Heard(c), m).client
    requires n.effects == [ValidFrame] + HandleMessage(Heard(c), m).effects
    ensures SettlesExactly(c, n, answered, ByMessage(requestId))
  {
    ReachableWaiters(c);
    SelectionIsFilter(c.calls.waiters, m, answered);
    hide Run, Selects, Selected, Unselected, Filter, FilterOut, SettleAll, SettlesExactly, Reachable, DistinctIds;
    FilterSettles(c, n, answered, ByMessage(requestId), [ValidFrame]);
  }

  /** A response settles exactly the waiters of its request id and type whose test it passes. */
  lemma ResponseSettles(c: Client, responseType: string, requestId: string, payload: int)
    requires Reachable(c)
    ensures SettlesExactly(c, Step(c, OnTransport(Message(Session(Response(responseType, requestId, payload))))),
                           ByResponse(responseType, requestId, payload), ByMessage(requestId))
  {
    var m := Response(responseType, requestId, payload);
    var n := Step(c, OnTransport(Message(Session(m))));
    assert forall w :: ByResponse(responseType, requestId, payload)(w) <==> Selects(w, m);
    assert n.client == HandleMessage(Heard(c), m).client;
    assert n.effects == [ValidFrame] + HandleMessage(Heard(c), m).effects;
    hide Run, Step, HandleMessage, ByResponse, Selects, SettlesExactly;
    MessageSettles(c, m, requestId, ByResponse(responseType, requestId, payload), n);
  }

  /** An RPC error settles exactly the waiters of its request. */
  lemma ErrorSettles(c: Client, requestId: string)
    requires Reachable(c)
    ensures SettlesExactly(c, Step(c, OnTransport(Message(Session(RpcError(requestId))))),
                           ByRequestId(requestId), ByMessage(requestId))
  {
    var m := RpcError(requestId);
    var n := Step(c, OnTransport(Message(Session(m))));
    assert forall w :: ByRequestId(requestId)(w) <==> Selects(w, m);
    assert n.client == HandleMessage(Heard(c), m).client;
    assert n.effects == [ValidFrame] + HandleMessage(Heard(c), m).effects;
    hide Run, Step, HandleMessage, ByRequestId, Selects, SettlesExactly;
    MessageSettles(c, m, requestId, ByRequestId(requestId), n);
  }

  /** A file read that a binary frame completes counts as the explorer's response to its request. */
  lemma FileReadSettles(c: Client, requestId: string)
    requires Reachable(c)
    ensures SettlesExactly(c, Step(c, OnTransport(Message(Binary(Some(requestId))))),
                           ByResponse("file_explorer_response", requestId, FILE_PAYLOAD), ByMessage(requestId))
  {
    var m := Response("file_explorer_response", requestId, FILE_PAYLOAD);
    var n, answered := Step(c, OnTransport(Message(Binary(Some(requestId))))),
                       ByResponse("file_explorer_response", requestId, FILE_PAYLOAD);
    assert forall w :: answered(w) <==> Selects(w, m);
    assert n.client == HandleMessage(Heard(c), m).client;
    assert n.effects == [ValidFrame] + HandleMessage(Heard(c), m).effects;
    hide Run, Step, HandleMessage, ByResponse, Selects, SettlesExactly;
    MessageSettles(c, m, requestId, answered, n);
  }

  /** A frame that fails validation rejects exactly the waiters of the request it names. */
  lemma InvalidSettles(c: Client, requestId: string)
    requires Reachable(c)
    ensures SettlesExactly(c, Step(c, OnTransport(Message(Invalid(Some(requestId))))),
                           ByRequestId(requestId), ByInvalidMessage(requestId))
  {
    var n, answered := Step(c, OnTransport(Message(Invalid(Some(requestId))))), ByRequestId(requestId);
    RequestIsFilter(c.calls.waiters, requestId, answered);
    assert n.effects == [] + SettleAll(Filter(answered, c.calls.waiters), ByInvalidMessage(requestId));
    assert n.client.calls == c.calls.(waiters := FilterOut(answered, c.calls.waiters));
    hide Run, Step, ByRequestId, OfRequest, WithoutRequest, Filter, FilterOut, SettleAll, DistinctIds, SettlesExactly;
    ReachableWaiters(c);
    FilterSettles(c, n, answered, ByInvalidMessage(requestId), []);
  }

  /** Pongs, other messages, other binary frames and frames that name no request settle nobody. */
  lemma OthersSettleNobody(c: Client, f: Frame)
    requires c.link.transport.Some?
    requires f == Pong || f == Session(Other) || f == Binary(None) || f == Invalid(None)
    ensures var n := Step(c, OnTransport(Message(f)));
            n.client.calls == c.calls && forall e :: e in n.effects ==> e == ValidFrame
  {
  }

  /** A request made while connected, and then a response that passes its test: the caller is answered. */
  lemma RequestIsAnswered(enabled: bool, events: seq<Event>, requestId: string, responseType: string,
                          accepts: int -> bool, timed: bool, payload: int)
    requires CanSend(Run(Initial(enabled), events).client.link) && accepts(payload)
    ensures var id := Run(Initial(enabled), events).client.calls.nextId;
            var asked := Run(Initial(enabled), events + [CallRequest(requestId, responseType, accepts, timed)]).client;
            WaiterSettled(id, requestId, ByMessage(requestId))
              in Step(asked, OnTransport(Message(Session(Response(responseType, requestId, payload))))).effects
  {
    var c, ask := Run(Initial(enabled), events).client, CallRequest(requestId, responseType, accepts, timed);
    RunStep(Initial(enabled), events, ask);
    var asked := Step(c, ask).client;
    var w := Waiter(c.calls.nextId, requestId, responseType, accepts, timed);
    assert asked.calls.waiters == c.calls.waiters + [w] && asked.link == c.link;
    assert asked == Run(Initial(enabled), events + [ask]).client;
    assert Reachable(asked);
    hide Run, Step, Reachable;
    ResponseSettles(asked, responseType, requestId, payload);
    assert w in asked.calls.waiters && ByResponse(responseType, requestId, payload)(w);
  }
}
