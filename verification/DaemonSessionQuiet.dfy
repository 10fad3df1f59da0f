/**
 * Quiet steps: losing or closing a connection, settling waiters, bookkeeping. They open no
 * transport, make, send or probe nothing, leave the registry and the failure counter alone, and
 * balance the books of every request.
 */
module DaemonSessionQuiet {
  import opened Wrappers
  import opened DaemonSession
  import opened DaemonSessionInvariant
  import opened DaemonSessionLedger

  /** Some unsettled waiter belongs to this request. */
  predicate Awaited(ws: seq<Waiter>, id: nat, requestId: string) {
    exists k :: 0 <= k < |ws| && ws[k].id == id && ws[k].requestId == requestId
  }

  /** A message settles waiters of its own request only. */
  predicate Correlated(how: Settlement, requestId: string) {
    (how.ByMessage? || how.ByInvalidMessage?) ==> how.requestId == requestId
  }

  predicate QuietEffect(c: Client, e: Effect) {
    match e
    case StatusChanged(status) => Settled(status)
    case Sent(t, wire) => wire.Hello? && c.link.transport == Some(t)
    case WaiterSettled(id, requestId, how) => Awaited(c.calls.waiters, id, requestId) && Correlated(how, requestId)
    case TransportClosed(_) => true
    case SendSettled(_, outcome) => !outcome.SendOk?
    case ConnectRejected => true
    case _ => false
  }

  /** The queue holds requests in the order they were made, from `low` up to `high`. */
  predicate Ascending(queue: seq<PendingSend>, low: int, high: int) {
    if queue == [] then low < high
    else low < queue[0].id && Ascending(queue[1..], queue[0].id, high)
  }

  predicate QuietLink(before: Link, after: Link) {
    && (after.transport == before.transport || after.transport.None?)
    && (Settled(after.status) || (after.status == before.status && after.transport == before.transport))
  }

  ghost predicate QuietCalls(before: Calls, after: Calls) {
    && after.nextId == before.nextId
    && (forall w :: w in after.waiters ==> w in before.waiters)
    && (forall low, high :: Ascending(before.queue, low, high) ==> Ascending(after.queue, low, high))
  }

  predicate QuietHeart(before: Heart, after: Heart) {
    after.failures == before.failures && (after.probe == before.probe || after.probe.None?)
  }

  predicate QuietEffects(c: Client, es: seq<Effect>) {
    forall i :: 0 <= i < |es| ==> QuietEffect(c, es[i])
  }

  ghost predicate Quiet(c: Client, n: Next) {
    && QuietEffects(c, n.effects)
    && n.client.registry == c.registry
    && QuietLink(c.link, n.client.link)
    && QuietCalls(c.calls, n.client.calls)
    && QuietHeart(c.heart, n.client.heart)
    && Booked(c.calls, n)
  }

  // ---------------------------------------------------------------------------
  // Waiters and queues
  // ---------------------------------------------------------------------------

  lemma {:induction false} EmptyIsAscending(queue: seq<PendingSend>, low: int, high: int)
    requires Ascending(queue, low, high)
    ensures low < high
    decreases queue
  {
    if queue != [] {
      EmptyIsAscending(queue[1..], queue[0].id, high);
    }
  }

  lemma {:induction false} RemovalAscends(queue: seq<PendingSend>, id: nat, low: int, high: int)
    requires Ascending(queue, low, high)
    ensures Ascending(RemoveSend(queue, id), low, high)
    decreases queue
  {
    if queue != [] {
      if queue[0].id == id {
        LowerBound(queue[1..], low, queue[0].id, high);
      } else {
        RemovalAscends(queue[1..], id, queue[0].id, high);
        assert ([queue[0]] + RemoveSend(queue[1..], id))[1..] == RemoveSend(queue[1..], id);
      }
    }
  }

  lemma LowerBound(queue: seq<PendingSend>, low: int, low': int, high: int)
    requires Ascending(queue, low', high) && low <= low'
    ensures Ascending(queue, low, high)
  {
  }

  /** The effects of settling waiters that were all waiting. */
  lemma {:induction false} SettleAllQuiet(c: Client, ws: seq<Waiter>, how: Settlement)
    requires forall w :: w in ws ==> w in c.calls.waiters && Correlated(how, w.requestId)
    ensures QuietEffects(c, SettleAll(ws, how))
    decreases ws
  {
    if ws != [] {
      assert ws[0] in ws && forall w :: w in ws[1..] ==> w in ws;
      SettleAllQuiet(c, ws[1..], how);
      MemberIsAwaited(c.calls.waiters, ws[0]);
      hide Awaited;
    }
  }

  lemma MemberIsAwaited(ws: seq<Waiter>, w: Waiter)
    requires w in ws
    ensures Awaited(ws, w.id, w.requestId)
  {
    var k :| 0 <= k < |ws| && ws[k] == w;
  }

  lemma {:induction false} RejectAllQuiet(c: Client, queue: seq<PendingSend>)
    ensures QuietEffects(c, RejectAll(queue))
    decreases queue
  {
    if queue != [] {
      RejectAllQuiet(c, queue[1..]);
    }
  }

  lemma {:induction false} SelectionsAreWaiting(ws: seq<Waiter>, m: SessionMessage)
    ensures forall w :: w in Selected(ws, m) ==> w in ws && Selects(w, m)
    ensures forall w :: w in Unselected(ws, m) ==> w in ws
    decreases ws
  {
    if ws != [] {
      hide Selects;
      SelectionsAreWaiting(ws[1..], m);
      assert ws == [ws[0]] + ws[1..];
    }
  }

  lemma {:induction false} RejectionsAreWaiting(ws: seq<Waiter>, requestId: string)
    ensures forall w :: w in OfRequest(ws, requestId) ==> w in ws && w.requestId == requestId
    ensures forall w :: w in WithoutRequest(ws, requestId) ==> w in ws
    decreases ws
  {
    if ws != [] {
      RejectionsAreWaiting(ws[1..], requestId);
      assert ws == [ws[0]] + ws[1..];
    }
  }

  lemma {:induction false} RemainingAreWaiting(ws: seq<Waiter>, id: nat)
    ensures forall w :: w in RemoveWaiter(ws, id) ==> w in ws
    decreases ws
  {
    if ws != [] {
      RemainingAreWaiting(ws[1..], id);
      assert ws == [ws[0]] + ws[1..];
    }
  }

  lemma QuietConcat(c: Client, a: seq<Effect>, b: seq<Effect>)
    requires QuietEffects(c, a) && QuietEffects(c, b)
    ensures QuietEffects(c, a + b)
  {
    hide QuietEffect;
  }

  // ---------------------------------------------------------------------------
  // Quiet operations
  // ---------------------------------------------------------------------------

  lemma EmptyQueueQuiet(before: Calls, after: Calls)
    requires after.nextId == before.nextId && after.waiters == [] && after.queue == []
    ensures QuietCalls(before, after)
  {
    forall low, high | Ascending(before.queue, low, high) ensures Ascending(after.queue, low, high) {
      EmptyIsAscending(before.queue, low, high);
    }
  }

  lemma DropCallsQuiet(c: Client)
    ensures QuietEffects(c, DropCalls(c.calls).effects) && QuietCalls(c.calls, DropCalls(c.calls).calls)
  {
    EmptyQueueQuiet(c.calls, DropCalls(c.calls).calls);
    hide QuietCalls, QuietEffects;
    SettleAllQuiet(c, c.calls.waiters, ByConnectionLoss);
    RejectAllQuiet(c, c.calls.queue);
    QuietConcat(c, SettleAll(c.calls.waiters, ByConnectionLoss), RejectAll(c.calls.queue));
  }

  lemma ResolveQuiet(c: Client, m: SessionMessage, requestId: string)
    requires m.Response? || m.RpcError?
    requires m.requestId == requestId
    ensures var resolved := ResolveWaiters(c.calls, m, requestId);
            Quiet(c, Next(c.(calls := resolved.calls), resolved.effects))
  {
    SelectionsAreWaiting(c.calls.waiters, m);
    assert forall w :: w in Selected(c.calls.waiters, m) ==> Correlated(ByMessage(requestId), w.requestId);
    hide Selects, QuietEffects, Balances;
    SettleAllQuiet(c, Selected(c.calls.waiters, m), ByMessage(requestId));
    forall id: nat {
      ResolveBalances(c.calls, m, requestId, id);
    }
  }

  lemma RejectQuiet(c: Client, requestId: string)
    ensures var rejected := RejectWaiters(c.calls, requestId);
            Quiet(c, Next(c.(calls := rejected.calls), rejected.effects))
  {
    hide QuietEffects, Balances;
    RejectionsAreWaiting(c.calls.waiters, requestId);
    SettleAllQuiet(c, OfRequest(c.calls.waiters, requestId), ByInvalidMessage(requestId));
    forall id: nat {
      RejectBalances(c.calls, requestId, id);
    }
  }

  lemma WaiterTimeoutQuiet(c: Client, id: nat)
    ensures Quiet(c, WaiterTimeout(c, id))
  {
    hide Balances;
    forall other: nat {
      ExpireWaiterBalances(c.calls, id, other);
    }
    var found := FindWaiter(c.calls.waiters, id);
    if found.Some? {
      RemainingAreWaiting(c.calls.waiters, id);
      MemberIsAwaited(c.calls.waiters, found.value);
    }
  }

  lemma QueueTimeoutQuiet(c: Client, id: nat)
    ensures Quiet(c, QueueTimeout(c, id))
  {
    hide Balances;
    forall other: nat {
      ExpireSendBalances(c.calls, id, other);
    }
    var found := FindWaiter(c.calls.waiters, id);
    if found.Some? {
      RemainingAreWaiting(c.calls.waiters, id);
      MemberIsAwaited(c.calls.waiters, found.value);
    }
    forall low, high | Ascending(c.calls.queue, low, high)
      ensures Ascending(RemoveSend(c.calls.queue, id), low, high)
    {
      RemovalAscends(c.calls.queue, id, low, high);
    }
    hide Awaited, Ascending, RemoveSend, RemoveWaiter;
  }

  /** Settling everything, whatever the link becomes, as long as it is left settled. */
  lemma DropQuiet(c: Client, pre: seq<Effect>, post: seq<Effect>, n: Next)
    requires QuietEffects(c, pre) && QuietEffects(c, post) && Neutral(pre) && Neutral(post)
    requires n.effects == pre + DropCalls(c.calls).effects + post
    requires n.client.calls == DropCalls(c.calls).calls && n.client.registry == c.registry
    requires QuietLink(c.link, n.client.link) && Settled(n.client.link.status)
    requires n.client.heart.probe.None? && n.client.heart.failures == c.heart.failures
    ensures Quiet(c, n)
  {
    hide QuietEffects, QuietCalls, DropCalls, Balances, Neutral;
    DropCallsQuiet(c);
    forall id: nat {
      DropBalances(c.calls, id);
    }
    BookedAround(c.calls, n, pre, DropCalls(c.calls).effects, post);
    QuietConcat(c, pre, DropCalls(c.calls).effects);
    QuietConcat(c, pre + DropCalls(c.calls).effects, post);
  }

  lemma LinkDownQuiet(c: Client, link: Link)
    ensures QuietEffects(c, LinkDown(link).effects) && Neutral(LinkDown(link).effects)
    ensures Settled(LinkDown(link).link.status) && LinkDown(link).link.transport == link.transport
  {
  }

  lemma ScheduleReconnectQuiet(c: Client)
    ensures Quiet(c, ScheduleReconnect(c)) && Settled(ScheduleReconnect(c).client.link.status)
  {
    hide DropCalls, Quiet, QuietEffect;
    var down := LinkDown(c.link.(reconnectTimer := false));
    LinkDownQuiet(c, c.link.(reconnectTimer := false));
    hide LinkDown;
    assert [] + DropCalls(c.calls).effects + down.effects == DropCalls(c.calls).effects + down.effects;
    DropQuiet(c, [], down.effects, ScheduleReconnect(c));
  }

  lemma TearDownQuiet(c: Client)
    ensures Quiet(c, TearDown(c))
  {
    hide DropCalls, Quiet;
    var disposed := DisposeTransport(c);
    var down := LinkDown(disposed.client.link.(reconnectTimer := false));
    LinkDownQuiet(c, disposed.client.link.(reconnectTimer := false));
    hide LinkDown;
    assert disposed.effects + (DropCalls(c.calls).effects + down.effects)
        == disposed.effects + DropCalls(c.calls).effects + down.effects;
    DropQuiet(c, disposed.effects, down.effects, TearDown(c));
  }

  lemma FailAttemptQuiet(c: Client, badCredential: bool)
    ensures Quiet(c, FailAttempt(c, badCredential))
  {
    var disposed := DisposeTransport(c);
    var link := disposed.client.link;
    var refused := if badCredential then RejectConnect(link.(shouldReconnect := false)) else Linked(link, []);
    var closed := disposed.client.(link := refused.link);
    var scheduled := ScheduleReconnect(closed);
    ScheduleReconnectQuiet(closed);
    hide ScheduleReconnect;
    assert QuietEffects(c, disposed.effects + refused.effects);
    assert QuietEffects(c, scheduled.effects);
    assert QuietEffects(c, RejectConnect(scheduled.client.link).effects);
    hide QuietEffect, Booked;
    BookedAround(c.calls, FailAttempt(c, badCredential), disposed.effects + refused.effects, scheduled.effects,
                 RejectConnect(scheduled.client.link).effects);
  }

  lemma CloseQuiet(c: Client)
    ensures Quiet(c, Close(c))
  {
    if c.link.status.Disposed? {
      BookedNeutral(c.calls, Close(c));
      hide Booked;
    } else {
      hide DropCalls, Quiet;
      DropQuiet(c, DisposeTransport(c).effects, [StatusChanged(Disposed)], Close(c));
    }
  }

  lemma RefuseAuthenticationQuiet(c: Client)
    ensures Quiet(c, RefuseAuthentication(c))
  {
    var rejected := RejectConnect(c.link.(shouldReconnect := false));
    var c' := c.(link := rejected.link);
    TearDownQuiet(c');
    hide TearDown, Booked;
    assert QuietEffects(c, TearDown(c').effects);
    assert rejected.effects + TearDown(c').effects + [] == rejected.effects + TearDown(c').effects;
    BookedAround(c.calls, RefuseAuthentication(c), rejected.effects, TearDown(c').effects, []);
  }
}
