/**
 * The books kept on every request: how often it was made, sent and settled over a stretch of
 * effects, and how each operation on waiters and queued sends balances them.
 */
module DaemonSessionLedger {
  import opened DaemonSession

  /** How often each thing happened to one request. */
  datatype Tally = Tally(made: nat, settled: nat, sendSettled: nat, sent: nat, sendOk: nat)

  const NONE: Tally := Tally(0, 0, 0, 0, 0)

  function Plus(a: Tally, b: Tally): Tally {
    Tally(a.made + b.made, a.settled + b.settled, a.sendSettled + b.sendSettled, a.sent + b.sent, a.sendOk + b.sendOk)
  }

  /** Counts an occurrence of `id`. */
  function Hit(x: nat, id: nat): nat {
    if x == id then 1 else 0
  }

  function TallyOne(e: Effect, id: nat): Tally {
    match e
    case RequestMade(x, _) => NONE.(made := Hit(x, id))
    case WaiterSettled(x, _, _) => NONE.(settled := Hit(x, id))
    case SendSettled(x, SendOk) => NONE.(sendSettled := Hit(x, id), sendOk := Hit(x, id))
    case SendSettled(x, _) => NONE.(sendSettled := Hit(x, id))
    case Sent(_, Request(x)) => NONE.(sent := Hit(x, id))
    case _ => NONE
  }

  function TallyAll(es: seq<Effect>, id: nat): Tally {
    if es == [] then NONE else Plus(TallyOne(es[0], id), TallyAll(es[1..], id))
  }

  lemma {:induction false} TallyAppend(a: seq<Effect>, b: seq<Effect>, id: nat)
    ensures TallyAll(a + b, id) == Plus(TallyAll(a, id), TallyAll(b, id))
  {
    if a == [] {
      assert a + b == b;
    } else {
      assert (a + b)[0] == a[0] && (a + b)[1..] == a[1..] + b;
      TallyAppend(a[1..], b, id);
    }
  }

  /** How often a request is among the unsettled waiters, and among the queued sends. */
  function Waiting(ws: seq<Waiter>, id: nat): nat {
    if ws == [] then 0 else Hit(ws[0].id, id) + Waiting(ws[1..], id)
  }

  function Queued(queue: seq<PendingSend>, id: nat): nat {
    if queue == [] then 0 else Hit(queue[0].id, id) + Queued(queue[1..], id)
  }

  /** The books of one request balance over a stretch of effects. */
  ghost predicate Balances(before: Calls, after: Calls, es: seq<Effect>, id: nat) {
    var t := TallyAll(es, id);
    && Waiting(before.waiters, id) + t.made == Waiting(after.waiters, id) + t.settled
    && Queued(before.queue, id) + t.made == Queued(after.queue, id) + t.sendSettled
    && t.sent == t.sendOk
    && t.made == (if before.nextId <= id < after.nextId then 1 else 0)
    && before.nextId <= after.nextId
  }

  // ---------------------------------------------------------------------------
  // The operations on requests
  // ---------------------------------------------------------------------------

  lemma TallySingle(e: Effect, id: nat)
    ensures TallyAll([e], id) == TallyOne(e, id)
  {
    hide TallyOne;
    assert [e][1..] == [];
    assert TallyAll([], id) == NONE;
  }

  lemma TallyPair(a: Effect, b: Effect, id: nat)
    ensures TallyAll([a, b], id) == Plus(TallyOne(a, id), TallyOne(b, id))
  {
    hide TallyAll, TallyOne, Plus;
    TallyAppend([a], [b], id);
    TallySingle(a, id);
    TallySingle(b, id);
    assert [a] + [b] == [a, b];
  }

  /** What each kind of effect counts for. */
  lemma TallyKinds(transport: nat, about: nat, requestId: string, id: nat)
    ensures TallyOne(RequestMade(about, requestId), id) == NONE.(made := Hit(about, id))
    ensures TallyOne(Sent(transport, Request(about)), id) == NONE.(sent := Hit(about, id))
    ensures TallyOne(SendSettled(about, SendOk), id) == NONE.(sendSettled := Hit(about, id), sendOk := Hit(about, id))
    ensures forall o: SendOutcome :: o != SendOk ==>
      TallyOne(SendSettled(about, o), id) == NONE.(sendSettled := Hit(about, id))
    ensures forall how :: TallyOne(WaiterSettled(about, requestId, how), id) == NONE.(settled := Hit(about, id))
  {
  }

  lemma TallySend(transport: nat, sent: nat, id: nat)
    ensures TallyAll([Sent(transport, Request(sent)), SendSettled(sent, SendOk)], id)
         == NONE.(sendSettled := Hit(sent, id), sent := Hit(sent, id), sendOk := Hit(sent, id))
  {
    hide TallyAll, TallyOne;
    TallyPair(Sent(transport, Request(sent)), SendSettled(sent, SendOk), id);
    TallyKinds(transport, sent, "", id);
  }

  lemma PlusRefused(n: nat)
    ensures Plus(NONE.(sendSettled := n), NONE.(settled := n)) == NONE.(settled := n, sendSettled := n)
  {
  }

  lemma TallyRefusal(w: Waiter, id: nat)
    ensures TallyAll([SendSettled(w.id, SendRejected), WaiterSettled(w.id, w.requestId, ByCancel)], id)
         == NONE.(settled := Hit(w.id, id), sendSettled := Hit(w.id, id))
  {
    hide TallyAll, TallyOne, Plus, Hit;
    TallyPair(SendSettled(w.id, SendRejected), WaiterSettled(w.id, w.requestId, ByCancel), id);
    TallyKinds(0, w.id, w.requestId, id);
    PlusRefused(Hit(w.id, id));
  }

  lemma TallyMade(w: Waiter, id: nat)
    ensures TallyAll([RequestMade(w.id, w.requestId)], id) == NONE.(made := Hit(w.id, id))
  {
    hide TallyAll, TallyOne;
    TallySingle(RequestMade(w.id, w.requestId), id);
    TallyKinds(0, w.id, w.requestId, id);
  }

  lemma PlusMadeAndSent(n: nat)
    ensures Plus(NONE.(made := n), NONE.(sendSettled := n, sent := n, sendOk := n)) == Tally(n, 0, n, n, n)
  {
  }

  lemma PlusMadeAndRefused(n: nat)
    ensures Plus(NONE.(made := n), NONE.(settled := n, sendSettled := n)) == Tally(n, n, n, 0, 0)
  {
  }

  lemma TallyCons(e: Effect, rest: seq<Effect>, id: nat)
    ensures TallyAll([e] + rest, id) == Plus(TallyOne(e, id), TallyAll(rest, id))
  {
    hide TallyOne, Plus;
    assert ([e] + rest)[1..] == rest;
  }

  lemma PlusSettled(w: Waiter, how: Settlement, id: nat, n: nat)
    ensures Plus(TallyOne(WaiterSettled(w.id, w.requestId, how), id), NONE.(settled := n))
         == NONE.(settled := Hit(w.id, id) + n)
  {
  }

  lemma {:induction false} TallySettleAll(ws: seq<Waiter>, how: Settlement, id: nat)
    ensures TallyAll(SettleAll(ws, how), id) == NONE.(settled := Waiting(ws, id))
    decreases ws
  {
    if ws != [] {
      hide TallyAll, TallyOne, Plus, Hit;
      var rest := SettleAll(ws[1..], how);
      TallySettleAll(ws[1..], how, id);
      TallyCons(WaiterSettled(ws[0].id, ws[0].requestId, how), rest, id);
      PlusSettled(ws[0], how, id, Waiting(ws[1..], id));
    }
  }

  lemma PlusRejected(x: nat, id: nat, n: nat)
    ensures Plus(TallyOne(SendSettled(x, SendRejected), id), NONE.(sendSettled := n))
         == NONE.(sendSettled := Hit(x, id) + n)
  {
  }

  lemma PlusSentNow(transport: nat, x: nat, id: nat, n: nat)
    ensures var k := n + Hit(x, id);
            Plus(TallyOne(Sent(transport, Request(x)), id),
                 Plus(TallyOne(SendSettled(x, SendOk), id), NONE.(sendSettled := n, sent := n, sendOk := n)))
            == NONE.(sendSettled := k, sent := k, sendOk := k)
  {
  }

  lemma {:induction false} TallyRejectAll(queue: seq<PendingSend>, id: nat)
    ensures TallyAll(RejectAll(queue), id) == NONE.(sendSettled := Queued(queue, id))
    decreases queue
  {
    if queue != [] {
      hide TallyAll, TallyOne, Plus, Hit;
      var rest := RejectAll(queue[1..]);
      TallyRejectAll(queue[1..], id);
      TallyCons(SendSettled(queue[0].id, SendRejected), rest, id);
      PlusRejected(queue[0].id, id, Queued(queue[1..], id));
    }
  }

  lemma {:induction false} TallyFlushAll(transport: nat, queue: seq<PendingSend>, id: nat)
    ensures var n := Queued(queue, id);
            TallyAll(FlushAll(transport, queue), id) == NONE.(sendSettled := n, sent := n, sendOk := n)
    decreases queue
  {
    if queue != [] {
      hide TallyAll, TallyOne, Plus, Hit;
      var rest := FlushAll(transport, queue[1..]);
      var sent, ok := Sent(transport, Request(queue[0].id)), SendSettled(queue[0].id, SendOk);
      TallyFlushAll(transport, queue[1..], id);
      assert [sent, ok] + rest == [sent] + ([ok] + rest);
      TallyCons(sent, [ok] + rest, id);
      TallyCons(ok, rest, id);
      PlusSentNow(transport, queue[0].id, id, Queued(queue[1..], id));
    }
  }

  lemma {:induction false} WaitingAppend(a: seq<Waiter>, b: seq<Waiter>, id: nat)
    ensures Waiting(a + b, id) == Waiting(a, id) + Waiting(b, id)
    decreases a
  {
    if a == [] {
      assert a + b == b;
    } else {
      assert (a + b)[0] == a[0] && (a + b)[1..] == a[1..] + b;
      WaitingAppend(a[1..], b, id);
    }
  }

  lemma {:induction false} QueuedAppend(a: seq<PendingSend>, b: seq<PendingSend>, id: nat)
    ensures Queued(a + b, id) == Queued(a, id) + Queued(b, id)
    decreases a
  {
    if a == [] {
      assert a + b == b;
    } else {
      assert (a + b)[0] == a[0] && (a + b)[1..] == a[1..] + b;
      QueuedAppend(a[1..], b, id);
    }
  }

  lemma {:induction false} SelectionSplits(ws: seq<Waiter>, m: SessionMessage, id: nat)
    ensures Waiting(Selected(ws, m), id) + Waiting(Unselected(ws, m), id) == Waiting(ws, id)
    decreases ws
  {
    if ws != [] {
      hide Selects;
      SelectionSplits(ws[1..], m, id);
      assert ([ws[0]] + Selected(ws[1..], m))[1..] == Selected(ws[1..], m);
      assert ([ws[0]] + Unselected(ws[1..], m))[1..] == Unselected(ws[1..], m);
    }
  }

  lemma {:induction false} RequestSplits(ws: seq<Waiter>, requestId: string, id: nat)
    ensures Waiting(OfRequest(ws, requestId), id) + Waiting(WithoutRequest(ws, requestId), id) == Waiting(ws, id)
    decreases ws
  {
    if ws != [] {
      RequestSplits(ws[1..], requestId, id);
      assert ([ws[0]] + OfRequest(ws[1..], requestId))[1..] == OfRequest(ws[1..], requestId);
      assert ([ws[0]] + WithoutRequest(ws[1..], requestId))[1..] == WithoutRequest(ws[1..], requestId);
    }
  }

  lemma {:induction false} RemovalTakesOne(ws: seq<Waiter>, removed: nat, id: nat)
    requires FindWaiter(ws, removed).Some?
    ensures Waiting(ws, id) == Waiting(RemoveWaiter(ws, removed), id) + Hit(removed, id)
    decreases ws
  {
    if ws[0].id != removed {
      RemovalTakesOne(ws[1..], removed, id);
      assert ([ws[0]] + RemoveWaiter(ws[1..], removed))[1..] == RemoveWaiter(ws[1..], removed);
    }
  }

  lemma {:induction false} SendRemovalTakesOne(queue: seq<PendingSend>, removed: nat, id: nat)
    requires PendingSend(removed) in queue
    ensures Queued(queue, id) == Queued(RemoveSend(queue, removed), id) + Hit(removed, id)
    decreases queue
  {
    if queue[0].id != removed {
      assert queue[0] != PendingSend(removed);
      SendRemovalTakesOne(queue[1..], removed, id);
      assert ([queue[0]] + RemoveSend(queue[1..], removed))[1..] == RemoveSend(queue[1..], removed);
    }
  }

  lemma CancelBalances(calls: Calls, removed: nat, id: nat)
    ensures Balances(calls, CancelWaiter(calls, removed).calls, CancelWaiter(calls, removed).effects, id)
  {
    var found := FindWaiter(calls.waiters, removed);
    if found.Some? {
      RemovalTakesOne(calls.waiters, removed, id);
      TallySingle(WaiterSettled(removed, found.value.requestId, ByCancel), id);
    }
  }

  lemma ExpireWaiterBalances(calls: Calls, removed: nat, id: nat)
    ensures Balances(calls, ExpireWaiter(calls, removed).calls, ExpireWaiter(calls, removed).effects, id)
  {
    var found := FindWaiter(calls.waiters, removed);
    if found.Some? {
      RemovalTakesOne(calls.waiters, removed, id);
      TallySingle(WaiterSettled(removed, found.value.requestId, ByTimeout), id);
    }
  }

  lemma TallyTimedOut(removed: nat, id: nat)
    ensures TallyAll([SendSettled(removed, SendTimedOut)], id) == NONE.(sendSettled := Hit(removed, id))
  {
    hide TallyAll, TallyOne;
    TallySingle(SendSettled(removed, SendTimedOut), id);
    TallyKinds(0, removed, "", id);
  }

  lemma UnqueueBalances(calls: Calls, removed: nat, id: nat)
    requires PendingSend(removed) in calls.queue
    ensures Balances(calls, calls.(queue := RemoveSend(calls.queue, removed)), [SendSettled(removed, SendTimedOut)], id)
  {
    hide TallyAll, Queued, Waiting, RemoveSend;
    SendRemovalTakesOne(calls.queue, removed, id);
    TallyTimedOut(removed, id);
  }

  lemma ExpireSendBalances(calls: Calls, removed: nat, id: nat)
    ensures Balances(calls, ExpireSend(calls, removed).calls, ExpireSend(calls, removed).effects, id)
  {
    if PendingSend(removed) in calls.queue {
      hide Balances, CancelWaiter, RemoveSend;
      var shorter := calls.(queue := RemoveSend(calls.queue, removed));
      UnqueueBalances(calls, removed, id);
      CancelBalances(shorter, removed, id);
      BalancesThen(calls, shorter, CancelWaiter(shorter, removed).calls,
                   [SendSettled(removed, SendTimedOut)], CancelWaiter(shorter, removed).effects, id);
    } else {
      assert TallyAll([], id) == NONE;
    }
  }

  lemma BalancesThen(a: Calls, b: Calls, c: Calls, first: seq<Effect>, rest: seq<Effect>, id: nat)
    requires Balances(a, b, first, id) && Balances(b, c, rest, id)
    ensures Balances(a, c, first + rest, id)
  {
    hide TallyAll;
    TallyAppend(first, rest, id);
  }

  lemma ResolveBalances(calls: Calls, m: SessionMessage, requestId: string, id: nat)
    ensures Balances(calls, ResolveWaiters(calls, m, requestId).calls, ResolveWaiters(calls, m, requestId).effects, id)
  {
    SelectionSplits(calls.waiters, m, id);
    TallySettleAll(Selected(calls.waiters, m), ByMessage(requestId), id);
  }

  lemma RejectBalances(calls: Calls, requestId: string, id: nat)
    ensures Balances(calls, RejectWaiters(calls, requestId).calls, RejectWaiters(calls, requestId).effects, id)
  {
    RequestSplits(calls.waiters, requestId, id);
    TallySettleAll(OfRequest(calls.waiters, requestId), ByInvalidMessage(requestId), id);
  }

  lemma DropBalances(calls: Calls, id: nat)
    ensures Balances(calls, DropCalls(calls).calls, DropCalls(calls).effects, id)
  {
    var unwaited := calls.(waiters := []);
    TallySettleAll(calls.waiters, ByConnectionLoss, id);
    TallyRejectAll(calls.queue, id);
    hide TallyAll;
    assert Balances(calls, unwaited, SettleAll(calls.waiters, ByConnectionLoss), id);
    assert Balances(unwaited, unwaited.(queue := []), RejectAll(calls.queue), id);
    hide Balances;
    BalancesThen(calls, unwaited, unwaited.(queue := []),
                 SettleAll(calls.waiters, ByConnectionLoss), RejectAll(calls.queue), id);
  }

  lemma FlushBalances(calls: Calls, link: Link, id: nat)
    ensures Balances(calls, FlushCalls(calls, link).calls, FlushCalls(calls, link).effects, id)
  {
    TallyRejectAll(calls.queue, id);
    if CanSend(link) {
      TallyFlushAll(link.transport.value, calls.queue, id);
    }
  }

  lemma SendOnBalances(calls: Calls, w: Waiter, transport: nat, id: nat)
    requires w.id == calls.nextId
    ensures Balances(calls, MakeRequest(calls, w, SendOn(transport)).calls,
                     MakeRequest(calls, w, SendOn(transport)).effects, id)
  {
    hide TallyAll, TallyOne, Waiting, Queued, Plus;
    PlusMadeAndSent(Hit(w.id, id));
    AppendOne(calls, w, id);
    TallyMade(w, id);
    TallySend(transport, w.id, id);
    TallyAppend([RequestMade(w.id, w.requestId)], [Sent(transport, Request(w.id)), SendSettled(w.id, SendOk)], id);
  }

  lemma RefuseBalances(calls: Calls, w: Waiter, id: nat)
    requires w.id == calls.nextId
    ensures Balances(calls, MakeRequest(calls, w, Refuse).calls, MakeRequest(calls, w, Refuse).effects, id)
  {
    hide TallyAll, TallyOne, Waiting, Queued, Plus;
    PlusMadeAndRefused(Hit(w.id, id));
    TallyMade(w, id);
    TallyRefusal(w, id);
    TallyAppend([RequestMade(w.id, w.requestId)],
                [SendSettled(w.id, SendRejected), WaiterSettled(w.id, w.requestId, ByCancel)], id);
  }

  lemma EnqueueBalances(calls: Calls, w: Waiter, id: nat)
    requires w.id == calls.nextId
    ensures Balances(calls, MakeRequest(calls, w, Enqueue).calls, MakeRequest(calls, w, Enqueue).effects, id)
  {
    hide TallyAll, TallyOne, Waiting, Queued;
    AppendOne(calls, w, id);
    TallyMade(w, id);
  }

  lemma MakeBalances(calls: Calls, w: Waiter, route: Route, id: nat)
    requires w.id == calls.nextId
    ensures Balances(calls, MakeRequest(calls, w, route).calls, MakeRequest(calls, w, route).effects, id)
  {
    hide Balances, MakeRequest;
    match route {
      case SendOn(t) => SendOnBalances(calls, w, t, id);
      case Enqueue => EnqueueBalances(calls, w, id);
      case Refuse => RefuseBalances(calls, w, id);
    }
  }

  lemma AppendOne(calls: Calls, w: Waiter, id: nat)
    ensures Waiting(calls.waiters + [w], id) == Waiting(calls.waiters, id) + Hit(w.id, id)
    ensures Queued(calls.queue + [PendingSend(w.id)], id) == Queued(calls.queue, id) + Hit(w.id, id)
  {
    WaitingAppend(calls.waiters, [w], id);
    QueuedAppend(calls.queue, [PendingSend(w.id)], id);
    assert Waiting([w], id) == Hit(w.id, id);
    assert Queued([PendingSend(w.id)], id) == Hit(w.id, id);
  }

  // ---------------------------------------------------------------------------
  // Effects that leave the books alone
  // ---------------------------------------------------------------------------

  /** Effects that concern no request. */
  predicate Neutral(es: seq<Effect>) {
    forall i :: 0 <= i < |es| ==>
      && !es[i].RequestMade? && !es[i].WaiterSettled? && !es[i].SendSettled?
      && (es[i].Sent? ==> !es[i].wire.Request?)
  }

  lemma {:induction false} TallyNeutral(es: seq<Effect>, id: nat)
    requires Neutral(es)
    ensures TallyAll(es, id) == NONE
  {
    if es != [] {
      assert TallyOne(es[0], id) == NONE;
      hide TallyOne;
      TallyNeutral(es[1..], id);
    }
  }


  /** The books stay balanced when other things happen around. */
  lemma BalancesAround(before: Calls, after: Calls, pre: seq<Effect>, es: seq<Effect>, post: seq<Effect>, id: nat)
    requires Balances(before, after, es, id) && Neutral(pre) && Neutral(post)
    ensures Balances(before, after, pre + es + post, id)
  {
    TallyNeutral(pre, id);
    TallyNeutral(post, id);
    TallyAppend(pre, es, id);
    TallyAppend(pre + es, post, id);
  }

  lemma NeutralBalances(calls: Calls, es: seq<Effect>, id: nat)
    requires Neutral(es)
    ensures Balances(calls, calls, es, id)
  {
    TallyNeutral(es, id);
  }

  // ---------------------------------------------------------------------------
  // All requests at once
  // ---------------------------------------------------------------------------

  /** The books of every request balance over a step. */
  ghost predicate Booked(before: Calls, n: Next) {
    forall id: nat :: Balances(before, n.client.calls, n.effects, id)
  }

  lemma BookedNeutral(before: Calls, n: Next)
    requires n.client.calls == before && Neutral(n.effects)
    ensures Booked(before, n)
  {
    hide Balances;
    forall id: nat ensures Balances(before, n.client.calls, n.effects, id) {
      NeutralBalances(before, n.effects, id);
    }
  }

  lemma BookedAround(before: Calls, n: Next, pre: seq<Effect>, es: seq<Effect>, post: seq<Effect>)
    requires Booked(before, Next(n.client, es)) && Neutral(pre) && Neutral(post) && n.effects == pre + es + post
    ensures Booked(before, n)
  {
    hide Balances;
    forall id: nat ensures Balances(before, n.client.calls, n.effects, id) {
      assert Balances(before, Next(n.client, es).client.calls, es, id);
      BalancesAround(before, n.client.calls, pre, es, post, id);
    }
  }

  lemma BookedAfter(before: Calls, n: Next, pre: seq<Effect>)
    requires Neutral(pre) && |pre| <= |n.effects| && n.effects[..|pre|] == pre
    requires Booked(before, Next(n.client, n.effects[|pre|..]))
    ensures Booked(before, n)
  {
    hide Booked;
    assert n.effects == pre + n.effects[|pre|..] + [];
    BookedAround(before, n, pre, n.effects[|pre|..], []);
  }
}
