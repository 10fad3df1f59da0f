/**
 * Conservation of requests: over any run each request's waiter is settled exactly once or is
 * still waiting, its send is settled exactly once or is still queued, and it reaches the wire
 * exactly when its send succeeds.
 */
module DaemonSessionConservation {
  import opened DaemonSession
  import opened DaemonSessionLedger
  import opened DaemonSessionQuiet
  import opened DaemonSessionShapes

  lemma ShapeIsBooked(c: Client, n: Next)
    requires Quiet(c, n) || Hearing(c, n) || GivingUp(c, n)
    ensures Booked(c.calls, n)
  {
    hide QuietEffects, QuietCalls, Booked;
    if Hearing(c, n) {
      BookedAfter(c.calls, n, [ValidFrame]);
    } else if GivingUp(c, n) {
      BookedAfter(c.calls, n, [HeartbeatFailed, LivenessTeardown]);
    }
  }

  lemma SilentIsBooked(c: Client, n: Next)
    requires Opening(c, n) || Pinging(c, n) || Faltering(c, n)
    ensures Booked(c.calls, n)
  {
    assert Neutral(n.effects);
    hide Neutral, Booked;
    BookedNeutral(c.calls, n);
  }

  lemma CallIsBooked(c: Client, e: Event)
    requires e.CallRequest? || e.CallSubscribe? || e.CallUnsubscribe?
    ensures Booked(c.calls, Step(c, e))
  {
    hide MakeRequest, Balances;
    match e {
      case CallRequest(requestId, responseType, accepts, timed) =>
        var w := Waiter(c.calls.nextId, requestId, responseType, accepts, timed);
        forall id: nat {
          MakeBalances(c.calls, w, RouteFor(c.link), id);
        }
      case _ => BookedNeutral(c.calls, Step(c, e));
    }
  }

  lemma BookedThen(before: Calls, first: Next, rest: Next)
    requires Booked(before, first) && Booked(first.client.calls, rest)
    ensures Booked(before, Next(rest.client, first.effects + rest.effects))
  {
    hide Balances;
    var all := Next(rest.client, first.effects + rest.effects);
    forall id: nat ensures Balances(before, all.client.calls, all.effects, id) {
      BalancesThen(before, first.client.calls, rest.client.calls, first.effects, rest.effects, id);
    }
  }

  lemma {:induction false} RemakingIsBooked(c: Client, files: seq<string>)
    ensures Booked(c.calls, RemakeRequests(c, files))
    decreases files
  {
    hide Booked, SendRequest;
    if files == [] {
      BookedNeutral(c.calls, Next(c, []));
    } else {
      var again := CallRequest(files[0], FILE_SUBSCRIBE_RESPONSE, ANY_PAYLOAD, true);
      var one := Step(c, again);
      CallIsBooked(c, again);
      RemakingIsBooked(one.client, files[1..]);
      BookedThen(c.calls, one, RemakeRequests(one.client, files[1..]));
    }
  }

  lemma SendingIsBooked(c: Client)
    ensures Booked(c.calls, SendRequests(c))
  {
    hide Balances, RemakeRequests, FlushCalls;
    var remade := RemakeRequests(c, c.others.files);
    var flushed := FlushCalls(remade.client.calls, c.link);
    RemakingIsBooked(c, c.others.files);
    forall id: nat {
      FlushBalances(remade.client.calls, c.link, id);
    }
    BookedThen(c.calls, remade, Next(remade.client.(calls := flushed.calls), flushed.effects));
  }

  lemma HandshakeIsBooked(c: Client, n: Next)
    requires Handshake(c, n)
    ensures Booked(c.calls, n)
  {
    hide Handshake, Booked, SendRequests, Resubscribe;
    var up := EnterConnected(Heard(c));
    var pre, post := [ValidFrame, StatusChanged(Connected)] + Resubscribe(up), ResolveConnect(up.link).effects;
    HandshakeParts(c, n);
    SendingIsBooked(up);
    ResubscribingOnly(up);
    assert Neutral(pre) && Neutral(post);
    hide Neutral;
    BookedSameCalls(c.calls, SendRequests(up), Next(n.client, SendRequests(up).effects));
    BookedAround(c.calls, n, pre, SendRequests(up).effects, post);
  }

  lemma BookedSameCalls(before: Calls, n: Next, m: Next)
    requires Booked(before, n) && m.client.calls == n.client.calls && m.effects == n.effects
    ensures Booked(before, m)
  {
    hide Balances;
  }

  /** Every step keeps every request's books. */
  lemma StepIsBooked(c: Client, e: Event)
    ensures Booked(c.calls, Step(c, e))
  {
    var n := Step(c, e);
    hide Step, Booked, Quiet, Opening, Hearing, Handshake, Pinging, Faltering, GivingUp;
    StepShape(c, e);
    if e.CallRequest? || e.CallSubscribe? || e.CallUnsubscribe? { CallIsBooked(c, e); }
    else if Handshake(c, n) { HandshakeIsBooked(c, n); }
    else if Opening(c, n) || Pinging(c, n) || Faltering(c, n) { SilentIsBooked(c, n); }
    else { ShapeIsBooked(c, n); }
  }

  lemma {:induction false} RunIsBooked(c: Client, events: seq<Event>)
    ensures Booked(c.calls, Run(c, events))
  {
    if events == [] {
      BookedNeutral(c.calls, Run(c, events));
    } else {
      hide Step, Balances;
      var before := Run(c, events[..|events| - 1]);
      var last := Step(before.client, events[|events| - 1]);
      RunIsBooked(c, events[..|events| - 1]);
      StepIsBooked(before.client, events[|events| - 1]);
      forall id: nat ensures Balances(c.calls, last.client.calls, before.effects + last.effects, id) {
        BalancesThen(c.calls, before.client.calls, last.client.calls, before.effects, last.effects, id);
      }
    }
  }

  /**
   * Over every run: a request's waiter is unsettled exactly while it waits and settles at most
   * once; its send is unsettled exactly while it is queued and settles at most once; and it went
   * over the wire exactly as often as its send succeeded, so at most once.
   */
  lemma RequestsAreConserved(reconnectEnabled: bool, events: seq<Event>, id: nat)
    ensures var run := Run(Initial(reconnectEnabled), events);
            var t := TallyAll(run.effects, id);
            var made := if id < run.client.calls.nextId then 1 else 0;
            && t.made == made
            && t.settled + Waiting(run.client.calls.waiters, id) == made
            && t.sendSettled + Queued(run.client.calls.queue, id) == made
            && t.sent == t.sendOk <= t.sendSettled
  {
    RunIsBooked(Initial(reconnectEnabled), events);
    assert Balances(Initial(reconnectEnabled).calls, Run(Initial(reconnectEnabled), events).client.calls,
                    Run(Initial(reconnectEnabled), events).effects, id);
    OkIsSettled(Run(Initial(reconnectEnabled), events).effects, id);
  }

  lemma {:induction false} OkIsSettled(es: seq<Effect>, id: nat)
    ensures TallyAll(es, id).sendOk <= TallyAll(es, id).sendSettled
  {
    if es != [] {
      OkIsSettled(es[1..], id);
    }
  }

  // ---------------------------------------------------------------------------
  // Identities
  // ---------------------------------------------------------------------------

  /** Waiters are told apart by their ids. */
  predicate DistinctIds(ws: seq<Waiter>) {
    forall i, j :: 0 <= i < j < |ws| ==> ws[i].id != ws[j].id
  }

  lemma {:induction false} WaitingTwice(ws: seq<Waiter>, i: nat, j: nat)
    requires i < j < |ws|
    ensures Waiting(ws, ws[i].id) >= 1
    ensures ws[i].id == ws[j].id ==> Waiting(ws, ws[i].id) >= 2
    decreases ws
  {
    if i > 0 {
      WaitingTwice(ws[1..], i - 1, j - 1);
    } else {
      WaitingOnce(ws[1..], j - 1);
    }
  }

  lemma {:induction false} WaitingOnce(ws: seq<Waiter>, i: nat)
    requires i < |ws|
    ensures Waiting(ws, ws[i].id) >= 1
    decreases ws
  {
    if i > 0 {
      WaitingOnce(ws[1..], i - 1);
    }
  }

  /** In every run the unsettled waiters have distinct ids, all handed out already. */
  lemma RunWaiters(enabled: bool, events: seq<Event>)
    ensures var calls := Run(Initial(enabled), events).client.calls;
            DistinctIds(calls.waiters) && forall w :: w in calls.waiters ==> w.id < calls.nextId
  {
    hide Run;
    var calls := Run(Initial(enabled), events).client.calls;
    var ws := calls.waiters;
    forall i, j | 0 <= i < j < |ws| ensures ws[i].id != ws[j].id {
      RequestsAreConserved(enabled, events, ws[i].id);
      WaitingTwice(ws, i, j);
    }
    forall w | w in ws ensures w.id < calls.nextId {
      var i :| 0 <= i < |ws| && ws[i] == w;
      RequestsAreConserved(enabled, events, w.id);
      WaitingOnce(ws, i);
    }
  }
}
