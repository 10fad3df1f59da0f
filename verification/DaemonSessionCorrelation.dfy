/** Correlation: a response settles only waiters of its own request, and only requests that were made. */
module DaemonSessionCorrelation {
  import opened Sequences
  import opened DaemonSession
  import opened DaemonSessionQuiet
  import opened DaemonSessionShapes

  /** Every unsettled waiter, and every settled one, belongs to a request made in the trace. */
  ghost predicate Explains(made: seq<Effect>, c: Client) {
    forall w :: w in c.calls.waiters ==> RequestMade(w.id, w.requestId) in made
  }

  predicate Answered(made: seq<Effect>, e: Effect) {
    e.WaiterSettled? ==> RequestMade(e.id, e.requestId) in made && Correlated(e.settlement, e.requestId)
  }

  predicate AllAnswered(made: seq<Effect>, es: seq<Effect>) {
    forall i :: 0 <= i < |es| ==> Answered(made, es[i])
  }

  lemma QuietAnswered(made: seq<Effect>, c: Client, es: seq<Effect>)
    requires Explains(made, c) && QuietEffects(c, es)
    ensures AllAnswered(made, es)
  {
    forall i | 0 <= i < |es| ensures Answered(made, es[i]) {
      assert QuietEffect(c, es[i]);
      if es[i].WaiterSettled? {
        var k :| 0 <= k < |c.calls.waiters| && c.calls.waiters[k].id == es[i].id
              && c.calls.waiters[k].requestId == es[i].requestId;
        assert c.calls.waiters[k] in c.calls.waiters;
      }
    }
  }

  predicate SettlesNothing(es: seq<Effect>) {
    forall i :: 0 <= i < |es| ==> !es[i].WaiterSettled?
  }

  lemma UnsettledAnswered(made: seq<Effect>, es: seq<Effect>)
    requires SettlesNothing(es)
    ensures AllAnswered(made, es)
  {
  }

  lemma SameWaiters(made: seq<Effect>, before: Client, after: Client)
    requires Explains(made, before) && forall w :: w in after.calls.waiters ==> w in before.calls.waiters
    ensures Explains(made, after)
  {
  }

  lemma SilentAnswered(made: seq<Effect>, c: Client, n: Next)
    requires Explains(made, c) && (Opening(c, n) || Pinging(c, n) || Faltering(c, n))
    ensures AllAnswered(made, n.effects) && Explains(made, n.client)
  {
    assert SettlesNothing(n.effects);
    hide AllAnswered, Explains;
    UnsettledAnswered(made, n.effects);
    SameWaiters(made, c, n.client);
  }

  lemma ShapeAnswered(made: seq<Effect>, c: Client, n: Next)
    requires Explains(made, c) && (Quiet(c, n) || Hearing(c, n) || GivingUp(c, n))
    ensures AllAnswered(made, n.effects) && Explains(made, n.client)
  {
    hide QuietEffects;
    if Quiet(c, n) {
      QuietAnswered(made, c, n.effects);
    } else if Hearing(c, n) {
      QuietAnswered(made, Heard(c), n.effects[1..]);
    } else {
      QuietAnswered(made, c.(heart := RejectProbe(c.heart).(failures := 0)), n.effects[2..]);
    }
  }

  lemma CallAnswered(made: seq<Effect>, c: Client, e: Event)
    requires Explains(made, c) && (e.CallRequest? || e.CallSubscribe? || e.CallUnsubscribe?)
    ensures AllAnswered(made + Step(c, e).effects, Step(c, e).effects)
    ensures Explains(made + Step(c, e).effects, Step(c, e).client)
  {
    var es := Step(c, e).effects;
    if e.CallRequest? {
      assert es[0] == RequestMade(c.calls.nextId, e.requestId);
      assert es[0] in made + es;
    }
  }

  lemma Later(made: seq<Effect>, es: seq<Effect>, more: seq<Effect>, c: Client)
    requires AllAnswered(made, es) && Explains(made, c)
    ensures AllAnswered(made + more, es) && Explains(made + more, c)
  {
    assert forall i :: 0 <= i < |es| ==> Answered(made, es[i]);
  }

  lemma {:induction false} RemakingAnswered(made: seq<Effect>, c: Client, files: seq<string>)
    requires Explains(made, c)
    ensures var remade := RemakeRequests(c, files);
            AllAnswered(made + remade.effects, remade.effects) && Explains(made + remade.effects, remade.client)
    decreases files
  {
    hide AllAnswered, Explains, SendRequest;
    if files == [] {
      UnsettledAnswered(made, []);
      assert made + [] == made;
    } else {
      var again := CallRequest(files[0], FILE_SUBSCRIBE_RESPONSE, ANY_PAYLOAD, true);
      var one := Step(c, again);
      var rest := RemakeRequests(one.client, files[1..]);
      CallAnswered(made, c, again);
      RemakingAnswered(made + one.effects, one.client, files[1..]);
      Later(made + one.effects, one.effects, rest.effects, one.client);
      Assoc(made, one.effects, rest.effects);
      AnsweredConcat(made + one.effects + rest.effects, one.effects, rest.effects);
    }
  }

  lemma {:induction false} FlushSettlesNothing(transport: nat, queue: seq<PendingSend>)
    ensures SettlesNothing(FlushAll(transport, queue)) && SettlesNothing(RejectAll(queue))
    decreases queue
  {
    if queue != [] {
      FlushSettlesNothing(transport, queue[1..]);
    }
  }

  lemma HandshakeAnswered(made: seq<Effect>, c: Client, n: Next)
    requires Explains(made, c) && Handshake(c, n)
    ensures AllAnswered(made + n.effects, n.effects) && Explains(made + n.effects, n.client)
  {
    var up := EnterConnected(Heard(c));
    var remade := RemakeRequests(up, up.others.files);
    var pre, post := [ValidFrame, StatusChanged(Connected)] + Resubscribe(up), ResolveConnect(up.link).effects;
    var flushed := FlushCalls(remade.client.calls, up.link).effects;
    HandshakeParts(c, n);
    ResubscribingOnly(up);
    FlushSettlesNothing(up.link.transport.GetOr(0), remade.client.calls.queue);
    assert SettlesNothing(pre) && SettlesNothing(flushed + post);
    assert n.effects == pre + remade.effects + (flushed + post);
    assert n.client.calls.waiters == remade.client.calls.waiters;
    hide AllAnswered, Explains, SettlesNothing, RemakeRequests, Handshake, Resubscribe, FlushAll, RejectAll;
    SameWaiters(made, c, up);
    RemakingAnswered(made, up, up.others.files);
    SameWaiters(made + remade.effects, remade.client, n.client);
    AnsweredAround(made, pre, remade.effects, flushed + post, n.client);
  }

  /** Effects that settle nothing do not matter around others. */
  lemma AnsweredAround(made: seq<Effect>, pre: seq<Effect>, es: seq<Effect>, post: seq<Effect>, c: Client)
    requires AllAnswered(made + es, es) && Explains(made + es, c) && SettlesNothing(pre) && SettlesNothing(post)
    ensures var all := pre + es + post; AllAnswered(made + all, all) && Explains(made + all, c)
  {
    var all := pre + es + post;
    assert forall e :: e in made + es ==> e in made + all;
    forall i | 0 <= i < |all| ensures Answered(made + all, all[i]) {
      if |pre| <= i < |pre| + |es| {
        assert all[i] == es[i - |pre|];
      }
    }
  }

  lemma StepAnswered(made: seq<Effect>, c: Client, e: Event)
    requires Explains(made, c)
    ensures AllAnswered(made + Step(c, e).effects, Step(c, e).effects)
    ensures Explains(made + Step(c, e).effects, Step(c, e).client)
  {
    var n := Step(c, e);
    hide Step, AllAnswered, Explains, Quiet, Opening, Hearing, Handshake, Pinging, Faltering, GivingUp;
    StepShape(c, e);
    if e.CallRequest? || e.CallSubscribe? || e.CallUnsubscribe? {
      CallAnswered(made, c, e);
    } else if Handshake(c, n) {
      HandshakeAnswered(made, c, n);
    } else {
      if Opening(c, n) || Pinging(c, n) || Faltering(c, n) { SilentAnswered(made, c, n); }
      else { ShapeAnswered(made, c, n); }
      Later(made, n.effects, n.effects, n.client);
    }
  }

  /**
   * Over every run: whatever settles a waiter, the waiter belongs to a request that was made, and
   * a message settles it only if it carries that request's id.
   */
  lemma {:induction false} SettlementsAreCorrelated(reconnectEnabled: bool, events: seq<Event>)
    ensures var run := Run(Initial(reconnectEnabled), events);
            AllAnswered(run.effects, run.effects) && Explains(run.effects, run.client)
  {
    if events != [] {
      hide Step, AllAnswered, Explains;
      var before := Run(Initial(reconnectEnabled), events[..|events| - 1]);
      var last := Step(before.client, events[|events| - 1]);
      SettlementsAreCorrelated(reconnectEnabled, events[..|events| - 1]);
      StepAnswered(before.effects, before.client, events[|events| - 1]);
      Later(before.effects, before.effects, last.effects, before.client);
      AnsweredConcat(before.effects + last.effects, before.effects, last.effects);
    }
  }

  lemma AnsweredConcat(made: seq<Effect>, a: seq<Effect>, b: seq<Effect>)
    requires AllAnswered(made, a) && AllAnswered(made, b)
    ensures AllAnswered(made, a + b)
  {
    hide Answered;
  }
}
