/**
 * Terminal-directory subscriptions: on every connection the daemon ends up holding exactly what
 * the client's registry lists, provided that no two subscriptions share a key.
 */
module DaemonSessionSubscriptions {
  import opened Sequences
  import opened SubscriptionKey
  import opened DaemonSession
  import opened DaemonSessionInvariant
  import opened DaemonSessionQuiet
  import opened DaemonSessionShapes
  import opened DaemonSessionWire
  import opened DaemonSessionExamples

  function Held(registry: seq<Subscription>): set<Subscription> {
    set s | s in registry
  }

  predicate DistinctKeys(registry: seq<Subscription>) {
    forall i, j :: 0 <= i < j < |registry| ==> Key(registry[i]) != Key(registry[j])
  }

  /** No two subscriptions of `x` share a key. */
  ghost predicate Injective(x: iset<Subscription>) {
    forall a, b :: a in x && b in x && Key(a) == Key(b) ==> a == b
  }

  ghost predicate Within(registry: seq<Subscription>, x: iset<Subscription>) {
    forall s :: s in registry ==> s in x
  }

  lemma {:induction false} PutKeepsKeys(registry: seq<Subscription>, s: Subscription)
    requires DistinctKeys(registry)
    ensures DistinctKeys(Put(registry, s))
    ensures forall t :: t in Put(registry, s) <==> t == s || (t in registry && Key(t) != Key(s))
    decreases registry
  {
    hide Key;
    if registry != [] && Key(registry[0]) != Key(s) {
      PutKeepsKeys(registry[1..], s);
      assert registry == [registry[0]] + registry[1..];
    } else if registry != [] {
      assert registry == [registry[0]] + registry[1..];
      assert forall t :: t in registry[1..] ==> Key(t) != Key(s);
    }
  }

  lemma {:induction false} DropKeepsKeys(registry: seq<Subscription>, key: string)
    requires DistinctKeys(registry)
    ensures DistinctKeys(Drop(registry, key))
    ensures forall t :: t in Drop(registry, key) <==> t in registry && Key(t) != key
    decreases registry
  {
    if registry != [] {
      assert registry == [registry[0]] + registry[1..];
      if Key(registry[0]) != key {
        DropKeepsKeys(registry[1..], key);
      } else {
        assert forall t :: t in registry[1..] ==> Key(t) != key;
      }
    }
  }

  /** Without shared keys the keyed registry is the plain set of subscriptions. */
  lemma PutAdds(registry: seq<Subscription>, s: Subscription, x: iset<Subscription>)
    requires DistinctKeys(registry) && Injective(x) && Within(registry, x) && s in x
    ensures DistinctKeys(Put(registry, s)) && Within(Put(registry, s), x)
    ensures Held(Put(registry, s)) == Held(registry) + {s}
  {
    hide Key, DistinctKeys, Put;
    PutKeepsKeys(registry, s);
  }

  lemma DropRemoves(registry: seq<Subscription>, s: Subscription, x: iset<Subscription>)
    requires DistinctKeys(registry) && Injective(x) && Within(registry, x) && s in x
    ensures DistinctKeys(Drop(registry, Key(s))) && Within(Drop(registry, Key(s)), x)
    ensures Held(Drop(registry, Key(s))) == Held(registry) - {s}
  {
    hide Key, DistinctKeys, Drop;
    DropKeepsKeys(registry, Key(s));
  }

  /** The keys, in the order in which they are subscribed to again. */
  function Keys(registry: seq<Subscription>): seq<string> {
    if registry == [] then [] else [Key(registry[0])] + Keys(registry[1..])
  }

  function Equals(key: string): string -> bool { (k: string) => k == key }

  /** A key that is set again keeps its place, a new one goes last, and a deleted one leaves the others in order. */
  lemma {:induction false} KeysKeepPlaces(registry: seq<Subscription>, s: Subscription)
    ensures Keys(Put(registry, s)) == if Key(s) in Keys(registry) then Keys(registry) else Keys(registry) + [Key(s)]
    ensures DistinctKeys(registry) ==> Keys(Drop(registry, Key(s))) == FilterOut(Equals(Key(s)), Keys(registry))
    decreases registry
  {
    if registry != [] {
      hide Key;
      var head, tail := registry[0], registry[1..];
      KeysKeepPlaces(tail, s);
      assert Keys(registry) == [Key(head)] + Keys(tail);
      assert ([s] + tail)[1..] == tail && ([head] + Put(tail, s))[1..] == Put(tail, s);
      assert ([head] + Drop(tail, Key(s)))[1..] == Drop(tail, Key(s));
      assert ([Key(head)] + Keys(tail))[1..] == Keys(tail);
      if Key(head) == Key(s) && DistinctKeys(registry) {
        KeysOfDistinct(tail, Key(s));
      }
      assert DistinctKeys(registry) ==> DistinctKeys(tail) by {
        assert forall i :: 0 <= i < |tail| ==> tail[i] == registry[i + 1];
      }
    } else {
      assert Keys([s]) == [Key(s)] by { assert [s][1..] == []; }
    }
  }

  lemma {:induction false} KeysOfDistinct(registry: seq<Subscription>, key: string)
    requires forall s :: s in registry ==> Key(s) != key
    ensures FilterOut(Equals(key), Keys(registry)) == Keys(registry)
    decreases registry
  {
    if registry != [] {
      hide Key;
      var tail := registry[1..];
      assert registry[0] in registry && forall s :: s in tail ==> s in registry;
      KeysOfDistinct(tail, key);
      assert ([Key(registry[0])] + Keys(tail))[1..] == Keys(tail);
    }
  }

  // ---------------------------------------------------------------------------
  // The refinement
  // ---------------------------------------------------------------------------

  /** The daemon holds the registry once connected, and nothing while the connection is coming up. */
  predicate InStep(held: set<Subscription>, c: Client) {
    && (c.link.status.Connected? ==> held == Held(c.registry))
    && (c.link.status.Connecting? ==> held == {})
  }

  /** The registry is a map, and its entries come from `x`. */
  ghost predicate Registered(c: Client, x: iset<Subscription>) {
    DistinctKeys(c.registry) && Within(c.registry, x)
  }

  predicate IsSubscription(e: Event) { e.CallSubscribe? || e.CallUnsubscribe? }

  /** Every subscription that a run makes or ends comes from `x`. */
  ghost predicate AllFrom(events: seq<Event>, x: iset<Subscription>) {
    forall i :: 0 <= i < |events| && IsSubscription(events[i]) ==> events[i].subscription in x
  }

  /** Only the two calls change the registry. */
  lemma KeepsRegistry(c: Client, e: Event)
    requires !IsSubscription(e)
    ensures Step(c, e).client.registry == c.registry
  {
    var n := Step(c, e);
    StepShape(c, e);
    if Handshake(c, n) {
      HandshakeParts(c, n);
    }
    assert e.CallRequest? ==> n.client.registry == c.registry;
    hide Step, QuietEffects, QuietCalls, Handshake, SendRequests;
  }

  lemma CallRegisters(c: Client, e: Event)
    requires IsSubscription(e)
    ensures Step(c, e).client.link == c.link
    ensures Step(c, e).client.registry
         == if e.CallSubscribe? then Put(c.registry, e.subscription) else Drop(c.registry, Key(e.subscription))
  {
  }

  /** The subscription was made at `k`, and none with its key was made or ended since. */
  predicate SubscribedLast(events: seq<Event>, s: Subscription, k: nat) {
    && k < |events| && events[k].CallSubscribe? && events[k].subscription == s
    && forall j :: k < j < |events| && IsSubscription(events[j]) ==> Key(events[j].subscription) != Key(s)
  }

  lemma SubscribedEarlier(events: seq<Event>, s: Subscription, k: nat)
    requires events != [] && k < |events| - 1
    ensures var e := events[|events| - 1];
            SubscribedLast(events, s, k)
            <==> SubscribedLast(events[..|events| - 1], s, k) && (IsSubscription(e) ==> Key(e.subscription) != Key(s))
  {
    hide Key;
    var earlier := events[..|events| - 1];
    assert forall j :: 0 <= j < |earlier| ==> earlier[j] == events[j];
  }

  /**
   * Over every run, connected or not: a subscription is registered exactly if the last call with
   * its key made it.
   */
  lemma {:induction false} RegistryFollowsCalls(reconnectEnabled: bool, events: seq<Event>, s: Subscription)
    ensures var registry := Run(Initial(reconnectEnabled), events).client.registry;
            DistinctKeys(registry) && (s in registry <==> exists k: nat :: SubscribedLast(events, s, k))
  {
    if events != [] {
      var earlier, e := events[..|events| - 1], events[|events| - 1];
      var before := Run(Initial(reconnectEnabled), earlier).client;
      RegistryFollowsCalls(reconnectEnabled, earlier, s);
      if IsSubscription(e) {
        CallRegisters(before, e);
        PutKeepsKeys(before.registry, e.subscription);
        DropKeepsKeys(before.registry, Key(e.subscription));
      } else {
        KeepsRegistry(before, e);
      }
      hide Step, Put, Drop, Key, DistinctKeys;
      SubscribedStep(events, s);
    }
  }

  lemma SubscribedStep(events: seq<Event>, s: Subscription)
    requires events != []
    ensures var earlier, e := events[..|events| - 1], events[|events| - 1];
            (exists k: nat :: SubscribedLast(events, s, k))
            <==> if IsSubscription(e) && Key(e.subscription) == Key(s) then e.CallSubscribe? && e.subscription == s
                 else exists k: nat :: SubscribedLast(earlier, s, k)
  {
    hide Key;
    var n := |events| - 1;
    var earlier, e := events[..n], events[n];
    if k: nat :| SubscribedLast(events, s, k) && k < n {
      SubscribedEarlier(events, s, k);
    }
    if k: nat :| SubscribedLast(earlier, s, k) {
      SubscribedEarlier(events, s, k);
    }
    if e.CallSubscribe? && e.subscription == s {
      assert SubscribedLast(events, s, n);
    }
  }

  lemma StepRegistered(c: Client, e: Event, x: iset<Subscription>)
    requires Registered(c, x) && Injective(x) && (IsSubscription(e) ==> e.subscription in x)
    ensures Registered(Step(c, e).client, x)
  {
    match e {
      case CallSubscribe(s) => PutAdds(c.registry, s, x);
      case CallUnsubscribe(s) => DropRemoves(c.registry, s, x);
      case _ => KeepsRegistry(c, e); hide Step;
    }
    hide Put, Drop, DistinctKeys, Within, Injective;
  }

  lemma UnheardInStep(l: Line, c: Client, n: Next)
    requires InStep(l.held, c) && OnLine(l, c)
    requires Quiet(c, n) || Hearing(c, n) || GivingUp(c, n) || Pinging(c, n) || Faltering(c, n)
    ensures InStep(HearAll(l, n.effects).held, n.client)
  {
    UnheardSteps(l, c, n);
    hide HearAll, QuietEffects, QuietCalls;
  }

  lemma OpeningInStep(l: Line, c: Client, n: Next)
    requires InStep(l.held, c) && OnLine(l, c) && Opening(c, n)
    ensures InStep(HearAll(l, n.effects).held, n.client)
  {
    hide HearAll;
    OpeningHeard(l, c, n);
  }

  lemma HandshakeInStep(l: Line, c: Client, n: Next)
    requires InStep(l.held, c) && OnLine(l, c) && Handshake(c, n) && c.link.transport.Some?
    ensures InStep(HearAll(l, n.effects).held, n.client)
  {
    assert c.link.status.Connecting?;
    HandshakeHeard(l, c, n);
    HandshakeParts(c, n);
    hide HearAll, Handshake, SendRequests;
  }

  lemma RequestInStep(l: Line, c: Client, e: Event)
    requires InStep(l.held, c) && OnLine(l, c) && e.CallRequest?
    ensures InStep(HearAll(l, Step(c, e).effects).held, Step(c, e).client)
  {
    RequestOnLine(l, c, e);
    hide HearAll;
  }

  /** Every step but the two calls keeps client and daemon in step. */
  lemma OtherInStep(l: Line, c: Client, e: Event)
    requires InStep(l.held, c) && OnLine(l, c) && Inv(c) && !IsSubscription(e)
    ensures InStep(HearAll(l, Step(c, e).effects).held, Step(c, e).client)
  {
    var n := Step(c, e);
    StepShape(c, e);
    assert Handshake(c, n) ==> c.link.transport.Some?;
    hide Step, InStep, HearAll, OnLine, Inv, Quiet, Opening, Hearing, Handshake, Pinging, Faltering, GivingUp;
    if e.CallRequest? { RequestInStep(l, c, e); }
    else if Opening(c, n) { OpeningInStep(l, c, n); }
    else if Handshake(c, n) { HandshakeInStep(l, c, n); }
    else { UnheardInStep(l, c, n); }
  }

  /** Another registered subscription has the key. */
  ghost predicate Collides(registry: seq<Subscription>, s: Subscription) {
    exists t :: t in registry && Key(t) == Key(s) && t != s
  }

  lemma CallHeard(l: Line, c: Client, e: Event)
    requires IsSubscription(e) && CanSend(c.link)
    ensures HearAll(l, Step(c, e).effects).held
         == if e.CallSubscribe? then l.held + {e.subscription} else l.held - {e.subscription}
  {
    var t := c.link.transport.value;
    var sent := Sent(t, if e.CallSubscribe? then Subscribe(e.subscription) else Unsubscribe(e.subscription));
    assert Step(c, e).effects == [sent];
    hide HearAll, Step;
    HearOne(l, sent);
  }

  lemma PutIsAdding(registry: seq<Subscription>, s: Subscription)
    requires DistinctKeys(registry)
    ensures Held(Put(registry, s)) == Held(registry) + {s} <==> !Collides(registry, s)
  {
    hide Key, DistinctKeys, Put;
    PutKeepsKeys(registry, s);
    if t :| t in registry && Key(t) == Key(s) && t != s {
      assert t in Held(registry) + {s} && t !in Held(Put(registry, s));
    }
  }

  lemma DropIsRemoving(registry: seq<Subscription>, s: Subscription)
    requires DistinctKeys(registry)
    ensures Held(Drop(registry, Key(s))) == Held(registry) - {s} <==> !Collides(registry, s)
  {
    hide Key, DistinctKeys, Drop;
    DropKeepsKeys(registry, Key(s));
    if t :| t in registry && Key(t) == Key(s) && t != s {
      assert t in Held(registry) - {s} && t !in Held(Drop(registry, Key(s)));
    }
  }

  /**
   * Why keys must not collide: whatever is registered, subscribing or unsubscribing keeps a
   * connected client in step with the daemon if and only if no other subscription with the same
   * key is registered.
   */
  lemma CollisionLosesSubscription(l: Line, c: Client, e: Event)
    requires IsSubscription(e) && CanSend(c.link) && InStep(l.held, c) && DistinctKeys(c.registry)
    ensures InStep(HearAll(l, Step(c, e).effects).held, Step(c, e).client) <==> !Collides(c.registry, e.subscription)
  {
    hide Step, HearAll, Put, Drop, Key, DistinctKeys, Collides, Held;
    CallHeard(l, c, e);
    CallRegisters(c, e);
    PutIsAdding(c.registry, e.subscription);
    DropIsRemoving(c.registry, e.subscription);
  }

  lemma DownInStep(l: Line, c: Client, e: Event)
    requires InStep(l.held, c) && Inv(c) && IsSubscription(e) && !CanSend(c.link)
    ensures InStep(HearAll(l, Step(c, e).effects).held, Step(c, e).client)
  {
    assert HearAll(l, []) == l;
    hide HearAll;
  }

  lemma StepInStep(l: Line, c: Client, e: Event, x: iset<Subscription>)
    requires InStep(l.held, c) && OnLine(l, c) && Inv(c) && Registered(c, x)
    requires Injective(x) && (IsSubscription(e) ==> e.subscription in x)
    ensures InStep(HearAll(l, Step(c, e).effects).held, Step(c, e).client)
  {
    hide Step, HearAll, InStep, OnLine, Inv, DistinctKeys, CanSend, Key;
    if !IsSubscription(e) { OtherInStep(l, c, e); }
    else if CanSend(c.link) { CollisionLosesSubscription(l, c, e); }
    else { DownInStep(l, c, e); }
  }

  lemma {:induction false} RunInStep(reconnectEnabled: bool, events: seq<Event>, x: iset<Subscription>)
    requires Injective(x) && AllFrom(events, x)
    ensures var run := Run(Initial(reconnectEnabled), events);
            InStep(HearAll(DOWN, run.effects).held, run.client) && Registered(run.client, x)
  {
    if events != [] {
      hide Step, InStep, OnLine, HearAll, Inv, Registered, Injective;
      var earlier, last := events[..|events| - 1], events[|events| - 1];
      var before := Run(Initial(reconnectEnabled), earlier);
      RunInStep(reconnectEnabled, earlier, x);
      RunOnLine(reconnectEnabled, earlier);
      EveryRunInv(reconnectEnabled, earlier);
      StepInStep(HearAll(DOWN, before.effects), before.client, last, x);
      StepRegistered(before.client, last, x);
      HearAppend(DOWN, before.effects, Step(before.client, last).effects);
    }
  }

  /** A client that connects, subscribes to one thing and then to another. */
  function SubscribeTwice(a: Subscription, b: Subscription): seq<Event> {
    [DIAL, GREETING] + [CallSubscribe(a)] + [CallSubscribe(b)]
  }

  /** With two subscriptions that share a key, such a client loses one of them. */
  lemma SubscribeTwiceCollides(reconnectEnabled: bool, a: Subscription, b: Subscription)
    requires Key(a) == Key(b) && a != b
    ensures var run := Run(Initial(reconnectEnabled), SubscribeTwice(a, b));
            !InStep(HearAll(DOWN, run.effects).held, run.client)
  {
    hide Step, HearAll, InStep, Key;
    var c := Initial(reconnectEnabled);
    var up := [DIAL, GREETING];
    var first, second := CallSubscribe(a), CallSubscribe(b);
    var before := Run(c, up);
    FirstConnection(reconnectEnabled);
    RunInStep(reconnectEnabled, up, iset{});
    RunInStep(reconnectEnabled, up + [first], iset{a});
    RunStep(c, up, first);
    RunStep(c, up + [first], second);
    SubscribedAlone(before.client, a);
    var subscribed := Run(c, up + [first]);
    CollisionLosesSubscription(HearAll(DOWN, subscribed.effects), subscribed.client, second);
    HearAppend(DOWN, subscribed.effects, Step(subscribed.client, second).effects);
    assert a in subscribed.client.registry;
  }

  lemma SubscribedAlone(c: Client, a: Subscription)
    requires CanSend(c.link) && c.registry == []
    ensures var n := Step(c, CallSubscribe(a)); n.client.registry == [a] && n.client.link == c.link
  {
  }

  /** Over every run whose subscriptions come from `x`, client and daemon are in step. */
  ghost predicate AlwaysInStep(x: iset<Subscription>) {
    forall reconnectEnabled, events :: AllFrom(events, x) ==>
      var run := Run(Initial(reconnectEnabled), events); InStep(HearAll(DOWN, run.effects).held, run.client)
  }

  /**
   * For every set of subscriptions: client and daemon are in step over every run that draws on
   * it, across any number of reconnects, if and only if no two of its members share a key.
   */
  lemma InStepExactly(x: iset<Subscription>)
    ensures AlwaysInStep(x) <==> Injective(x)
  {
    hide Run, InStep, HearAll, Key;
    if Injective(x) {
      forall reconnectEnabled, events | AllFrom(events, x)
        ensures var run := Run(Initial(reconnectEnabled), events); InStep(HearAll(DOWN, run.effects).held, run.client)
      {
        RunInStep(reconnectEnabled, events, x);
      }
    } else {
      var a, b :| a in x && b in x && Key(a) == Key(b) && a != b;
      assert AllFrom(SubscribeTwice(a, b), x);
      SubscribeTwiceCollides(true, a, b);
    }
  }

  predicate AsksWell(e: Event) {
    IsSubscription(e) ==> WellFormed(e.subscription)
  }

  /**
   * Over every run with well-formed subscriptions, across any number of reconnects: replaying
   * what was sent on the current connection gives exactly the registry whenever the client is
   * connected, and nothing while it is connecting.
   */
  lemma DaemonHoldsRegistry(reconnectEnabled: bool, events: seq<Event>)
    requires forall i :: 0 <= i < |events| ==> AsksWell(events[i])
    ensures var run := Run(Initial(reconnectEnabled), events); InStep(HearAll(DOWN, run.effects).held, run.client)
  {
    hide Run, InStep, HearAll, WellFormed, Key;
    var x := iset s | WellFormed(s);
    forall a, b | a in x && b in x && Key(a) == Key(b) ensures a == b {
      KeyInjective(a, b);
    }
    RunInStep(reconnectEnabled, events, x);
  }
}
