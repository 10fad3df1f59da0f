/**
 * Liveness: a connection is given up only after two heartbeats in a row failed, with no sign of
 * life from the daemon between them, and measuring latency never counts against it.
 */
module DaemonSessionLiveness {
  import opened Wrappers
  import opened DaemonSession
  import opened DaemonSessionInvariant
  import opened DaemonSessionQuiet
  import opened DaemonSessionShapes

  /**
   * What an observer of the effects knows: failures since the last sign of life, who pinged last,
   * and whether the connection has to be given up next, which nothing else may come before.
   */
  datatype Pulse = Pulse(failures: nat, byHeartbeat: Option<bool>, sound: bool, due: bool)

  const RESTING: Pulse := Pulse(0, None, true, false)

  function Judge(p: Pulse, e: Effect): Pulse {
    match e
    case ValidFrame => p.(failures := 0, sound := p.sound && !p.due)
    case ProbeStarted(byHeartbeat) => p.(byHeartbeat := Some(byHeartbeat), sound := p.sound && !p.due)
    case HeartbeatFailed =>
      p.(failures := p.failures + 1, sound := p.sound && !p.due && p.byHeartbeat == Some(true), due := p.failures == 1)
    case LivenessTeardown => p.(failures := 0, sound := p.sound && p.due, due := false)
    case StatusChanged(Connected) => p.(sound := p.sound && !p.due && p.failures == 0)
    case _ => p.(sound := p.sound && !p.due)
  }

  function JudgeAll(p: Pulse, es: seq<Effect>): Pulse {
    if es == [] then p else Judge(JudgeAll(p, es[..|es| - 1]), es[|es| - 1])
  }

  lemma {:induction false} JudgeAppend(p: Pulse, a: seq<Effect>, b: seq<Effect>)
    ensures JudgeAll(p, a + b) == JudgeAll(JudgeAll(p, a), b)
  {
    hide Judge;
    if b == [] {
      assert a + b == a;
    } else {
      assert (a + b)[..|a + b| - 1] == a + b[..|b| - 1];
      JudgeAppend(p, a, b[..|b| - 1]);
    }
  }

  predicate Mute(es: seq<Effect>) {
    forall i :: 0 <= i < |es| ==>
      && !es[i].ValidFrame? && !es[i].ProbeStarted? && !es[i].HeartbeatFailed? && !es[i].LivenessTeardown?
      && es[i] != StatusChanged(Connected)
  }

  lemma {:induction false} JudgeMute(p: Pulse, es: seq<Effect>)
    requires Mute(es) && !p.due
    ensures JudgeAll(p, es) == p
  {
    if es != [] {
      JudgeMute(p, es[..|es| - 1]);
    }
  }

  lemma JudgeOne(p: Pulse, e: Effect, rest: seq<Effect>)
    ensures JudgeAll(p, [e] + rest) == JudgeAll(Judge(p, e), rest)
  {
    hide Judge;
    JudgeAppend(p, [e], rest);
    assert JudgeAll(p, []) == p;
  }

  predicate Agrees(p: Pulse, c: Client) {
    && p.sound && !p.due && p.failures == c.heart.failures
    && (c.heart.probe.Some? ==> p.byHeartbeat == Some(c.heart.probe.value.drivesLiveness))
  }

  lemma QuietIsMute(c: Client, es: seq<Effect>)
    requires QuietEffects(c, es)
    ensures Mute(es)
  {
    assert forall i :: 0 <= i < |es| ==> QuietEffect(c, es[i]);
  }

  lemma QuietAgrees(p: Pulse, c: Client, n: Next)
    requires Agrees(p, c) && Quiet(c, n)
    ensures Agrees(JudgeAll(p, n.effects), n.client)
  {
    QuietIsMute(c, n.effects);
    JudgeMute(p, n.effects);
  }

  lemma HearingAgrees(p: Pulse, c: Client, n: Next)
    requires Agrees(p, c) && Hearing(c, n)
    ensures Agrees(JudgeAll(p, n.effects), n.client)
  {
    hide QuietEffects, QuietCalls;
    QuietAgrees(p.(failures := 0), Heard(c), Next(n.client, n.effects[1..]));
    JudgeOne(p, ValidFrame, n.effects[1..]);
    assert n.effects == [ValidFrame] + n.effects[1..];
  }

  lemma MuteConcat(a: seq<Effect>, b: seq<Effect>)
    requires Mute(a) && Mute(b)
    ensures Mute(a + b)
  {
  }

  lemma RequestsAreMute(resubscribed: seq<Effect>, sent: seq<Effect>, transport: Option<nat>)
    requires Resubscribing(resubscribed, transport) && AboutRequests(sent, transport)
    ensures Mute(resubscribed) && Mute(sent)
  {
  }

  lemma Grouped(a: Effect, b: Effect, x: seq<Effect>, y: seq<Effect>, z: seq<Effect>)
    ensures [a, b] + x + y + z == [a] + ([b] + (x + y + z))
  {
  }

  lemma HandshakeIsMute(c: Client, n: Next) returns (rest: seq<Effect>)
    requires Handshake(c, n)
    ensures n.effects == [ValidFrame] + ([StatusChanged(Connected)] + rest) && Mute(rest)
    ensures n.client.heart.failures == 0 && n.client.heart.probe == c.heart.probe
  {
    var up := EnterConnected(Heard(c));
    var resubscribed, sent, resolved := Resubscribe(up), SendRequests(up).effects, ResolveConnect(up.link).effects;
    HandshakeParts(c, n);
    ResubscribingOnly(up);
    SendingOnly(up);
    assert Mute(resolved);
    hide Mute, Handshake, SendRequests, Resubscribe, ResolveConnect, Resubscribing, AboutRequests;
    RequestsAreMute(resubscribed, sent, up.link.transport);
    MuteConcat(resubscribed, sent);
    MuteConcat(resubscribed + sent, resolved);
    rest := resubscribed + sent + resolved;
    Grouped(ValidFrame, StatusChanged(Connected), resubscribed, sent, resolved);
  }

  lemma HandshakeAgrees(p: Pulse, c: Client, n: Next)
    requires Agrees(p, c) && Handshake(c, n)
    ensures Agrees(JudgeAll(p, n.effects), n.client)
  {
    hide Handshake, Mute, JudgeAll;
    var rest := HandshakeIsMute(c, n);
    JudgeMute(p.(failures := 0), rest);
    JudgeOne(p, ValidFrame, [StatusChanged(Connected)] + rest);
    JudgeOne(p.(failures := 0), StatusChanged(Connected), rest);
  }

  lemma GivingUpAgrees(p: Pulse, c: Client, n: Next)
    requires Agrees(p, c) && GivingUp(c, n) && c.heart.failures < LIVENESS_FAILURE_RECONNECT_THRESHOLD
    ensures Agrees(JudgeAll(p, n.effects), n.client)
  {
    hide QuietEffects, QuietCalls;
    var quiet := c.(heart := RejectProbe(c.heart).(failures := 0));
    var failed := p.(failures := p.failures + 1, due := true);
    QuietAgrees(p.(failures := 0), quiet, Next(n.client, n.effects[2..]));
    JudgeOne(p, HeartbeatFailed, [LivenessTeardown] + n.effects[2..]);
    JudgeOne(failed, LivenessTeardown, n.effects[2..]);
    assert n.effects == [HeartbeatFailed] + ([LivenessTeardown] + n.effects[2..]);
  }

  lemma PingAgrees(p: Pulse, c: Client, n: Next)
    requires Agrees(p, c) && (Pinging(c, n) || Faltering(c, n))
    ensures Agrees(JudgeAll(p, n.effects), n.client)
  {
    if Pinging(c, n) {
      assert n.effects == [n.effects[0]] + [n.effects[1]];
      JudgeOne(p, n.effects[0], [n.effects[1]]);
      JudgeMute(Judge(p, n.effects[0]), [n.effects[1]]);
    } else {
      assert n.effects == [HeartbeatFailed] + [];
      JudgeOne(p, HeartbeatFailed, []);
    }
    hide JudgeAll;
  }

  lemma OpeningAgrees(p: Pulse, c: Client, n: Next)
    requires Agrees(p, c) && Opening(c, n)
    ensures Agrees(JudgeAll(p, n.effects), n.client)
  {
    assert Mute(n.effects);
    JudgeMute(p, n.effects);
  }

  lemma CallAgrees(p: Pulse, c: Client, e: Event)
    requires Agrees(p, c) && (e.CallRequest? || e.CallSubscribe? || e.CallUnsubscribe?)
    ensures Agrees(JudgeAll(p, Step(c, e).effects), Step(c, e).client)
  {
    assert Mute(Step(c, e).effects);
    JudgeMute(p, Step(c, e).effects);
  }

  lemma StepAgrees(p: Pulse, c: Client, e: Event)
    requires Agrees(p, c) && Inv(c)
    ensures Agrees(JudgeAll(p, Step(c, e).effects), Step(c, e).client)
  {
    var n := Step(c, e);
    assert c.heart.failures < LIVENESS_FAILURE_RECONNECT_THRESHOLD;
    hide Step, JudgeAll, Inv, Agrees, Quiet, Opening, Hearing, Handshake, Pinging, Faltering, GivingUp;
    StepShape(c, e);
    if Quiet(c, n) { QuietAgrees(p, c, n); }
    else if Opening(c, n) { OpeningAgrees(p, c, n); }
    else if Hearing(c, n) { HearingAgrees(p, c, n); }
    else if Handshake(c, n) { HandshakeAgrees(p, c, n); }
    else if Pinging(c, n) || Faltering(c, n) { PingAgrees(p, c, n); }
    else if GivingUp(c, n) { GivingUpAgrees(p, c, n); }
    else { CallAgrees(p, c, e); }
  }

  lemma {:induction false} RunAgrees(reconnectEnabled: bool, events: seq<Event>)
    ensures Agrees(JudgeAll(RESTING, Run(Initial(reconnectEnabled), events).effects),
                   Run(Initial(reconnectEnabled), events).client)
  {
    if events != [] {
      hide Step, Agrees, JudgeAll, Inv;
      var before := Run(Initial(reconnectEnabled), events[..|events| - 1]);
      RunAgrees(reconnectEnabled, events[..|events| - 1]);
      EveryRunInv(reconnectEnabled, events[..|events| - 1]);
      StepAgrees(JudgeAll(RESTING, before.effects), before.client, events[|events| - 1]);
      JudgeAppend(RESTING, before.effects, Step(before.client, events[|events| - 1]).effects);
    }
  }

  // ---------------------------------------------------------------------------
  // What soundness means
  // ---------------------------------------------------------------------------

  predicate Silent(es: seq<Effect>, start: nat) {
    forall i :: start <= i < |es| ==> !es[i].ValidFrame? && !es[i].LivenessTeardown?
  }

  /** Two failures are counted exactly when the connection has to be given up next. */
  lemma {:induction false} DueExactly(es: seq<Effect>)
    requires JudgeAll(RESTING, es).sound
    ensures var p := JudgeAll(RESTING, es); p.failures <= 2 && (p.due <==> p.failures == 2)
  {
    if es != [] {
      assert JudgeAll(RESTING, es[..|es| - 1]).sound;
      DueExactly(es[..|es| - 1]);
    }
  }

  /** A failure without a sign of life since is counted. */
  lemma {:induction false} FailureCounts(es: seq<Effect>, j: nat)
    requires j < |es| && es[j].HeartbeatFailed? && Silent(es, j)
    ensures JudgeAll(RESTING, es).failures >= 1
  {
    if j < |es| - 1 {
      FailureCounts(es[..|es| - 1], j);
    }
  }

  /** A counted failure is in the trace, with no sign of life since, and the others before it. */
  lemma {:induction false} LastFailure(es: seq<Effect>) returns (k: nat)
    requires JudgeAll(RESTING, es).failures > 0
    ensures k < |es| && es[k].HeartbeatFailed? && Silent(es, k)
    ensures JudgeAll(RESTING, es[..k]).failures == JudgeAll(RESTING, es).failures - 1
  {
    var before := es[..|es| - 1];
    if es[|es| - 1].HeartbeatFailed? {
      k := |es| - 1;
    } else {
      k := LastFailure(before);
      assert before[..k] == es[..k];
      hide JudgeAll;
    }
  }

  lemma {:induction false} LastPinger(es: seq<Effect>, byHeartbeat: bool) returns (k: nat)
    requires JudgeAll(RESTING, es).byHeartbeat == Some(byHeartbeat)
    ensures k < |es| && es[k] == ProbeStarted(byHeartbeat)
    ensures forall i :: k < i < |es| ==> !es[i].ProbeStarted?
  {
    if es[|es| - 1].ProbeStarted? {
      k := |es| - 1;
    } else {
      k := LastPinger(es[..|es| - 1], byHeartbeat);
      hide JudgeAll;
    }
  }

  lemma {:induction false} SoundBefore(es: seq<Effect>, i: nat)
    requires i <= |es| && JudgeAll(RESTING, es).sound
    ensures JudgeAll(RESTING, es[..i]).sound
  {
    if i < |es| {
      SoundBefore(es[..|es| - 1], i);
      assert es[..|es| - 1][..i] == es[..i];
    } else {
      assert es[..i] == es;
    }
  }

  /** Two heartbeat failures, at `j` and `k`, with no validated frame from the first one on. */
  predicate FailedTwice(es: seq<Effect>, j: nat, k: nat) {
    j < k < |es| && es[j].HeartbeatFailed? && es[k].HeartbeatFailed? && Silent(es, j)
  }

  /** A heartbeat failed at `j`, with no validated frame since. */
  predicate FailedBefore(es: seq<Effect>, j: nat) {
    j < |es| && es[j].HeartbeatFailed? && Silent(es, j)
  }

  /** The last ping was a heartbeat's own. */
  predicate HeartbeatPinged(es: seq<Effect>, k: nat) {
    k < |es| && es[k] == ProbeStarted(true) && forall i :: k < i < |es| ==> !es[i].ProbeStarted?
  }

  /**
   * Liveness over every run: a teardown comes after two heartbeat failures with no validated
   * frame between them or since, and the second such failure is followed by a teardown at once; a
   * failure is charged only when the last ping was a heartbeat's own, never a latency measurement;
   * the connection starts with a clean count, which is 0 or 1 between two steps.
   */
  lemma LivenessSafety(reconnectEnabled: bool, events: seq<Event>, i: nat)
    requires i < |Run(Initial(reconnectEnabled), events).effects|
    ensures var es := Run(Initial(reconnectEnabled), events).effects;
            && (es[i].LivenessTeardown? ==> exists j: nat, k: nat :: FailedTwice(es[..i], j, k))
            && (es[i].HeartbeatFailed? ==> exists k: nat :: HeartbeatPinged(es[..i], k))
            && (es[i].HeartbeatFailed? && (exists j: nat :: FailedBefore(es[..i], j)) ==>
                  i + 1 < |es| && es[i + 1].LivenessTeardown?)
            && (es[i] == StatusChanged(Connected) ==> JudgeAll(RESTING, es[..i]).failures == 0)
    ensures Run(Initial(reconnectEnabled), events).client.heart.failures <= 1
  {
    hide Run;
    var run := Run(Initial(reconnectEnabled), events);
    var es := run.effects;
    EveryRunInv(reconnectEnabled, events);
    RunAgrees(reconnectEnabled, events);
    SoundBefore(es, i + 1);
    assert es[..i + 1][..i] == es[..i];
    assert Judge(JudgeAll(RESTING, es[..i]), es[i]).sound;
    hide JudgeAll;
    if es[i].LivenessTeardown? {
      DueExactly(es[..i]);
      SecondFailure(es[..i]);
    }
    if es[i].HeartbeatFailed? {
      var k := LastPinger(es[..i], true);
      assert HeartbeatPinged(es[..i], k);
      if j: nat :| FailedBefore(es[..i], j) {
        FailureCounts(es[..i], j);
        TeardownFollows(es, i);
      }
    }
  }

  lemma TeardownFollows(es: seq<Effect>, i: nat)
    requires i < |es| && es[i].HeartbeatFailed? && JudgeAll(RESTING, es[..i]).failures >= 1
    requires JudgeAll(RESTING, es).sound && !JudgeAll(RESTING, es).due
    ensures i + 1 < |es| && es[i + 1].LivenessTeardown?
  {
    SoundBefore(es, i);
    DueExactly(es[..i]);
    SoundBefore(es, i + 1);
    assert es[..i + 1][..i] == es[..i];
    assert JudgeAll(RESTING, es[..i + 1]) == Judge(JudgeAll(RESTING, es[..i]), es[i]);
    assert JudgeAll(RESTING, es[..i + 1]).due;
    assert es[..|es|] == es;
    if i + 1 < |es| {
      SoundBefore(es, i + 2);
      assert es[..i + 2][..i + 1] == es[..i + 1];
      assert JudgeAll(RESTING, es[..i + 2]) == Judge(JudgeAll(RESTING, es[..i + 1]), es[i + 1]);
      hide JudgeAll;
    }
  }

  lemma SecondFailure(es: seq<Effect>)
    requires JudgeAll(RESTING, es).failures == 2
    ensures exists j: nat, k: nat :: FailedTwice(es, j, k)
  {
    hide JudgeAll;
    var k := LastFailure(es);
    var j := LastFailure(es[..k]);
    assert forall i :: j <= i < k ==> es[..k][i] == es[i];
    assert FailedTwice(es, j, k);
  }
}
