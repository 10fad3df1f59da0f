/**
 * The daemon client's session: connection status, transport, request waiters, the send queue,
 * the ping probe with its failure counter, the timers, and the terminal-directory registry.
 * Every API call, transport event, inbound frame and timer is one step; a step yields the next
 * state and the effects it has on the outside, in order.
 */
module DaemonSession {
  import opened Wrappers
  import opened SubscriptionKey

  datatype Status = Idle | Connecting | Connected | Disconnected | Disposed

  /** An inbound session message, as far as the session reacts to it. */
  datatype SessionMessage =
    | ServerInfo(authenticates: bool)
    | Response(responseType: string, requestId: string, payload: int)
    | RpcError(requestId: string)
    | Other

  /**
   * An inbound transport frame: a binary frame that may complete a file read, a decoded message,
   * or one rejected by validation with what identity it had.
   */
  datatype Frame =
    | Pong
    | Session(message: SessionMessage)
    | Binary(completes: Option<string>)
    | Invalid(requestId: Option<string>)

  datatype Waiter = Waiter(id: nat, requestId: string, responseType: string, accepts: int -> bool, timed: bool)

  datatype PendingSend = PendingSend(id: nat)

  /** The in-flight ping; only a heartbeat's ping counts towards the liveness failures. */
  datatype Probe = Probe(drivesLiveness: bool)

  datatype Wire =
    | Hello
    | Ping
    | Subscribe(subscription: Subscription)
    | Unsubscribe(subscription: Subscription)
    | SubscribeDiff(subscriptionId: string)
    | Request(id: nat)

  datatype Settlement = ByMessage(requestId: string) | ByInvalidMessage(requestId: string)
                      | ByTimeout | ByCancel | ByConnectionLoss

  datatype SendOutcome = SendOk | SendRejected | SendTimedOut

  datatype Effect =
    | StatusChanged(status: Status)
    | TransportOpened(transport: nat)
    | TransportClosed(transport: nat)
    | Sent(transport: nat, wire: Wire)
    | RequestMade(id: nat, requestId: string)
    | SendSettled(id: nat, sendOutcome: SendOutcome)
    | WaiterSettled(id: nat, requestId: string, settlement: Settlement)
    | ProbeStarted(byHeartbeat: bool)
    | HeartbeatFailed
    | ValidFrame
    | LivenessTeardown
    | ConnectResolved
    | ConnectRejected

  /** The connection: its phase, its transport, and the timers and promises about reaching it. */
  datatype Link = Link(
    status: Status,
    transport: Option<nat>,
    nextTransport: nat,
    credential: bool,
    shouldReconnect: bool,
    reconnectEnabled: bool,
    reconnectAttempt: nat,
    connectPromise: bool,
    connectHandlers: bool,
    reconnectTimer: bool,
    connectTimer: bool,
    genericErrorTimer: bool)

  /** The requests under way: unsettled waiters, and sends queued until the connection is up. */
  datatype Calls = Calls(waiters: seq<Waiter>, queue: seq<PendingSend>, nextId: nat)

  /** The heartbeat: the ping in flight, who awaits it, the failure counter and the next tick. */
  datatype Heart = Heart(probe: Option<Probe>, awaited: bool, failures: nat, timer: bool)

  /**
   * The checkout-diff subscriptions, and for each file subscription the request id under which it
   * is made again. Both come and go with requests of their own; here they change in any way.
   */
  datatype Others = Others(diffs: seq<string>, files: seq<string>)

  datatype Client = Client(link: Link, calls: Calls, heart: Heart, registry: seq<Subscription>, others: Others)

  function Initial(reconnectEnabled: bool): Client {
    Client(Link(Idle, None, 0, false, true, reconnectEnabled, 0, false, false, false, false, false),
           Calls([], [], 0), Heart(None, false, 0, false), [], Others([], []))
  }

  datatype Next = Next(client: Client, effects: seq<Effect>)

  const LIVENESS_FAILURE_RECONNECT_THRESHOLD: nat := 2

  /** The response a completed file read is turned into. */
  const FILE_RESPONSE: string := "file_explorer_response"
  const FILE_PAYLOAD: int := 0

  /** The response to a file subscription, whatever it carries. */
  const FILE_SUBSCRIBE_RESPONSE: string := "fs.file.subscribe.response"
  const ANY_PAYLOAD: int -> bool := payload => true

  // ---------------------------------------------------------------------------
  // Waiters and the send queue
  // ---------------------------------------------------------------------------

  /** The waiter's predicate: an RPC error for its request, or a response it accepts. */
  predicate Selects(w: Waiter, m: SessionMessage) {
    match m
    case RpcError(requestId) => requestId == w.requestId
    case Response(responseType, requestId, payload) =>
      responseType == w.responseType && requestId == w.requestId && w.accepts(payload)
    case _ => false
  }

  function SettleAll(ws: seq<Waiter>, how: Settlement): seq<Effect> {
    if ws == [] then [] else [WaiterSettled(ws[0].id, ws[0].requestId, how)] + SettleAll(ws[1..], how)
  }

  function Unselected(ws: seq<Waiter>, m: SessionMessage): seq<Waiter> {
    if ws == [] then []
    else if Selects(ws[0], m) then Unselected(ws[1..], m)
    else [ws[0]] + Unselected(ws[1..], m)
  }

  function Selected(ws: seq<Waiter>, m: SessionMessage): seq<Waiter> {
    if ws == [] then []
    else if Selects(ws[0], m) then [ws[0]] + Selected(ws[1..], m)
    else Selected(ws[1..], m)
  }

  function WithoutRequest(ws: seq<Waiter>, requestId: string): seq<Waiter> {
    if ws == [] then []
    else if ws[0].requestId == requestId then WithoutRequest(ws[1..], requestId)
    else [ws[0]] + WithoutRequest(ws[1..], requestId)
  }

  function OfRequest(ws: seq<Waiter>, requestId: string): seq<Waiter> {
    if ws == [] then []
    else if ws[0].requestId == requestId then [ws[0]] + OfRequest(ws[1..], requestId)
    else OfRequest(ws[1..], requestId)
  }

  /** The waiter with an id, if it is still unsettled. */
  function FindWaiter(ws: seq<Waiter>, id: nat): (r: Option<Waiter>)
    ensures r.Some? ==> r.value.id == id && r.value in ws
  {
    if ws == [] then None
    else if ws[0].id == id then Some(ws[0])
    else FindWaiter(ws[1..], id)
  }

  function RemoveWaiter(ws: seq<Waiter>, id: nat): seq<Waiter> {
    if ws == [] then []
    else if ws[0].id == id then ws[1..]
    else [ws[0]] + RemoveWaiter(ws[1..], id)
  }

  function RemoveSend(queue: seq<PendingSend>, id: nat): seq<PendingSend> {
    if queue == [] then []
    else if queue[0].id == id then queue[1..]
    else [queue[0]] + RemoveSend(queue[1..], id)
  }

  function RejectAll(queue: seq<PendingSend>): seq<Effect> {
    if queue == [] then [] else [SendSettled(queue[0].id, SendRejected)] + RejectAll(queue[1..])
  }

  function FlushAll(transport: nat, queue: seq<PendingSend>): seq<Effect> {
    if queue == [] then []
    else [Sent(transport, Request(queue[0].id)), SendSettled(queue[0].id, SendOk)] + FlushAll(transport, queue[1..])
  }

  datatype Called = Called(calls: Calls, effects: seq<Effect>)

  /** `cancel`: settles a waiter that is not settled yet. */
  function CancelWaiter(calls: Calls, id: nat): Called {
    match FindWaiter(calls.waiters, id)
    case None => Called(calls, [])
    case Some(w) =>
      Called(calls.(waiters := RemoveWaiter(calls.waiters, id)), [WaiterSettled(id, w.requestId, ByCancel)])
  }

  function ExpireWaiter(calls: Calls, id: nat): Called {
    match FindWaiter(calls.waiters, id)
    case None => Called(calls, [])
    case Some(w) =>
      if !w.timed then Called(calls, [])
      else Called(calls.(waiters := RemoveWaiter(calls.waiters, id)), [WaiterSettled(id, w.requestId, ByTimeout)])
  }

  /** A queued send that times out takes its waiter with it. */
  function ExpireSend(calls: Calls, id: nat): Called {
    if PendingSend(id) !in calls.queue then Called(calls, [])
    else
      var cancelled := CancelWaiter(calls.(queue := RemoveSend(calls.queue, id)), id);
      Called(cancelled.calls, [SendSettled(id, SendTimedOut)] + cancelled.effects)
  }

  function ResolveWaiters(calls: Calls, m: SessionMessage, requestId: string): Called {
    Called(calls.(waiters := Unselected(calls.waiters, m)),
           SettleAll(Selected(calls.waiters, m), ByMessage(requestId)))
  }

  function RejectWaiters(calls: Calls, requestId: string): Called {
    Called(calls.(waiters := WithoutRequest(calls.waiters, requestId)),
           SettleAll(OfRequest(calls.waiters, requestId), ByInvalidMessage(requestId)))
  }

  /** Every waiter and queued send of a lost connection is settled. */
  function DropCalls(calls: Calls): Called {
    Called(calls.(waiters := [], queue := []),
           SettleAll(calls.waiters, ByConnectionLoss) + RejectAll(calls.queue))
  }

  predicate CanSend(link: Link) { link.status.Connected? && link.transport.Some? }

  function FlushCalls(calls: Calls, link: Link): Called {
    Called(calls.(queue := []),
           if CanSend(link) then FlushAll(link.transport.value, calls.queue) else RejectAll(calls.queue))
  }

  /** What happens to a new request: sent at once, queued, or failed and cancelled. */
  datatype Route = SendOn(transport: nat) | Enqueue | Refuse

  function MakeRequest(calls: Calls, w: Waiter, route: Route): Called {
    var made := [RequestMade(w.id, w.requestId)];
    var next := calls.(nextId := w.id + 1);
    match route
    case SendOn(t) =>
      Called(next.(waiters := calls.waiters + [w]), made + [Sent(t, Request(w.id)), SendSettled(w.id, SendOk)])
    case Enqueue =>
      Called(next.(waiters := calls.waiters + [w], queue := calls.queue + [PendingSend(w.id)]), made)
    case Refuse =>
      Called(next, made + [SendSettled(w.id, SendRejected), WaiterSettled(w.id, w.requestId, ByCancel)])
  }

  // ---------------------------------------------------------------------------
  // The registry: a Map keyed by subscription key, in insertion order
  // ---------------------------------------------------------------------------

  function Put(registry: seq<Subscription>, s: Subscription): seq<Subscription> {
    if registry == [] then [s]
    else if Key(registry[0]) == Key(s) then [s] + registry[1..]
    else [registry[0]] + Put(registry[1..], s)
  }

  function Drop(registry: seq<Subscription>, key: string): seq<Subscription> {
    if registry == [] then []
    else if Key(registry[0]) == key then registry[1..]
    else [registry[0]] + Drop(registry[1..], key)
  }

  function ResubscribeDiffs(transport: nat, diffs: seq<string>): seq<Effect> {
    if diffs == [] then []
    else [Sent(transport, SubscribeDiff(diffs[0]))] + ResubscribeDiffs(transport, diffs[1..])
  }

  function ResubscribeAll(transport: nat, registry: seq<Subscription>): seq<Effect> {
    if registry == [] then []
    else [Sent(transport, Subscribe(registry[0]))] + ResubscribeAll(transport, registry[1..])
  }

  // ---------------------------------------------------------------------------
  // Connection lifecycle
  // ---------------------------------------------------------------------------

  datatype Linked = Linked(link: Link, effects: seq<Effect>)

  function RejectConnect(link: Link): Linked {
    Linked(link.(connectPromise := false, connectHandlers := false),
           if link.connectHandlers then [ConnectRejected] else [])
  }

  function ResolveConnect(link: Link): Linked {
    Linked(link.(connectPromise := false, connectHandlers := false),
           if link.connectHandlers then [ConnectResolved] else [])
  }

  function DisposeTransport(c: Client): Next {
    var link := c.link.(connectTimer := false, genericErrorTimer := false, transport := None);
    Next(c.(link := link, heart := c.heart.(timer := false)),
         if c.link.transport.Some? then [TransportClosed(c.link.transport.value)] else [])
  }

  /** The phase after a loss: disconnected, and waiting for the next attempt if there is to be one. */
  function LinkDown(link: Link): Linked {
    if link.status.Disposed? then RejectConnect(link)
    else
      var down := link.(status := Disconnected);
      if !link.shouldReconnect || !link.reconnectEnabled then
        var rejected := RejectConnect(down);
        Linked(rejected.link, [StatusChanged(Disconnected)] + rejected.effects)
      else
        Linked(down.(reconnectAttempt := link.reconnectAttempt + 1, reconnectTimer := true),
               [StatusChanged(Disconnected)])
  }

  function RejectProbe(heart: Heart): Heart {
    heart.(probe := None, awaited := false)
  }

  function ScheduleReconnect(c: Client): Next {
    var dropped := DropCalls(c.calls);
    var down := LinkDown(c.link.(reconnectTimer := false));
    Next(c.(link := down.link, calls := dropped.calls, heart := RejectProbe(c.heart)), dropped.effects + down.effects)
  }

  function TearDown(c: Client): Next {
    var disposed := DisposeTransport(c);
    var scheduled := ScheduleReconnect(disposed.client);
    Next(scheduled.client, disposed.effects + scheduled.effects)
  }

  /** How constructing a transport goes: it opens with or without a device credential, or throws. */
  datatype Attempt = Opens(credential: bool) | Throws(badCredential: bool)

  function OpenTransport(c: Client, credential: bool): Next {
    var disposed := DisposeTransport(c);
    var link := disposed.client.link.(
      transport := Some(c.link.nextTransport), nextTransport := c.link.nextTransport + 1,
      credential := credential, status := Connecting, connectTimer := true);
    Next(disposed.client.(link := link),
         disposed.effects + [TransportOpened(c.link.nextTransport), StatusChanged(Connecting)])
  }

  function FailAttempt(c: Client, badCredential: bool): Next {
    var disposed := DisposeTransport(c);
    var link := disposed.client.link;
    var refused := if badCredential then RejectConnect(link.(shouldReconnect := false)) else Linked(link, []);
    var scheduled := ScheduleReconnect(disposed.client.(link := refused.link));
    var rejected := RejectConnect(scheduled.client.link);
    Next(scheduled.client.(link := rejected.link),
         disposed.effects + refused.effects + scheduled.effects + rejected.effects)
  }

  function AttemptConnect(c: Client, attempt: Attempt): Next {
    if c.link.status.Disposed? || !c.link.shouldReconnect then
      var rejected := RejectConnect(c.link);
      Next(c.(link := rejected.link), rejected.effects)
    else if c.link.status.Connecting? then Next(c, [])
    else match attempt
      case Opens(credential) => OpenTransport(c, credential)
      case Throws(badCredential) => FailAttempt(c, badCredential)
  }

  /** The promise is stored only after its executor has run, even when the attempt failed inside it. */
  function Connect(c: Client, attempt: Attempt): Next {
    if c.link.status.Disposed? || c.link.status.Connected? || c.link.connectPromise then Next(c, [])
    else
      var wanted := c.(link := c.link.(shouldReconnect := true, connectHandlers := true));
      var attempted := AttemptConnect(wanted, attempt);
      Next(attempted.client.(link := attempted.client.link.(connectPromise := true)), attempted.effects)
  }

  function EnsureConnected(c: Client, attempt: Attempt): Next {
    if c.link.status.Disposed? then Next(c, [])
    else
      var wanted := c.(link := c.link.(shouldReconnect := true));
      if c.link.status.Connected? || c.link.status.Connecting? then Next(wanted, []) else Connect(wanted, attempt)
  }

  function Close(c: Client): Next {
    if c.link.status.Disposed? then Next(c, [])
    else
      var disposed := DisposeTransport(c);
      var dropped := DropCalls(c.calls);
      var link := disposed.client.link.(
        shouldReconnect := false, connectPromise := false, connectHandlers := false, reconnectTimer := false,
        status := Disposed);
      Next(Client(link, dropped.calls, RejectProbe(disposed.client.heart), c.registry, c.others.(files := [])),
           disposed.effects + dropped.effects + [StatusChanged(Disposed)])
  }

  // ---------------------------------------------------------------------------
  // Sending
  // ---------------------------------------------------------------------------

  function RouteFor(link: Link): Route {
    if CanSend(link) then SendOn(link.transport.value)
    else if link.status.Connecting? then Enqueue
    else Refuse
  }

  function SendRequest(c: Client, requestId: string, responseType: string, accepts: int -> bool, timed: bool): Next {
    var w := Waiter(c.calls.nextId, requestId, responseType, accepts, timed);
    var made := MakeRequest(c.calls, w, RouteFor(c.link));
    Next(c.(calls := made.calls), made.effects)
  }

  function SubscribeTerminals(c: Client, s: Subscription): Next {
    Next(c.(registry := Put(c.registry, s)),
         if CanSend(c.link) then [Sent(c.link.transport.value, Subscribe(s))] else [])
  }

  function UnsubscribeTerminals(c: Client, s: Subscription): Next {
    Next(c.(registry := Drop(c.registry, Key(s))),
         if CanSend(c.link) then [Sent(c.link.transport.value, Unsubscribe(s))] else [])
  }

  // ---------------------------------------------------------------------------
  // Pings
  // ---------------------------------------------------------------------------

  /** A heartbeat that awaited the settled ping schedules the next one. */
  function Rearm(c: Client, awaited: bool): Client {
    if awaited && c.link.status.Connected? then c.(heart := c.heart.(timer := true)) else c
  }

  function SendPing(c: Client, byHeartbeat: bool): Next {
    if !CanSend(c.link) || c.heart.probe.Some? then Next(c, [])
    else
      Next(c.(heart := c.heart.(probe := Some(Probe(byHeartbeat)))),
           [ProbeStarted(byHeartbeat), Sent(c.link.transport.value, Ping)])
  }

  function HeartbeatTick(c: Client): Next {
    if !c.heart.timer then Next(c, [])
    else
      var sent := SendPing(c.(heart := c.heart.(timer := false)), true);
      var heart := sent.client.heart;
      Next(sent.client.(heart := heart.(awaited := heart.probe.Some?)), sent.effects)
  }

  function ResolveProbe(c: Client): Client {
    if c.heart.probe.None? then c else Rearm(c.(heart := RejectProbe(c.heart)), c.heart.awaited)
  }

  function RecordFailure(c: Client): Next {
    var failures := c.heart.failures + 1;
    if failures < LIVENESS_FAILURE_RECONNECT_THRESHOLD then
      Next(c.(heart := c.heart.(failures := failures)), [HeartbeatFailed])
    else
      var torn := TearDown(c.(heart := c.heart.(failures := 0)));
      Next(torn.client, [HeartbeatFailed, LivenessTeardown] + torn.effects)
  }

  function PingTimeout(c: Client): Next {
    if c.heart.probe.None? then Next(c, [])
    else
      var quiet := c.(heart := RejectProbe(c.heart));
      var failed := if c.heart.probe.value.drivesLiveness then RecordFailure(quiet) else Next(quiet, []);
      Next(Rearm(failed.client, c.heart.awaited), failed.effects)
  }

  // ---------------------------------------------------------------------------
  // Inbound
  // ---------------------------------------------------------------------------

  /** A credential the daemon cannot check ends the connection for good. */
  function RefuseAuthentication(c: Client): Next {
    var rejected := RejectConnect(c.link.(shouldReconnect := false));
    var torn := TearDown(c.(link := rejected.link));
    Next(torn.client, rejected.effects + torn.effects)
  }

  /** Every file subscription is requested again, in a request of its own. */
  function RemakeRequests(c: Client, files: seq<string>): Next
    decreases |files|
  {
    if files == [] then Next(c, [])
    else
      var one := SendRequest(c, files[0], FILE_SUBSCRIBE_RESPONSE, ANY_PAYLOAD, true);
      var rest := RemakeRequests(one.client, files[1..]);
      Next(rest.client, one.effects + rest.effects)
  }

  /** The subscriptions that need no answer. */
  function Resubscribe(c: Client): seq<Effect> {
    if c.link.transport.None? then []
    else ResubscribeDiffs(c.link.transport.value, c.others.diffs) + ResubscribeAll(c.link.transport.value, c.registry)
  }

  function EnterConnected(c: Client): Client {
    c.(link := c.link.(connectTimer := false, reconnectAttempt := 0, status := Connected),
       heart := c.heart.(timer := true))
  }

  /** The requests of a new connection: those made again, and then those that were queued. */
  function SendRequests(c: Client): Next {
    var remade := RemakeRequests(c, c.others.files);
    var flushed := FlushCalls(remade.client.calls, c.link);
    Next(remade.client.(calls := flushed.calls), remade.effects + flushed.effects)
  }

  /** The handshake: subscriptions first, then the requests, then the caller of `connect`. */
  function BecomeConnected(c: Client): Next {
    var up := EnterConnected(c);
    var sent := SendRequests(up);
    var resolved := ResolveConnect(up.link);
    Next(sent.client.(link := resolved.link),
         [StatusChanged(Connected)] + Resubscribe(up) + sent.effects + resolved.effects)
  }

  function HandleMessage(c: Client, m: SessionMessage): Next {
    match m
    case ServerInfo(authenticates) =>
      if c.link.credential && !authenticates then RefuseAuthentication(c)
      else if c.link.status.Connecting? then BecomeConnected(c)
      else Next(c, [])
    case Response(_, requestId, _) =>
      var resolved := ResolveWaiters(c.calls, m, requestId);
      Next(c.(calls := resolved.calls), resolved.effects)
    case RpcError(requestId) =>
      var resolved := ResolveWaiters(c.calls, m, requestId);
      Next(c.(calls := resolved.calls), resolved.effects)
    case Other => Next(c, [])
  }

  /** A frame that passed validation proves the daemon alive. */
  function Heard(c: Client): Client {
    c.(heart := c.heart.(failures := 0))
  }

  function HandleFrame(c: Client, f: Frame): Next {
    match f
    case Invalid(None) => Next(c, [])
    case Invalid(Some(requestId)) =>
      var rejected := RejectWaiters(c.calls, requestId);
      Next(c.(calls := rejected.calls), rejected.effects)
    case Pong => Next(ResolveProbe(Heard(c)), [ValidFrame])
    case Session(m) =>
      var handled := HandleMessage(Heard(c), m);
      Next(handled.client, [ValidFrame] + handled.effects)
    case Binary(None) => Next(Heard(c), [ValidFrame])
    case Binary(Some(requestId)) =>
      var handled := HandleMessage(Heard(c), Response(FILE_RESPONSE, requestId, FILE_PAYLOAD));
      Next(handled.client, [ValidFrame] + handled.effects)
  }

  // ---------------------------------------------------------------------------
  // Steps and runs
  // ---------------------------------------------------------------------------

  datatype TransportEvent = Open | Closed | Failed(generic: bool) | Message(frame: Frame)

  /** Listeners are attached as long as the transport is the current one. */
  function HandleTransport(c: Client, e: TransportEvent): Next {
    match c.link.transport
    case None => Next(c, [])
    case Some(t) =>
      match e
      case Open => Next(c.(link := c.link.(genericErrorTimer := false)), [Sent(t, Hello)])
      case Closed => ScheduleReconnect(c.(link := c.link.(connectTimer := false, genericErrorTimer := false)))
      case Failed(true) => Next(c.(link := c.link.(connectTimer := false, genericErrorTimer := true)), [])
      case Failed(false) => ScheduleReconnect(c.(link := c.link.(connectTimer := false, genericErrorTimer := false)))
      case Message(frame) => HandleFrame(c, frame)
  }

  function ReconnectTimeout(c: Client, attempt: Attempt): Next {
    var fired := c.(link := c.link.(reconnectTimer := false));
    if !c.link.reconnectTimer || !c.link.shouldReconnect then Next(fired, []) else AttemptConnect(fired, attempt)
  }

  function ConnectTimeout(c: Client): Next {
    if !c.link.connectTimer || !c.link.status.Connecting? then Next(c, []) else TearDown(c)
  }

  function GenericErrorTimeout(c: Client): Next {
    var fired := c.(link := c.link.(genericErrorTimer := false));
    if c.link.genericErrorTimer && (c.link.status.Connected? || c.link.status.Connecting?) then
      ScheduleReconnect(fired)
    else Next(fired, [])
  }

  function WaiterTimeout(c: Client, id: nat): Next {
    var expired := ExpireWaiter(c.calls, id);
    Next(c.(calls := expired.calls), expired.effects)
  }

  function QueueTimeout(c: Client, id: nat): Next {
    var expired := ExpireSend(c.calls, id);
    Next(c.(calls := expired.calls), expired.effects)
  }

  datatype Event =
    | CallConnect(attempt: Attempt)
    | CallEnsureConnected(attempt: Attempt)
    | CallClose
    | CallSetReconnectEnabled(enabled: bool)
    | CallRequest(requestId: string, responseType: string, accepts: int -> bool, timed: bool)
    | CallSubscribe(subscription: Subscription)
    | CallUnsubscribe(subscription: Subscription)
    | CallMeasureLatency
    | OtherSubscriptions(others: Others)
    | OnTransport(event: TransportEvent)
    | OnReconnectTimer(attempt: Attempt)
    | OnConnectTimer
    | OnGenericErrorTimer
    | OnHeartbeatTimer
    | OnPingTimer
    | OnWaiterTimer(id: nat)
    | OnQueueTimer(id: nat)

  /** The daemon's greeting, which completes the handshake of a client without a credential. */
  const GREETING: Event := OnTransport(Message(Session(ServerInfo(true))))

  function Step(c: Client, e: Event): Next {
    match e
    case CallConnect(attempt) => Connect(c, attempt)
    case CallEnsureConnected(attempt) => EnsureConnected(c, attempt)
    case CallClose => Close(c)
    case CallSetReconnectEnabled(enabled) => Next(c.(link := c.link.(reconnectEnabled := enabled)), [])
    case CallRequest(requestId, responseType, accepts, timed) => SendRequest(c, requestId, responseType, accepts, timed)
    case CallSubscribe(s) => SubscribeTerminals(c, s)
    case CallUnsubscribe(s) => UnsubscribeTerminals(c, s)
    case CallMeasureLatency => SendPing(c, false)
    case OtherSubscriptions(others) => Next(c.(others := others), [])
    case OnTransport(event) => HandleTransport(c, event)
    case OnReconnectTimer(attempt) => ReconnectTimeout(c, attempt)
    case OnConnectTimer => ConnectTimeout(c)
    case OnGenericErrorTimer => GenericErrorTimeout(c)
    case OnHeartbeatTimer => HeartbeatTick(c)
    case OnPingTimer => PingTimeout(c)
    case OnWaiterTimer(id) => WaiterTimeout(c, id)
    case OnQueueTimer(id) => QueueTimeout(c, id)
  }

  /** A whole run: the last state and everything that happened, in order. */
  function Run(c: Client, events: seq<Event>): Next {
    if events == [] then Next(c, [])
    else
      var before := Run(c, events[..|events| - 1]);
      var last := Step(before.client, events[|events| - 1]);
      Next(last.client, before.effects + last.effects)
  }

  /** A run of one step more. */
  lemma RunStep(c: Client, events: seq<Event>, e: Event)
    ensures var before := Run(c, events);
            var last := Step(before.client, e);
            Run(c, events + [e]) == Next(last.client, before.effects + last.effects)
  {
    assert (events + [e])[..|events + [e]| - 1] == events;
  }

  /** The link that a run of a new client ends with. */
  function LinkAfter(reconnectEnabled: bool, events: seq<Event>): Link {
    Run(Initial(reconnectEnabled), events).client.link
  }
}
