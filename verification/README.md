# Verified models of paseo's client and protocol cores

This project models the stateful and algorithmic cores of paseo's client and protocol packages in
Dafny and proves what they promise.

- **The terminal mode tracker** (`ControlSequences`, `TerminalInputMode`, `TerminalChunking`,
  `TerminalPreamble`, `TerminalReading`, `KittyStack`, `Numerals`): a scanner of control sequences,
  in the shape of section 5.4 of ECMA-48, over a stream that arrives in chunks. The tracker object
  runs the repeated search of the source; it is proved equal to a left-to-right scan, and from that
  chunking, preamble and stack laws follow. The chunking law holds exactly when no chunk boundary
  falls behind the ESC of a sequence: a lone ESC at the end of a chunk is not carried over.
- **The daemon client session** (`DaemonSession` and the `DaemonSession...` modules,
  `SubscriptionKey`): connection status, transport, waiters, send queue, ping probe, timers,
  terminal-directory registry, and what else is subscribed to again on a new connection. Every
  API call, transport event, inbound frame and timer is one step, which yields the next state and
  the effects on the outside; runs are arbitrary sequences of steps. `DaemonSessionShapes` sorts
  all steps into a few shapes once, and conservation, correlation, wire order, subscription
  refinement and liveness are each proved shape by shape; retries, deadlines, pings, the promise of
  `connect()`, and what is reported of status and transports have modules of their own.
  `DaemonSessionAnswers`, `DaemonSessionReactions` and `DaemonSessionReasons` say outright what each
  event is bound to do, and that nothing happens without one.
  `DaemonClient` is the same machine as an object that updates its fields in place, with the
  source's loops, and each of its methods is held to the step function; `Perform` ties the object
  to the runs of the theorems.
- **File transfers** (`FileTransfer`), **the provider snapshot codec** (`ProviderSnapshotCodec`,
  `ThinkingSetKey`, `JsonText`), **rolling-window metrics** (`RuntimeMetrics`), **the highlighter's
  tokens** (`Highlighter`), **the wait for providers** (`ProviderWait`), **plugin source
  references** (`PluginSource`), **the slot router** (`TerminalStreamRouter`) and **branch slugs**
  (`BranchSlug`).

Things worth knowing that the proofs turned up:

- When the attempt inside a first `connect()` throws and no retry is to follow (retries are
  disabled, or the credential is at fault), the promise is stored after it was rejected. Every
  later `connect()` and `ensureConnected()` then returns that promise and never tries again
  (`FailedStart`).
- Whether a disconnected client tries again was decided when it last reported a loss, by whether it
  wanted a connection and retries were enabled then. Enabling retries later arms none, so that a
  client that wants a connection and may retry can do nothing (`NeverGivesUp`, `EnabledTooLate`).
- An attempt to connect can be left without a deadline. An error without details cancels the
  connect timer, and the opening of the transport then cancels the timer the error had armed: the
  client keeps connecting for as long as the transport is silent (`ConnectingIsTimed`,
  `OpenAfterErrorStalls`, `StalledStays`).
- A retry timer can outlive a reconnection by hand. When it runs out it swaps the transport under a
  ping in flight, whose failure then counts against the new connection (`FailureIsOfItsTransport`,
  `OldPingIsCharged`, `OldPingEndsAttempt`).
- Requests can overtake each other at the handshake: the requests of file subscriptions are made
  again, and sent, before the queue is flushed (`SentInOrder`, `FileRequestOvertakes`).
- Subscriptions that share a key get client and daemon out of step (`InStepExactly`,
  `CollisionLosesSubscription`).
- The heartbeat timer may stay armed after the transport reports its end; it then finds the
  client disconnected and does nothing.
- A read whose chunks exceed the announced size gets no response at all (`Reassembly`,
  `ExcessChunkGetsNoResponse`).
- A wait for providers whose response carries an empty request id misses every later update
  (`NoLostWakeUp`, `EmptyIdMissesUpdate`), and the empty terminal id is not evicted from a slot it
  holds (`AssignKeepsInverse`, `EmptyIdKeepsSlot`).
- Kitty keyboard flags from 10^21 on are lost in the preamble, because they are printed in
  exponent form (`PreambleRoundTrip`, `HugeFlagsAreLost`).
- The code assigns the flags for every non-zero mode of the kitty `=` sequence, and so does the
  model; modes 2 and 3 of the kitty protocol are not treated as bit-or and bit-clear.

`dafny verify dfyconfig.toml` checks the whole project.

Rows of `DaemonClientObject` state that the method moves the object's fields and its trace exactly
as the session's transition of that name does; the cell says what that transition is.

## Model

| member | source | states |
|---|---|---|
| ControlSequences.MatchAtIsSequence | packages/protocol/src/terminal-input-mode.ts:24-27 | at a position the search pattern finds a sequence ending at a given place exactly when the text there spells that sequence, so each ESC starts at most one match |
| ControlSequences.SearchIsRun | packages/protocol/src/terminal-input-mode.ts:92-117 | the repeated search together with the left-over prefix finds exactly what one left-to-right scan of the text finds: the same sequences in order and the same open prefix |
| TerminalInputMode.TerminalInputModeTracker.Feed | packages/protocol/src/terminal-input-mode.ts:80-120 | one call gives the modes, the pending prefix, the responses and the `changed` flag of folding the sequences that a scan of the data completes, started inside the pending prefix |
| TerminalInputMode.TerminalInputModeTracker.ApplyMatches | packages/protocol/src/terminal-input-mode.ts:92-108 | the search loop consumes up to the end of the last match, applies the matches in order, concatenates the responses and ors the changes |
| TerminalInputMode.TerminalInputModeTracker.ApplyKittyKeyboardSequence | packages/protocol/src/terminal-input-mode.ts:165-202 | push, set, pop and query act on flags and stack as specified, with the defaults for missing or malformed parameters; other prefixes do nothing |
| TerminalInputMode.TerminalInputModeTracker.ApplyPrivateModeSequence | packages/protocol/src/terminal-input-mode.ts:204-227 | a final `h` switches on, and a final `l` off, exactly the listed modes among the three known ones; `changed` tells whether any of them differed |
| TerminalInputMode.TerminalInputModeTracker.Reset | packages/protocol/src/terminal-input-mode.ts:122-129 | every mode off, the stack empty, nothing pending |
| TerminalInputMode.TerminalInputModeTracker.GetPreamble | packages/protocol/src/terminal-input-mode.ts:148-163 | the text is the concatenation of the sequences for the modes that are on |
| TerminalReading.PrivateModeReads | packages/protocol/src/terminal-input-mode.ts:204-227 | said from the characters, for every state and list of numbers: `ESC [ ? numbers h` switches on, and `ESC [ ? numbers l` off, each of the modes 9001, 1 and 2004 that is listed; flags, stack and the others stay; a change is told exactly if one of them was otherwise |
| TerminalReading.OnAndOff | packages/protocol/src/terminal-input-mode.ts:204-227 | bracketed paste switched on and off again by two sequences |
| TerminalReading.PushReads | packages/protocol/src/terminal-input-mode.ts:172-176 | said from the characters: a push saves the flags and sets those given, 1 if none are |
| TerminalReading.SetReads | packages/protocol/src/terminal-input-mode.ts:177-181 | a set sequence sets the flags given, or 0 if none are given or the mode given is 0 |
| TerminalReading.PopReads | packages/protocol/src/terminal-input-mode.ts:182-188 | a pop goes back as many pushes as given, one if no positive number is, to 0 and an empty stack if there are fewer |
| TerminalReading.QueryReads | packages/protocol/src/terminal-input-mode.ts:189-195 | a query is answered with the flags and changes nothing; a sequence without a prefix does nothing |
| TerminalChunking.ChunkingExact | packages/protocol/src/terminal-input-mode.ts:85-117 | for every list of chunks: the sequences recognised and the prefix left open are those of the whole stream if and only if no chunk boundary falls between the ESC and the `[` of a sequence |
| TerminalChunking.FeedAllFolds | packages/protocol/src/terminal-input-mode.ts:80-120 | feeding chunk by chunk is a left fold over the sequences recognised, with responses concatenated and `changed` or-ed |
| TerminalChunking.ChunkingInvariance | packages/protocol/src/terminal-input-mode.ts:80-120 | without such a boundary, chunk-wise feeding gives the same modes, stack, pending prefix, responses and `changed` as one call on the whole stream |
| TerminalChunking.EscapeCutLosesSequence | packages/protocol/src/terminal-input-mode.ts:110-117 | a concrete stream shows what a boundary behind an ESC loses: the push is recognised whole, and lost when ESC and `[>5u` come apart |
| TerminalPreamble.PreambleReplay | packages/protocol/src/terminal-input-mode.ts:148-163 | for every state, a fresh tracker fed the preamble ends with exactly the flags (if they print as plain digits, else 0) and modes of that state, an empty stack, nothing pending and no response |
| TerminalPreamble.PreambleRoundTrip | packages/protocol/src/terminal-input-mode.ts:60-70 | the replayed state equals the original under the state comparison if and only if the flags are below 10^21, where numbers stop printing as plain digits |
| TerminalInputMode.StatesEqualExactly | packages/protocol/src/terminal-input-mode.ts:60-70 | the comparison sees everything but the stack |
| TerminalPreamble.HugeFlagsAreLost | packages/protocol/src/terminal-input-mode.ts:150-153 | a concrete sequence, read by a fresh tracker, sets flags of 10^21, which its preamble does not bring back |
| Numerals.ParseDecimal | packages/protocol/src/terminal-input-mode.ts:30-36 | decimal printing followed by decimal parsing gives the number back |
| Numerals.ExponentFormExactly | packages/protocol/src/terminal-input-mode.ts:189-193 | from 10^21 on: one digit, a point and the other digits up to the last that is not zero, and the number of digits behind the first as exponent |
| KittyStack.PopRestores | packages/protocol/src/terminal-input-mode.ts:182-188 | popping n times gives the flags saved n pushes ago, or 0 if there were fewer, and cuts the stack by n, or to nothing |
| KittyStack.PopsUndoPushes | packages/protocol/src/terminal-input-mode.ts:172-188 | n pushes of anything followed by a pop of n leave the state as it was |
| KittyStack.NestKeepsStack | packages/protocol/src/terminal-input-mode.ts:165-202 | count a push as +1 and a pop as minus its count: a run whose running depth never falls below 0 and ends at 0 leaves the stack as it found it, also where one pop closes several pushes |
| KittyStack.BracketRestores | packages/protocol/src/terminal-input-mode.ts:165-202 | a run that starts with a push and ends with the pop that first returns to the start, of whatever count, brings back both flags and stack, however flags were set, queried, pushed and popped between |
| SubscriptionKey.KeyInjective | packages/protocol/src/terminal-subscription-key.ts:1-8 | for ids of the shape `wks_<hex>` and directories that do not themselves look scoped, equal keys mean equal subscriptions |
| SubscriptionKey.UnscopedCollision | packages/protocol/src/terminal-subscription-key.ts:1-8 | an unscoped subscription shares its key with some scoped one if and only if its directory itself reads `wks_<hex>::...` |
| SubscriptionKey.AbsoluteIsWellFormed | packages/protocol/src/terminal-subscription-key.ts:1-8 | absolute directories, rooted, on a drive or on a network share, never look scoped |
| DaemonSessionInvariant.StepInv | packages/client/src/daemon-client.ts:1329-1570 | every API call, transport event, frame and timer keeps the connection invariant: connecting or connected has a transport; only a connecting client queues sends; idle, disconnected and disposed hold no waiter, no queued send and no ping; timers belong to their phases; the heartbeat never stops while connected |
| DaemonSessionInvariant.EveryRunInv | packages/client/src/daemon-client.ts:1329-1570 | that invariant over every run from a new client, with failures remembered below the threshold |
| DaemonSessionInvariant.FailedStart | packages/client/src/daemon-client.ts:1340-1347 | a `connect()` whose attempt throws arms a retry if and only if retries are enabled and the credential was not at fault; otherwise the stored promise makes every later `connect()` and `ensureConnected()` do nothing |
| DaemonSessionInvariant.DisposedIsFinal | packages/client/src/daemon-client.ts:1521-1551 | after `close()` no later call, event or timer opens, sends or reports anything, and the client stays disposed |
| DaemonSessionStory.ConnectionIsKnown | packages/client/src/daemon-client.ts:6137-6148 | over every run: the status reported last is the client's; every transport was opened once; and each but the present one was closed once |
| DaemonSessionReactions.ClosingDisposes | packages/client/src/daemon-client.ts:1521-1551 | `close()` settles every waiter, queued send and ping, closes the transport, stops every timer and forgets the file subscriptions |
| DaemonSessionReactions.TransportEndLoses | packages/client/src/daemon-client.ts:1429-1484 | the end of the transport, or an error that tells what went wrong, settles every waiter, queued send and ping and leaves the client disconnected |
| DaemonSessionReactions.GreetingConnects | packages/client/src/daemon-client.ts:6557-6577 | the daemon's greeting connects a connecting client, tells its waiting caller, forgets the attempts and sets the heartbeat |
| DaemonSessionReactions.UncheckedCredentialEndsIt | packages/client/src/daemon-client.ts:6542-6555 | a daemon that cannot check the client's credential loses the connection for good: no transport, no retry, and the waiting caller rejected |
| DaemonSessionReactions.EnsureDials | packages/client/src/daemon-client.ts:1553-1567 | `ensureConnected()` wishes for a connection in every status but disposed, and opens the next transport unless connected, connecting or behind a stored promise |
| DaemonSessionRetry.NeverGivesUp | packages/client/src/daemon-client.ts:6429-6496 | over every run, with retries enabled and disabled at any time: a disconnected client has a retry armed if and only if it wanted a connection and retries were enabled when it last reported a loss; if they were enabled then, and it wants a connection now but has no retry, its stored promise had failed; a retry is armed only for a client that wants one; and whoever waits in `connect()` at a disconnected client has a retry armed |
| DaemonSessionRetry.AttemptsAreCounted | packages/client/src/daemon-client.ts:6483-6496 | over every run: the attempt number is the number of retries armed since the last handshake |
| DaemonSessionRetry.EnabledTooLate | packages/client/src/daemon-client.ts:6425-6427 | a concrete run on which a client that wants a connection and may retry does nothing: retries are disabled when the connection closes and enabled afterwards, which arms no retry |
| DaemonSessionDeadline.ConnectingIsTimed | packages/client/src/daemon-client.ts:1404-1484 | over every run: a connecting client can leave that state without word from its transport and without `close()` if and only if its present transport did not open after the last error without details that it reported, or a heartbeat ping is in flight whose failure would be the second; the former is when the connect timer or the error timer is armed |
| DaemonSessionPing.OldPingEndsAttempt | packages/client/src/daemon-client.ts:2131-2142 | a concrete run on which only such a ping, left over from an earlier connection, can end the attempt |
| DaemonSessionDeadline.OpenAfterErrorStalls | packages/client/src/daemon-client.ts:1421-1468 | a concrete run on which nothing can: `connect()`, an error without details, then the opening of the transport leave a client connecting, with a caller waiting and no timer armed |
| DaemonSessionDeadline.StalledStays | packages/client/src/daemon-client.ts:1350-1361 | a client without any of these timers stays connecting and answers nobody, whatever is called and whichever timers fire, until its transport reports something or it is closed |
| DaemonSessionPromise.EveryCallerIsAccountedFor | packages/client/src/daemon-client.ts:1329-1348 | over every run: of the `connect()` calls that started waiting, each was answered exactly once, was dropped by `close()`, or is the one still waiting behind the stored promise; `close()` drops at most one |
| DaemonSessionPromise.StaleComesFromFailedStart | packages/client/src/daemon-client.ts:1340-1347 | over every run: a stored promise that has been answered, which later calls get back, comes from a call whose attempt failed at once; every other answer forgets the promise |
| DaemonSessionPromise.ResolvedByHandshake | packages/client/src/daemon-client.ts:1503-1510 | a caller of `connect()` is told of success only by the step that completes the handshake |
| DaemonSessionConservation.RequestsAreConserved | packages/client/src/daemon-client.ts:1768-1832 | over every run and for every request: its waiter is unsettled exactly while it waits and settles once; its send is unsettled exactly while queued and settles once; it is on the wire exactly as often as its send succeeds |
| DaemonSessionReactions.RequestIsTaken | packages/client/src/daemon-client.ts:1766-1796 | a request is sent at once when connected, queued while connecting, and otherwise refused with its waiter cancelled |
| DaemonSessionReactions.QueuedSendTimesOut | packages/client/src/daemon-client.ts:1779-1789 | in every run: the timer of a queued send rejects it and cancels its waiter, and leaves the other sends and waiters in order; without such a send it does nothing |
| DaemonSessionReactions.WaiterTimesOut | packages/client/src/daemon-client.ts:6739-6747 | the timer of a waiter rejects it if it still waits, and leaves the others in order |
| DaemonSessionReasons.EveryEffectHasItsReason | packages/client/src/daemon-client.ts:1329-1570 | from every state: each effect of a step has its reason in the event; a waiter is settled by a message only if the frame carries an answer to that request, by timeout or cancellation only by its own timers or a refusal, by connection loss only if the client ends up disconnected or disposed; likewise for sends, pings, greetings, subscriptions, transports and the caller of `connect()` |
| DaemonSessionCorrelation.SettlementsAreCorrelated | packages/client/src/daemon-client.ts:6620-6644 | over every run, a waiter that is settled belongs to a request that was made, and a message settles it only if it carries that request's id |
| DaemonSessionAnswers.ResponseSettles | packages/client/src/daemon-client.ts:6620-6631 | in every run: a response settles exactly the waiters of its request id and type whose payload test it passes, and the others wait on in order |
| DaemonSessionAnswers.ErrorSettles | packages/client/src/daemon-client.ts:1843-1853 | an RPC error settles exactly the waiters of its request |
| DaemonSessionAnswers.FileReadSettles | packages/client/src/daemon-client.ts:6377-6390 | a completed file read settles exactly the waiters of its request for the explorer's response |
| DaemonSessionAnswers.InvalidSettles | packages/client/src/daemon-client.ts:6633-6644 | a frame that fails validation rejects exactly the waiters of the request it names |
| DaemonSessionAnswers.RequestIsAnswered | packages/client/src/daemon-client.ts:1834-1879 | a request made while connected whose response passes its test is answered |
| DaemonSessionWire.SentInOrder | packages/client/src/daemon-client.ts:6565-6577 | over every run and any number of reconnects: requests go over the wire in the order they were made if and only if no handshake makes the request of a file subscription again while other requests are queued |
| DaemonSessionWire.FileRequestOvertakes | packages/client/src/daemon-client.ts:2627-2638 | a concrete run on which the order fails: a connection with a file subscribed closes, a request is queued while reconnecting, and the daemon greets the client |
| DaemonSessionWire.SentOnLastTransport | packages/client/src/daemon-client.ts:1702-1706 | over every run, every message goes over the transport opened last |
| DaemonSessionWire.HandshakeOrder | packages/client/src/daemon-client.ts:6565-6577 | a step that gets connected starts from connecting and sends, in this order and nothing else, the checkout-diff subscriptions, the terminal subscriptions of the registry, a fresh request for each file subscription, and the queued requests in queue order; it empties the queue and adds the fresh requests' waiters |
| DaemonSessionSubscriptions.InStepExactly | packages/client/src/daemon-client.ts:2612-2625 | for every set of subscriptions: over every run that draws on it, replaying what was sent on the current connection gives exactly the registry while connected and nothing while connecting, if and only if no two members of the set share a key |
| DaemonSessionSubscriptions.DaemonHoldsRegistry | packages/client/src/daemon-client.ts:2612-2625 | the same over every run with well-formed subscriptions, whose keys are distinct |
| DaemonSessionSubscriptions.RegistryFollowsCalls | packages/client/src/daemon-client.ts:5465-5493 | over every run, connected or not: a subscription is registered exactly if the last call with its key made it |
| DaemonSessionSubscriptions.KeysKeepPlaces | packages/client/src/daemon-client.ts:5465-5483 | a key that is set again keeps its place, a new one goes last, a deleted one leaves the others in order |
| DaemonSessionSubscriptions.PutAdds | packages/client/src/daemon-client.ts:5465-5470 | where no keys are shared, setting an entry adds exactly that subscription to the registered set |
| DaemonSessionSubscriptions.DropRemoves | packages/client/src/daemon-client.ts:5480-5483 | where no keys are shared, deleting an entry removes exactly that subscription |
| DaemonSessionSubscriptions.CollisionLosesSubscription | packages/client/src/daemon-client.ts:5465-5493 | whatever is registered, subscribing or unsubscribing keeps a connected client in step with the daemon if and only if no other subscription with the same key is registered |
| DaemonSessionLiveness.LivenessSafety | packages/client/src/daemon-client.ts:6527-6540 | over every run: a liveness teardown comes after two heartbeat failures with no validated frame from the first one on, and the second such failure is followed by one at once; a failure is charged only if the last ping was a heartbeat's own; entering connected finds a count of 0; the count is 0 or 1 between steps |
| DaemonSessionReactions.PongSettlesPing | packages/client/src/daemon-client.ts:6257-6265 | a pong settles the ping in flight, clears the count, and sets the next heartbeat if one awaited it |
| DaemonSessionReactions.PingTimesOut | packages/client/src/daemon-client.ts:2131-2142 | a ping that runs out is gone; a heartbeat's is counted, and with one failure before closes the transport and loses the connection |
| DaemonSessionPing.FailureIsOfItsTransport | packages/client/src/daemon-client.ts:2106-2160 | over every run: the ping whose failure is charged was sent as soon as it was started, and on the transport that is open when it is charged if and only if none was opened in between |
| DaemonSessionPing.OldPingIsCharged | packages/client/src/daemon-client.ts:1364-1366 | a concrete run on which one was: a retry timer that is still armed swaps the transport, and the failure of the ping left behind is charged to the new connection |
| DaemonClientObject.DaemonClient.Perform | packages/client/src/daemon-client.ts:1329-1570 | whatever happens to the object moves its fields and effects as the session step does, so its state and trace are those of the run of its history, and the connection invariant holds |
| DaemonClientObject.DaemonClient.Connect | packages/client/src/daemon-client.ts:1329-1348 | the promise, the wish to reconnect and the attempt, in the source's order |
| DaemonClientObject.DaemonClient.AttemptConnect | packages/client/src/daemon-client.ts:1350-1501 | refused when disposed or unwanted, nothing while connecting, else a fresh transport or the failure path |
| DaemonClientObject.DaemonClient.OpenTransport | packages/client/src/daemon-client.ts:1364-1420 | the previous transport is disposed of before the next is made; status connecting, connect timer armed |
| DaemonClientObject.DaemonClient.FailAttempt | packages/client/src/daemon-client.ts:1486-1500 | a bad credential ends all attempts; then the loss is handled and the caller rejected |
| DaemonClientObject.DaemonClient.EnsureConnected | packages/client/src/daemon-client.ts:1553-1567 | wishes for a connection, and connects unless connected, connecting or disposed |
| DaemonClientObject.DaemonClient.Close | packages/client/src/daemon-client.ts:1521-1551 | everything pending is settled, every timer of the connection stopped, and the status disposed |
| DaemonClientObject.DaemonClient.ScheduleReconnect | packages/client/src/daemon-client.ts:6429-6464 | waiters, queue and ping are settled; the status is disconnected unless disposed; a retry is armed exactly if wanted and enabled |
| DaemonClientObject.DaemonClient.DisposeTransport | packages/client/src/daemon-client.ts:6137-6148 | heartbeat and connect timers stopped and the transport closed |
| DaemonClientObject.DaemonClient.ClearWaiters | packages/client/src/daemon-client.ts:6646-6654 | every waiter is settled, in order, and none is left |
| DaemonClientObject.DaemonClient.ResolveWaiters | packages/client/src/daemon-client.ts:6620-6631 | exactly the waiters that accept the message are removed and settled, in order |
| DaemonClientObject.DaemonClient.RejectWaitersForRequestId | packages/client/src/daemon-client.ts:6633-6644 | exactly the waiters of that request are removed and rejected, in order |
| DaemonClientObject.DaemonClient.FlushPendingSendQueue | packages/client/src/daemon-client.ts:1801-1819 | every queued message is sent and settled, in order, or rejected unless connected with a transport |
| DaemonClientObject.DaemonClient.RejectPendingSendQueue | packages/client/src/daemon-client.ts:1824-1832 | every queued message is rejected, in order |
| DaemonClientObject.DaemonClient.SendRequest | packages/client/src/daemon-client.ts:1834-1879 | a waiter is added; the message is sent, queued, or refused and the waiter cancelled |
| DaemonClientObject.DaemonClient.QueueTimeout | packages/client/src/daemon-client.ts:1779-1789 | the queued send is dropped and rejected, and its waiter cancelled |
| DaemonClientObject.DaemonClient.WaiterTimeout | packages/client/src/daemon-client.ts:6736-6744 | a waiter with a timeout that is still unsettled is removed and rejected |
| DaemonClientObject.DaemonClient.ResubscribeTerminalDirectorySubscriptions | packages/client/src/daemon-client.ts:2612-2625 | one message for each entry, in order |
| DaemonClientObject.DaemonClient.ResubscribeCheckoutDiffSubscriptions | packages/client/src/daemon-client.ts:2596-2610 | one message for each entry, in order |
| DaemonClientObject.DaemonClient.ResubscribeFileSubscriptions | packages/client/src/daemon-client.ts:2627-2638 | one request with a waiter of its own for each entry, in order |
| DaemonClientObject.DaemonClient.PingTimeout | packages/client/src/daemon-client.ts:2131-2142 | the ping is rejected; only a heartbeat's own counts as a failure |
| DaemonClientObject.DaemonClient.RecordLivenessFailure | packages/client/src/daemon-client.ts:6527-6540 | one failure is remembered, the second one tears the connection down and clears the count |
| DaemonClientObject.DaemonClient.HeartbeatTick | packages/client/src/daemon-client.ts:2176-2188 | the due heartbeat pings, or joins the ping in flight, and waits for it |
| DaemonClientObject.DaemonClient.BecomeConnected | packages/client/src/daemon-client.ts:6565-6577 | connect timer and attempt count cleared, heartbeat started, then checkout-diff, terminal and file subscriptions, queue and caller served in that order |
| DaemonClientObject.DaemonClient.HandleFrame | packages/client/src/daemon-client.ts:6230-6270 | invalid frames reject their request's waiters; valid ones clear the failure count and are handled |
| DaemonClientObject.DaemonClient.RefuseAuthentication | packages/client/src/daemon-client.ts:6542-6555 | a daemon that cannot check the credential ends the connection and all retries |
| FileTransfer.InterleavingIsInvisible | packages/client/src/daemon-client.ts:6316-6390 | what the client keeps about a request depends only on that request's own frames, in their order, however they are interleaved with others |
| FileTransfer.Reassembly | packages/client/src/daemon-client.ts:6316-6390 | a pending read whose frames arrive in order ends with the bytes sent, padded with zeros to the announced size; over its limit it is refused; chunks exceeding the size leave it active without a response |
| FileTransfer.ExcessChunkGetsNoResponse | packages/client/src/daemon-client.ts:6363-6390 | a concrete transfer, one byte for an empty file, leaves the read active without a result or a response |
| FileTransfer.ShortTransferIsPadded | packages/client/src/daemon-client.ts:1146-1154 | a transfer that brings fewer bytes than announced is filled up with zeros |
| FileTransfer.RangeErrorExactly | packages/client/src/daemon-client.ts:1146-1154 | the range error comes at the end of a transfer within its limit whose chunks exceed the announced size, and only there |
| FileTransfer.KindExactly | packages/client/src/daemon-client.ts:1136-1144 | images by their type, text by its encoding or type, everything else binary |
| FileTransfer.UploadRoundTrip | packages/client/src/daemon-client.ts:4708-4738 | the frames of the upload loop, interleaved with any others, complete a pending read with exactly the uploaded bytes, the metadata, path and kind if they are within its limit (0 is none), and are refused otherwise; one response either way, with the read's directory and path |
| FileTransfer.UploadFile | packages/client/src/daemon-client.ts:4708-4738 | for every chunk size of at least 1 the loop ends, having sent the announcement with the byte count, the pieces and the end |
| FileTransfer.PiecesCover | packages/client/src/daemon-client.ts:4723-4732 | the pieces of the upload put together are the bytes |
| FileTransfer.PiecesBounded | packages/client/src/daemon-client.ts:4723-4732 | no piece is empty or longer than the chunk size |
| FileTransfer.LateFramesAreIgnored | packages/client/src/daemon-client.ts:4587-4590 | frames that come after a read has finished change nothing |
| FileTransfer.ConcatByteChunks | packages/client/src/daemon-client.ts:1146-1154 | the buffer holds the chunks one after another and zeros behind them; it fails exactly if they do not fit |
| FileTransfer.FileReads.HandleFrame | packages/client/src/daemon-client.ts:6316-6390 | a frame acts on the tables as specified, and raises the range error exactly when the specification does |
| FileTransfer.FileReads.FinishRead | packages/client/src/daemon-client.ts:4578-4590 | the result is handed out once, the read's entries are removed, and no other request is touched |
| ProviderSnapshotCodec.RoundTrip | packages/protocol/src/provider-snapshot-codec.ts:32-119 | for every snapshot and every key function: expanding the compacted snapshot gives it back if and only if each model belongs to its entry's provider and no two different thinking sets in it share a key |
| ThinkingSetKey.JsonRoundTrip | packages/protocol/src/provider-snapshot-codec.ts:28-30 | with JSON text as the key, a snapshot whose options hold JSON data comes back if and only if its providers match |
| ThinkingSetKey.KeyTextIsInjective | packages/protocol/src/provider-snapshot-codec.ts:28-30 | two sets of JSON data have the same JSON text only if they are the same |
| JsonText.StringifyIsInjective | packages/protocol/src/provider-snapshot-codec.ts:28-30 | no two JSON values have the same text, with all the escapes of strings and the nesting of arrays and objects |
| ProviderSnapshotCodec.AlwaysExpands | packages/protocol/src/provider-snapshot-codec.ts:84-106 | a compacted snapshot always expands: the missing-set error cannot occur |
| ProviderSnapshotCodec.TableIsTight | packages/protocol/src/provider-snapshot-codec.ts:51-67 | the table holds no two sets with one key, and every set in it is referred to by some model |
| ProviderSnapshotCodec.InternModelsKeeps | packages/protocol/src/provider-snapshot-codec.ts:32-67 | compacting models only extends the table, keeps keys and positions in one-to-one correspondence, and knows every set met |
| ProviderSnapshotCodec.ThinkingTable.CompactOneModel | packages/protocol/src/provider-snapshot-codec.ts:32-67 | a model's compact form refers to its set's entry, which is added if its key is new |
| ProviderSnapshotCodec.ThinkingTable.CompactAll | packages/protocol/src/provider-snapshot-codec.ts:76-79 | compacting a list threads the table through it |
| ProviderSnapshotCodec.CompactProviderSnapshot | packages/protocol/src/provider-snapshot-codec.ts:69-82 | the nested loops over one shared table give the specified compact snapshot |
| RuntimeMetrics.MergeSummaries | packages/client/src/daemon-client-runtime-metrics.ts:146-160 | merging the summaries of two stretches of events is the summary of both |
| RuntimeMetrics.CountsMean | packages/client/src/daemon-client-runtime-metrics.ts:57-76 | each counter shows for each key exactly what its events add up to, and lists exactly the keys that occurred |
| RuntimeMetrics.TimingsMean | packages/client/src/daemon-client-runtime-metrics.ts:179-196 | count, total and maximum of a key's handler time are those of its events |
| RuntimeMetrics.MaximumIsReached | packages/client/src/daemon-client-runtime-metrics.ts:179-196 | the maximum bounds every event of the key and is reached by one of them |
| RuntimeMetrics.ActivityIsTraffic | packages/client/src/daemon-client-runtime-metrics.ts:113-118 | there is activity exactly if a message or a binary frame was counted, whatever else was |
| RuntimeMetrics.FramesAreFiledApart | packages/client/src/daemon-client-runtime-metrics.ts:72-76 | bytes and time of a binary frame are filed under `binary:` and its kind, its count under the kind |
| RuntimeMetrics.DaemonClientRuntimeMetrics.Flush | packages/client/src/daemon-client-runtime-metrics.ts:78-91 | no event is lost or counted twice; the report is the summary of exactly the events of the kept buckets, and is made exactly if there is activity or it is final; what is dropped had expired; with a clock that never goes back exactly the buckets within the window are kept; no existing timing cell changes |
| RuntimeMetrics.DaemonClientRuntimeMetrics.ConsumeCurrentBucket | packages/client/src/daemon-client-runtime-metrics.ts:113-137 | the counters move into a bucket with timing cells of its own exactly if a message or binary frame was counted |
| RuntimeMetrics.DaemonClientRuntimeMetrics.PruneBuckets | packages/client/src/daemon-client-runtime-metrics.ts:139-144 | expired buckets are dropped from the front, as many as there are |
| RuntimeMetrics.DaemonClientRuntimeMetrics.AggregateBuckets | packages/client/src/daemon-client-runtime-metrics.ts:146-160 | the aggregate sums up exactly the kept buckets' events in fresh cells, and changes none of the buckets |
| RuntimeMetrics.DaemonClientRuntimeMetrics.RecordMessage | packages/client/src/daemon-client-runtime-metrics.ts:57-61 | one more message event is counted, and no bucket changes |
| RuntimeMetrics.DaemonClientRuntimeMetrics.RecordAgentStream | packages/client/src/daemon-client-runtime-metrics.ts:63-70 | one more agent-stream event is counted |
| RuntimeMetrics.DaemonClientRuntimeMetrics.RecordBinaryFrame | packages/client/src/daemon-client-runtime-metrics.ts:72-76 | one more binary frame is counted, its bytes and time under the key `binary:` plus its kind |
| RuntimeMetrics.MergeHandlerTimings | packages/client/src/daemon-client-runtime-metrics.ts:215-233 | entries are added key by key into the target's cells, or into fresh ones; the source's cells are only read |
| RuntimeMetrics.CloneHandlerTimings | packages/client/src/daemon-client-runtime-metrics.ts:198-207 | the copy has equal values in fresh cells |
| RuntimeMetrics.MergeCountMap | packages/client/src/daemon-client-runtime-metrics.ts:209-213 | counts are added key by key |
| Highlighter.HighlightCode | packages/highlight/src/highlighter.ts:7-64 | for every code and every painting: each line's tokens spell the line, give every character the style painted last at its absolute position, and are canonical (adjacent styles differ, an empty token only for an empty line); without a parser one unstyled token a line |
| Highlighter.LosesNothing | packages/highlight/src/highlighter.ts:17-22 | joining the texts of the lines' tokens with newlines gives the code back |
| Highlighter.TokensAreUnique | packages/highlight/src/highlighter.ts:37-58 | a line's text and styles determine its canonical tokens |
| Highlighter.Paint | packages/highlight/src/highlighter.ts:25-31 | every position ends with the style of the last range that covers it |
| Highlighter.StyleAtExactly | packages/highlight/src/highlighter.ts:25-31 | the style of a position is that of the last range covering it, and none if none does |
| Highlighter.CutLine | packages/highlight/src/highlighter.ts:41-57 | the run-length loop cuts a line into the canonical tokens of its styles |
| Highlighter.LinesAreInPlace | packages/highlight/src/highlighter.ts:34-60 | each line is found in the code at the offset the loop has reached |
| Highlighter.HighlightLine | packages/highlight/src/highlighter.ts:66-69 | a single line's tokens spell it |
| ProviderWait.NoLostWakeUp | packages/client/src/index.ts:924-966 | after its response an undisturbed wait is unsettled if and only if the response, the last update for its directory before it and every one after it had a loading entry; with an empty request id the updates after it are not looked at |
| ProviderWait.EmptyIdMissesUpdate | packages/client/src/index.ts:924-934 | after an incomplete response, a complete update resolves the wait, unless the response carried the empty request id: then the wait stays pending |
| ProviderWait.TimeoutSettles | packages/client/src/index.ts:936-948 | over every run: the timeout leaves no wait unsettled; it fails an unsettled one, naming in order the providers loading in the entries looked at last, those of the response or of the last update for its directory after it, and none before the response; a failed request fails it too |
| ProviderWait.WhatItComesTo | packages/client/src/index.ts:924-966 | the wait resolves with the response, else the last stored update for its directory, else the first later one, whichever is first complete |
| ProviderWait.ResolvesSoundly | packages/client/src/index.ts:910-966 | over every run with at most one response: it resolves only after the response, under its request id, for its directory, with no loading entry |
| ProviderWait.SettlesOnce | packages/client/src/index.ts:910-921 | after the first settlement nothing changes the outcome |
| ProviderWait.ProvidersReadyWait.ReceiveUpdate | packages/client/src/index.ts:924-934 | an update is stored before the response, ignored for another directory, noted while loading, and settles the wait otherwise |
| ProviderWait.ProvidersReadyWait.ReceiveResponse | packages/client/src/index.ts:952-965 | a complete response settles the wait; otherwise the stored update for its directory does if it is complete |
| ProviderWait.ProvidersReadyWait.FireTimeout | packages/client/src/index.ts:936-948 | an unsettled wait fails, naming the providers still loading |
| PluginSource.FormatParse | packages/protocol/src/plugin-source-reference.ts:6-40 | printing what was parsed gives the reference back, for every reference |
| PluginSource.ParseFormat | packages/protocol/src/plugin-source-reference.ts:6-40 | for every source and portable path: parsing what was printed gives both back if and only if a source with `://` has a later `/`, or one without is not a bare `user@host` |
| PluginSource.ScpSeparator | packages/protocol/src/plugin-source-reference.ts:21-26 | the separator is taken for that of `user@host:path` exactly if the source is a bare `user@host` |
| PluginSource.ScpExactly | packages/protocol/src/plugin-source-reference.ts:21-26 | the expression for `user@host:` matches exactly up to the first colon behind the first at sign, with no slash or white space before that sign and none of white space after it |
| PluginSource.PortableExactly | packages/protocol/src/plugin-source-reference.ts:42-47 | a path is portable exactly if it is `.`, or has no colon and no empty, `.` or `..` piece between slashes of either kind |
| PluginSource.FormatFailsExactly | packages/protocol/src/plugin-source-reference.ts:31-40 | printing fails exactly for a path that is not portable |
| PluginSource.UrlSeparator | packages/protocol/src/plugin-source-reference.ts:15-20 | the separator is taken for part of a URL exactly if no `/` follows the scheme in the source |
| TerminalStreamRouter.AssignKeepsInverse | packages/client/src/terminal-stream-router.ts:27-40 | setting a slot keeps the two maps inverse if and only if the slot is not held by the empty terminal id, or is set for that id; only the slot's occupant loses its slot |
| TerminalStreamRouter.EmptyIdKeepsSlot | packages/client/src/terminal-stream-router.ts:27-40 | setting a slot for the empty id and then for another terminal leaves both terminals on that slot |
| TerminalStreamRouter.RunIsInverse | packages/client/src/terminal-stream-router.ts:27-56 | after any run of operations on nonempty ids the two maps are inverse to each other |
| TerminalStreamRouter.RoutingMatchesTagging | packages/client/src/terminal-stream-router.ts:58-122 | after any such run a frame on a slot reaches a terminal if and only if that terminal's input would be tagged with the slot |
| TerminalStreamRouter.DeliveredExactly | packages/client/src/terminal-stream-router.ts:87-122 | output, restored text and decoded snapshots reach the slot's terminal; nothing else is delivered |
| TerminalStreamRouter.RemovalExactly | packages/client/src/terminal-stream-router.ts:42-56 | removing a terminal takes its entry and that of its slot if still its own; clearing takes all |
| TerminalStreamRouter.RemovedIsSilent | packages/client/src/terminal-stream-router.ts:42-51 | a removed terminal receives nothing on any slot until it is given one again |
| TerminalStreamRouter.TerminalStreamRouter.SetSlot | packages/client/src/terminal-stream-router.ts:27-40 | the maps change as specified |
| TerminalStreamRouter.TerminalStreamRouter.RemoveTerminal | packages/client/src/terminal-stream-router.ts:42-51 | the terminal's entries are removed from both maps |
| TerminalStreamRouter.TerminalStreamRouter.ClearSlots | packages/client/src/terminal-stream-router.ts:53-56 | both maps are empty |
| TerminalStreamRouter.TerminalStreamRouter.EncodeInput | packages/client/src/terminal-stream-router.ts:58-85 | keys and resizes are tagged with the terminal's slot; anything else, or no slot, gives nothing |
| TerminalStreamRouter.TerminalStreamRouter.HandleFrame | packages/client/src/terminal-stream-router.ts:87-122 | a deliverable frame goes to the slot's occupant, if there is one |
| BranchSlug.SlugifyIsSound | packages/protocol/src/branch-slug.ts:45-61 | for every text: the slug is the words of the lower-cased text joined by hyphens, cut at fifty characters or at the last hyphen beyond the half; it is empty exactly if there are no words, and otherwise accepted by the validator |
| BranchSlug.SlugifyFixesSlugs | packages/protocol/src/branch-slug.ts:45-61 | a text is its own slug if and only if it is empty or consists of at most fifty letters and digits with single hyphens between them |
| BranchSlug.SlugifyIsIdempotent | packages/protocol/src/branch-slug.ts:45-61 | slugifying twice changes nothing more |
| BranchSlug.CaseDoesNotMatter | packages/protocol/src/branch-slug.ts:46-49 | texts that differ only in the case of ASCII letters have the same slug |
| BranchSlug.SlugShowsText | packages/protocol/src/branch-slug.ts:45-61 | each letter, digit and single separator of a text of at most fifty shows at its own place in the slug: letters of either case small, the Kelvin sign as `k`, separators as hyphens |
| BranchSlug.DottedCapitalI | packages/protocol/src/branch-slug.ts:46-49 | the dotted capital I becomes an `i` and a separator |
| BranchSlug.ValidExactly | packages/protocol/src/branch-slug.ts:5-36 | a branch slug is valid exactly if it has 1 to 100 small letters, digits, hyphens and slashes, no hyphen at either end and no two in a row |
| BranchSlug.FullSlugSpellsWords | packages/protocol/src/branch-slug.ts:46-49 | lower-casing, collapsing and trimming give the words joined by hyphens |
| BranchSlug.TruncateCuts | packages/protocol/src/branch-slug.ts:55-60 | both truncation branches cut a tidy slug at the right place and leave it tidy |
| BranchSlug.ValidIsFixed | packages/protocol/src/branch-slug.ts:5-61 | a valid branch slug without slashes is left alone exactly if it has at most fifty characters |

## Left out

- Real sockets, the relay's end-to-end encryption, Blob decoding, schema validation, JSON parsing, tracing and logging: messages and frames are already decoded data.
- The byte layout of binary frames: frames are datatypes.
- The RPC wrapper methods and feature gates of the client: thin calls over one request method, which is modelled.
- Waiters without a request id, such as those of dictation: only correlated requests are modelled; a response is matched by its type, its request id and an arbitrary payload test.
- How checkout-diff and file subscriptions come and go: overlapping calls for one id can roll back each other, so no registry law holds. A step of the session replaces both lists by any others, and only `close()` and the handshake look at them; the requests that go with such changes are ordinary requests, and each file subscription is listed with the request id it is made again under.
- Listeners: assumed not to call back into the client; a transport's `send` is assumed not to throw. Failures to send a greeting or a ping are therefore not modelled.
- The order of promise callbacks: a refused request is made, failed and cancelled in one step, and settlement is a state change.
- Durations and the clock of the session: timers fire at any time while armed. The reconnect delay is not modelled, only that a retry is armed and the attempt counted.
- The session does not model terminal slots: that a lost connection clears them is left to the router's own operations.
- A completed file read reaches the session as a response with a fixed payload; `FileTransfer` models what it delivers.
- FileTransfer.UploadFile: requires a chunk size of at least 1, because with 0 the source's loop does not end.
- Metadata of an upload beyond size, type, encoding, time and revision; the file name is not kept by the reader either.
- TerminalInputMode.TerminalInputModeTracker.ApplyKittyKeyboardSequence: parameters are exact numbers, whereas the source rounds those beyond 2^53 to doubles; a pop count so large that the source's loop counter stops advancing is not modelled.
- Strings are sequences of Unicode scalar values; lone surrogates, and the difference between code units and code points beyond the basic plane in lengths and offsets, are not modelled.
- ThinkingSetKey.KeyTextIsInjective: options are data with a fixed order of properties, and numbers are given by their text, so that -0 and numbers that are not finite are excluded.
- RuntimeMetrics.DaemonClientRuntimeMetrics.Flush: handler times are exact reals, without floating-point rounding; the top-N lists and rounding of the log line are not modelled.
- The parser and the tag classes of the highlighter: the painted ranges are an arbitrary input.
- BranchSlug.FullSlugSpellsWords: lower-casing is modelled as far as it can yield `a-z` and `0-9`; other characters are kept, since each of them only becomes part of a hyphen.
- ProviderWait.ResolvesSoundly: assumes at most one response, which is what a promise delivers.
- `parseProviderModel`, the id resolvers and the other helpers of the client's entry file: plain lookups.
