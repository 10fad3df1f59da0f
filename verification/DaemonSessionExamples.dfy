/** Where some short runs of a new client lead. */
module DaemonSessionExamples {
  import opened Wrappers
  import opened DaemonSession

  const DIAL: Event := CallConnect(Opens(false))

  /** The first `connect()` of a new client. */
  lemma FirstDial(reconnectEnabled: bool)
    ensures Step(Initial(reconnectEnabled), DIAL).client
         == Initial(reconnectEnabled).(link := Link(Connecting, Some(0), 1, false, true, reconnectEnabled, 0,
                                                    true, true, false, true, false))
  {
  }

  /** A client on its first connection. */
  function FirstConnected(reconnectEnabled: bool): Client {
    Client(Link(Connected, Some(0), 1, false, true, reconnectEnabled, 0, false, false, false, false, false),
           Calls([], [], 0), Heart(None, false, 0, true), [], Others([], []))
  }

  /** The greeting of the daemon, where nothing was queued or subscribed to before. */
  lemma Greeted(c: Client)
    requires c.link.status.Connecting? && c.link.transport.Some? && !c.link.credential
    requires c.others == Others([], []) && c.calls == Calls([], [], 0) && c.registry == []
    ensures Step(c, GREETING).client
         == c.(link := c.link.(status := Connected, connectTimer := false, reconnectAttempt := 0,
                               connectPromise := false, connectHandlers := false),
               heart := c.heart.(failures := 0, timer := true))
  {
  }

  lemma FirstConnection(reconnectEnabled: bool)
    ensures Run(Initial(reconnectEnabled), [DIAL, GREETING]).client == FirstConnected(reconnectEnabled)
  {
    hide Step;
    var c := Initial(reconnectEnabled);
    RunStep(c, [], DIAL);
    RunStep(c, [DIAL], GREETING);
    assert [] + [DIAL] == [DIAL] && [DIAL] + [GREETING] == [DIAL, GREETING] && Run(c, []).client == c;
    hide Run;
    FirstDial(reconnectEnabled);
    Greeted(Step(c, DIAL).client);
  }
}
