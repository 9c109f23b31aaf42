/**
 * The single-page React demo (src/index-react.tsx): a key and a peer id,
 * a runtime created on first connect and reused afterwards, and the page's
 * relay state.
 *
 * React state is a field and a `setX` call an assignment. Each handler is one
 * atomic step with its awaits as parameters; a click on a disabled button
 * does nothing. Of the runtime's event handlers only connection loss is
 * modelled: the auto-accept of connection requests is not, and the other
 * handlers' bodies are empty or commented out in the page.
 */
module ReactRelay {
  import opened Handles
  import Logging
  import Settings

  /** The externalId this page initialises its runtime with. */
  const RelayExternalId: string := "web-sdk-demo-sandbox"

  class RelayDemo {
    const minimumLogLevel: int
    var peerIdText: string
    var apiKey: string
    var uiState: SandboxState
    var runtime: Option<Runtime>
    var peer: Option<Peer>
    var calls: seq<SdkCall>
    /** Every state setUIState has set, in order. */
    ghost var stateLog: seq<SandboxState>

    /** The first render: the two fallback chains, the minimum log level, Disconnected. */
    constructor (configPeerId: Option<string>, storedPeerId: Option<string>,
                 storedApiKey: Option<string>, configApiKey: Option<string>, configLogLevel: Option<int>)
      ensures peerIdText == Settings.InitialPeerId(configPeerId, storedPeerId)
      ensures apiKey == Settings.InitialApiKey(storedApiKey, configApiKey)
      ensures minimumLogLevel == Logging.InitialMinimumLogLevel(configLogLevel)
      ensures uiState == SandboxState.Disconnected && runtime == None && peer == None
      ensures calls == [] && stateLog == []
    {
      peerIdText := Settings.InitialPeerId(configPeerId, storedPeerId);
      apiKey := Settings.InitialApiKey(storedApiKey, configApiKey);
      minimumLogLevel := Logging.InitialMinimumLogLevel(configLogLevel);
      uiState := SandboxState.Disconnected;
      runtime, peer := None, None;
      calls, stateLog := [], [];
    }

    /** handleLog: the runtime's log sink. */
    function HandleLog(level: int, message: string): (r: Option<Logging.ConsoleLine>)
      reads this
      ensures r.Some? <==> level >= minimumLogLevel
      ensures r.Some? ==> r.value == Logging.ConsoleLine(Logging.ConsoleSink(level), message)
    {
      Logging.HandleLog(minimumLogLevel, level, message)
    }

    /** The Connect button is disabled once there is a runtime. */
    function ConnectDisabled(): (d: bool)
      reads this
      ensures d <==> runtime.Some?
    {
      runtime.Some?
    }

    /** The Connect to peer button is disabled without a runtime. */
    function ConnectPeerDisabled(): (d: bool)
      reads this
      ensures d <==> runtime.None?
    {
      runtime.None?
    }

    /** The Start stream button is disabled without a peer. */
    function StartStreamDisabled(): (d: bool)
      reads this
      ensures d <==> peer.None?
    {
      peer.None?
    }

    method SetUIState(s: SandboxState)
      modifies this
      ensures uiState == s && stateLog == old(stateLog) + [s]
      ensures peerIdText == old(peerIdText) && apiKey == old(apiKey) && runtime == old(runtime)
      ensures peer == old(peer) && calls == old(calls)
    {
      uiState := s;
      stateLog := stateLog + [s];
    }

    /**
     * connectToRelay. It sets ConnectingToRelay first. It initialises a
     * runtime only when there is none, and otherwise reuses the one it has; a
     * failed initialisation propagates. It then connects that runtime to the
     * gateway, and sets ConnectedToRelay only after that connect succeeds.
     */
    method ConnectToRelay(init: Step<Runtime>, gateway: Settled)
      modifies this
      ensures old(runtime).Some? ==> runtime == old(runtime)
      ensures old(runtime).None? ==> runtime == (if init.Resolved? then Some(init.value) else None)
      ensures calls == old(calls)
                       + (if old(runtime).None? then [InitializeRuntime(old(apiKey), RelayExternalId)] else [])
                       + (if runtime.Some? then [ConnectGateway] else [])
      ensures var reached := runtime.Some? && gateway.Done?;
              && stateLog == old(stateLog) + [SandboxState.ConnectingToRelay]
                             + (if reached then [SandboxState.ConnectedToRelay] else [])
              && uiState == (if reached then SandboxState.ConnectedToRelay else SandboxState.ConnectingToRelay)
      ensures peerIdText == old(peerIdText) && apiKey == old(apiKey) && peer == old(peer)
    {
      SetUIState(SandboxState.ConnectingToRelay);
      var rt: Runtime;
      if runtime.None? {
        calls := calls + [InitializeRuntime(apiKey, RelayExternalId)];
        if init.Rejected? {
          return;
        }
        rt := init.value;
        runtime := Some(rt);
      } else {
        rt := runtime.value;
      }
      calls := calls + [ConnectGateway];
      if gateway.Failed? {
        return;
      }
      SetUIState(SandboxState.ConnectedToRelay);
    }

    /** The Connect button: runs connectToRelay unless it is disabled. */
    method ClickConnect(init: Step<Runtime>, gateway: Settled)
      modifies this
      ensures old(runtime).Some? ==>
                uiState == old(uiState) && stateLog == old(stateLog) && calls == old(calls) && runtime == old(runtime)
      ensures old(runtime).None? ==>
                && runtime == (if init.Resolved? then Some(init.value) else None)
                && calls == old(calls) + [InitializeRuntime(old(apiKey), RelayExternalId)]
                                       + (if init.Resolved? then [ConnectGateway] else [])
                && uiState == (if init.Resolved? && gateway.Done? then SandboxState.ConnectedToRelay
                               else SandboxState.ConnectingToRelay)
      ensures peerIdText == old(peerIdText) && apiKey == old(apiKey) && peer == old(peer)
    {
      if ConnectDisabled() {
        return;
      }
      ConnectToRelay(init, gateway);
    }

    /** onRuntimeConnectionLost: the state returns to Disconnected; the runtime is kept. */
    method OnRuntimeConnectionLost()
      modifies this
      ensures uiState == SandboxState.Disconnected && stateLog == old(stateLog) + [SandboxState.Disconnected]
      ensures runtime == old(runtime) && peer == old(peer) && calls == old(calls)
      ensures peerIdText == old(peerIdText) && apiKey == old(apiKey)
    {
      SetUIState(SandboxState.Disconnected);
    }

    /**
     * The Connect to peer button: converts the typed id (a failure throws and
     * changes nothing), connects, and holds the peer it gets; a rejected
     * connect changes nothing either.
     */
    method ClickConnectToPeer(connect: Step<Peer>)
      modifies this
      ensures old(runtime).None? || ParsePeerId(peerIdText).None? ==> peer == old(peer) && calls == old(calls)
      ensures old(runtime).Some? && ParsePeerId(peerIdText).Some? ==>
                && calls == old(calls) + [ConnectPeer(ParsePeerId(peerIdText).value)]
                && peer == (if connect.Resolved? then Some(connect.value) else old(peer))
      ensures peerIdText == old(peerIdText) && apiKey == old(apiKey) && runtime == old(runtime)
      ensures uiState == old(uiState) && stateLog == old(stateLog)
    {
      if ConnectPeerDisabled() {
        return;
      }
      var id := ParsePeerId(peerIdText);
      if id.None? {
        return;
      }
      calls := calls + [ConnectPeer(id.value)];
      if connect.Resolved? {
        peer := Some(connect.value);
      }
    }

    /** The Start stream button: requests a stream from the held peer. */
    method ClickStartStream()
      modifies this
      ensures calls == old(calls) + (if old(peer).Some? then [RequestStream(old(peer).value)] else [])
      ensures peerIdText == old(peerIdText) && apiKey == old(apiKey) && runtime == old(runtime)
      ensures peer == old(peer) && uiState == old(uiState) && stateLog == old(stateLog)
    {
      if StartStreamDisabled() {
        return;
      }
      calls := calls + [RequestStream(peer.value)];
    }

    /** The two inputs. */
    method EditApiKey(value: string)
      modifies this
      ensures apiKey == value
      ensures peerIdText == old(peerIdText) && runtime == old(runtime) && peer == old(peer)
      ensures calls == old(calls) && uiState == old(uiState) && stateLog == old(stateLog)
    {
      apiKey := value;
    }

    method EditPeerId(value: string)
      modifies this
      ensures peerIdText == value
      ensures apiKey == old(apiKey) && runtime == old(runtime) && peer == old(peer)
      ensures calls == old(calls) && uiState == old(uiState) && stateLog == old(stateLog)
    {
      peerIdText := value;
    }
  }

  /**
   * connectToRelay's reuse branch: after a first connect that initialised a
   * runtime, a second call issues no further initialisation. On the page
   * this branch is not reached through the Connect button, which is disabled
   * once a runtime exists (ClickConnect then changes nothing); the function
   * itself still guards against a second initialisation.
   */
  method ReconnectReusesRuntime(d: RelayDemo, rt: Runtime, g1: Settled, init2: Step<Runtime>, g2: Settled)
    requires d.runtime.None?
    modifies d
    ensures d.runtime == Some(rt)
    ensures d.calls == old(d.calls) + [InitializeRuntime(old(d.apiKey), RelayExternalId), ConnectGateway, ConnectGateway]
    ensures d.uiState == (if g2.Done? then SandboxState.ConnectedToRelay else SandboxState.ConnectingToRelay)
  {
    d.ConnectToRelay(Resolved(rt), g1);
    d.ConnectToRelay(init2, g2);
  }
}
