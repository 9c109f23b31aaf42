/**
 * The React demo's main component (src/react-demo/Demo.tsx): the API key and
 * runtime, the roster of peers, and the connect-to-peer prompt.
 *
 * React state is a field; a `setX` call is an assignment. Each handler is one
 * atomic step with its awaits as parameters. The `connecting` and
 * `connectingRuntime` flags are set before an await and reset in a `finally`,
 * so between steps they are always false; every value they take is recorded
 * in a ghost trace.
 */
module DemoPage {
  import opened Handles
  import opened Roster
  import ErrorText

  /** The externalId the demo's runtime is initialised with. */
  const DemoExternalId: string := "web-demo-react"

  /** The connection states of a peer the roster reacts to; any other state is ignored. */
  datatype PeerState = New | Failed | OtherState

  class Demo {
    var apiKey: string
    var connectingRuntime: bool
    var runtime: Option<Runtime>
    var peers: seq<DemoPeer>
    /** The text of the connect prompt. */
    var peerIdText: string
    var connecting: bool
    var connectError: string
    var calls: seq<SdkCall>
    /**
     * The roster the runtime's listeners closed over: `peers` as it was in the
     * render whose connectToRainway installed them.
     */
    var capturedPeers: seq<DemoPeer>
    ghost var connectingTrace: seq<bool>
    ghost var connectingRuntimeTrace: seq<bool>

    /**
     * No flag is left set between steps, and every handle in the roster
     * belongs to its entry's id. Ids need not be unique: the New handler as
     * written can add a second entry for an id (see DuplicateEntryReached).
     */
    ghost predicate Valid()
      reads this
    {
      !connecting && !connectingRuntime && HandlesMatchIds(peers)
    }

    /** The component's first render: stored values or empty strings, no runtime, no peers. */
    constructor (storedApiKey: Option<string>, storedPeerId: Option<string>)
      ensures Valid()
      ensures apiKey == (if storedApiKey.Some? then storedApiKey.value else "")
      ensures peerIdText == (if storedPeerId.Some? then storedPeerId.value else "")
      ensures runtime == None && peers == [] && connectError == "" && calls == [] && capturedPeers == []
      ensures connectingTrace == [] && connectingRuntimeTrace == []
    {
      capturedPeers := [];
      apiKey := if storedApiKey.Some? then storedApiKey.value else "";
      peerIdText := if storedPeerId.Some? then storedPeerId.value else "";
      connectingRuntime, connecting := false, false;
      runtime := None;
      peers := [];
      connectError := "";
      calls := [];
      connectingTrace, connectingRuntimeTrace := [], [];
    }

    /** The API key input and the Connect to Rainway button are disabled once there is, or will be, a runtime. */
    function RuntimeInputsDisabled(): (d: bool)
      reads this
      ensures !d <==> runtime.None? && !connectingRuntime
    {
      runtime.Some? || connectingRuntime
    }

    /** The peer id input and the Connect to peer button are disabled without a runtime or during an attempt. */
    function PeerInputsDisabled(): (d: bool)
      reads this
      ensures !d <==> runtime.Some? && !connecting
    {
      runtime.None? || connecting
    }

    /** Typing into the API key input; a disabled input takes no input. */
    method EditApiKey(value: string)
      modifies this
      ensures apiKey == (if old(RuntimeInputsDisabled()) then old(apiKey) else value)
      ensures runtime == old(runtime) && peers == old(peers) && peerIdText == old(peerIdText)
      ensures connecting == old(connecting) && connectingRuntime == old(connectingRuntime)
      ensures connectError == old(connectError) && calls == old(calls)
      ensures connectingTrace == old(connectingTrace) && connectingRuntimeTrace == old(connectingRuntimeTrace)
      ensures capturedPeers == old(capturedPeers)
    {
      if !RuntimeInputsDisabled() {
        apiKey := value;
      }
    }

    /** Typing into the peer id input; a disabled input takes no input. */
    method EditPeerId(value: string)
      modifies this
      ensures peerIdText == (if old(PeerInputsDisabled()) then old(peerIdText) else value)
      ensures runtime == old(runtime) && peers == old(peers) && apiKey == old(apiKey)
      ensures connecting == old(connecting) && connectingRuntime == old(connectingRuntime)
      ensures connectError == old(connectError) && calls == old(calls)
      ensures connectingTrace == old(connectingTrace) && connectingRuntimeTrace == old(connectingRuntimeTrace)
      ensures capturedPeers == old(capturedPeers)
    {
      if !PeerInputsDisabled() {
        peerIdText := value;
      }
    }

    /**
     * connectToRainway. With a runtime it does nothing. Otherwise it raises
     * `connectingRuntime`, initialises a runtime with the typed key, and lowers
     * the flag again either way. When initialisation succeeds it installs the
     * listeners, which close over the current roster, and keeps the runtime.
     */
    method ConnectToRainway(init: Step<Runtime>)
      requires Valid()
      modifies this
      ensures Valid()
      ensures old(runtime).Some? ==>
                runtime == old(runtime) && calls == old(calls) && connectingRuntimeTrace == old(connectingRuntimeTrace)
      ensures old(runtime).None? ==>
                && runtime == (if init.Resolved? then Some(init.value) else None)
                && calls == old(calls) + [InitializeRuntime(apiKey, DemoExternalId)]
                && connectingRuntimeTrace == old(connectingRuntimeTrace) + [true, false]
      ensures capturedPeers == (if old(runtime).None? && init.Resolved? then old(peers) else old(capturedPeers))
      ensures apiKey == old(apiKey) && peers == old(peers) && peerIdText == old(peerIdText)
      ensures connectError == old(connectError) && connectingTrace == old(connectingTrace)
    {
      if runtime.None? {
        connectingRuntime := true;
        connectingRuntimeTrace := connectingRuntimeTrace + [true];
        calls := calls + [InitializeRuntime(apiKey, DemoExternalId)];
        if init.Resolved? {
          capturedPeers := peers;
          runtime := Some(init.value);
        }
        connectingRuntime := false;
        connectingRuntimeTrace := connectingRuntimeTrace + [false];
      }
    }

    /**
     * The Connect to peer button. A disabled button does nothing. Otherwise
     * `connecting` is raised and lowered around the attempt. The attempt
     * converts the typed id, connects, opens the "Message" data channel and
     * lists the peer's streams. Only a complete success clears the error
     * text. Any failure shows the error text with everything through
     * "Rainway SDK Error: " removed. The peer reaches the roster through the
     * runtime's events, not through this handler.
     */
    method ConnectToPeer(connect: Step<Peer>, channel: Settled, list: Settled)
      requires Valid()
      modifies this
      ensures Valid()
      ensures old(PeerInputsDisabled()) ==>
                connectError == old(connectError) && calls == old(calls) && connectingTrace == old(connectingTrace)
      ensures !old(PeerInputsDisabled()) ==> connectingTrace == old(connectingTrace) + [true, false]
      ensures !old(PeerInputsDisabled()) && ParsePeerId(peerIdText).None? ==>
                && calls == old(calls)
                && connectError == ErrorText.StripThroughSdkError(ConversionError(peerIdText))
      ensures !old(PeerInputsDisabled()) && ParsePeerId(peerIdText).Some? ==>
                var id := ParsePeerId(peerIdText).value;
                match connect
                case Rejected(e) =>
                  calls == old(calls) + [ConnectPeer(id)] && connectError == ErrorText.StripThroughSdkError(e)
                case Resolved(p) =>
                  match channel
                  case Failed(e) =>
                    calls == old(calls) + [ConnectPeer(id), CreateDataChannel(p)]
                    && connectError == ErrorText.StripThroughSdkError(e)
                  case Done =>
                    && calls == old(calls) + [ConnectPeer(id), CreateDataChannel(p), ListStreams(p)]
                    && connectError == (if list.Failed? then ErrorText.StripThroughSdkError(list.reason) else "")
      ensures apiKey == old(apiKey) && runtime == old(runtime) && peers == old(peers) && peerIdText == old(peerIdText)
      ensures connectingRuntimeTrace == old(connectingRuntimeTrace) && capturedPeers == old(capturedPeers)
    {
      if PeerInputsDisabled() {
        return;
      }
      connecting := true;
      connectingTrace := connectingTrace + [true];
      var error := TryConnect(connect, channel, list);
      if error.Some? {
        connectError := ErrorText.StripThroughSdkError(error.value);
      }
      connecting := false;
      connectingTrace := connectingTrace + [false];
    }

    /** The `try` block of the Connect to peer handler: the text of the error it throws, if any. */
    method TryConnect(connect: Step<Peer>, channel: Settled, list: Settled) returns (error: Option<string>)
      requires runtime.Some?
      modifies this
      ensures ParsePeerId(peerIdText).None? ==>
                error == Some(ConversionError(peerIdText)) && calls == old(calls) && connectError == old(connectError)
      ensures ParsePeerId(peerIdText).Some? ==>
                var id := ParsePeerId(peerIdText).value;
                match connect
                case Rejected(e) => error == Some(e) && calls == old(calls) + [ConnectPeer(id)] && connectError == old(connectError)
                case Resolved(p) =>
                  match channel
                  case Failed(e) =>
                    error == Some(e) && calls == old(calls) + [ConnectPeer(id), CreateDataChannel(p)] && connectError == old(connectError)
                  case Done =>
                    && calls == old(calls) + [ConnectPeer(id), CreateDataChannel(p), ListStreams(p)]
                    && (list.Failed? ==> error == Some(list.reason) && connectError == old(connectError))
                    && (list.Done? ==> error == None && connectError == "")
      ensures apiKey == old(apiKey) && runtime == old(runtime) && peers == old(peers) && peerIdText == old(peerIdText)
      ensures connecting == old(connecting) && connectingRuntime == old(connectingRuntime)
      ensures connectingTrace == old(connectingTrace) && connectingRuntimeTrace == old(connectingRuntimeTrace)
      ensures capturedPeers == old(capturedPeers)
    {
      var id := ParsePeerId(peerIdText);
      if id.None? {
        return Some(ConversionError(peerIdText));
      }
      calls := calls + [ConnectPeer(id.value)];
      if connect.Rejected? {
        return Some(connect.error);
      }
      var p := connect.value;
      calls := calls + [CreateDataChannel(p)];
      if channel.Failed? {
        return Some(channel.reason);
      }
      calls := calls + [ListStreams(p)];
      if list.Failed? {
        return Some(list.reason);
      }
      connectError := "";
      return None;
    }

    /**
     * A peer's "connectionstatechanged" event. On New the peer gets an entry
     * unless the roster the listener closed over has one with its id; the
     * entry is appended to the latest roster. On Failed the entries with its
     * id lose their handle.
     */
    method OnPeerStateChanged(p: Peer, state: PeerState)
      requires Valid()
      modifies this
      ensures Valid()
      ensures peers == match state
                       case New => OnPeerNewAsWritten(capturedPeers, old(peers), p)
                       case Failed => MarkFailed(old(peers), p)
                       case OtherState => old(peers)
      ensures state != New && UniqueIds(old(peers)) ==> UniqueIds(peers)
      ensures apiKey == old(apiKey) && runtime == old(runtime) && peerIdText == old(peerIdText)
      ensures connectError == old(connectError) && calls == old(calls) && capturedPeers == old(capturedPeers)
      ensures connectingTrace == old(connectingTrace) && connectingRuntimeTrace == old(connectingRuntimeTrace)
    {
      match state
      case New =>
        peers := OnPeerNewAsWritten(capturedPeers, peers, p);
      case Failed =>
        MarkFailedKeepsRoster(peers, p);
        peers := MarkFailed(peers, p);
      case OtherState =>
    }

    /**
     * The New update as evidently intended: the check runs against the latest
     * roster (inside the `setPeers` updater), so an id never gets a second
     * entry.
     */
    method OnPeerNewIntended(p: Peer)
      requires Valid()
      modifies this
      ensures Valid()
      ensures peers == OnPeerNew(old(peers), p)
      ensures HasId(peers, p.peerId)
      ensures UniqueIds(old(peers)) ==> UniqueIds(peers)
      ensures apiKey == old(apiKey) && runtime == old(runtime) && peerIdText == old(peerIdText)
      ensures connectError == old(connectError) && calls == old(calls) && capturedPeers == old(capturedPeers)
      ensures connectingTrace == old(connectingTrace) && connectingRuntimeTrace == old(connectingRuntimeTrace)
    {
      OnPeerNewKeepsUnique(peers, p);
      peers := OnPeerNew(peers, p);
    }

    /** A message on a peer's data channel: an "incoming" chat line with the exact text. */
    method OnChannelMessage(p: Peer, text: string)
      requires Valid()
      modifies this
      ensures Valid()
      ensures peers == AddChat(old(peers), p, Chat(Incoming, text))
      ensures UniqueIds(old(peers)) ==> UniqueIds(peers)
      ensures apiKey == old(apiKey) && runtime == old(runtime) && peerIdText == old(peerIdText)
      ensures connectError == old(connectError) && calls == old(calls)
      ensures connectingTrace == old(connectingTrace) && connectingRuntimeTrace == old(connectingRuntimeTrace)
      ensures capturedPeers == old(capturedPeers)
    {
      AddChatKeepsRoster(peers, p, Chat(Incoming, text));
      peers := AddChat(peers, p, Chat(Incoming, text));
    }

    /** A peer's "stream" event: the announcement is recorded on the peer's entries. */
    method OnStreamAnnouncement(p: Peer, a: Announcement)
      requires Valid()
      modifies this
      ensures Valid()
      ensures peers == AddAnnouncement(old(peers), p, a)
      ensures UniqueIds(old(peers)) ==> UniqueIds(peers)
      ensures apiKey == old(apiKey) && runtime == old(runtime) && peerIdText == old(peerIdText)
      ensures connectError == old(connectError) && calls == old(calls)
      ensures connectingTrace == old(connectingTrace) && connectingRuntimeTrace == old(connectingRuntimeTrace)
      ensures capturedPeers == old(capturedPeers)
    {
      AddAnnouncementKeepsRoster(peers, p, a);
      peers := AddAnnouncement(peers, p, a);
    }

    /**
     * The `sendChat` a widget is given, for the entry it was rendered from:
     * without a handle nothing happens; with one, an "outgoing" line with the
     * exact text is added and the text is sent to the peer.
     */
    method WidgetSendChat(entry: DemoPeer, message: string)
      requires Valid()
      modifies this
      ensures Valid()
      ensures entry.peer.None? ==> peers == old(peers) && calls == old(calls)
      ensures entry.peer.Some? ==>
                && peers == AddChat(old(peers), entry.peer.value, Chat(Outgoing, message))
                && calls == old(calls) + [SendMessage(entry.peer.value, message)]
      ensures UniqueIds(old(peers)) ==> UniqueIds(peers)
      ensures apiKey == old(apiKey) && runtime == old(runtime) && peerIdText == old(peerIdText)
      ensures connectError == old(connectError)
      ensures connectingTrace == old(connectingTrace) && connectingRuntimeTrace == old(connectingRuntimeTrace)
      ensures capturedPeers == old(capturedPeers)
    {
      if entry.peer.Some? {
        var p := entry.peer.value;
        AddChatKeepsRoster(peers, p, Chat(Outgoing, message));
        peers := AddChat(peers, p, Chat(Outgoing, message));
        calls := calls + [SendMessage(p, message)];
      }
    }

    /** The `disconnect` a widget is given: disconnects the entry's peer, if any, and removes every entry with its id. */
    method WidgetDisconnect(entry: DemoPeer)
      requires Valid()
      modifies this
      ensures Valid()
      ensures peers == RemovePeer(old(peers), entry.peerId)
      ensures UniqueIds(old(peers)) ==> UniqueIds(peers)
      ensures !HasId(peers, entry.peerId)
      ensures calls == old(calls) + (if entry.peer.Some? then [DisconnectPeer(entry.peer.value)] else [])
      ensures apiKey == old(apiKey) && runtime == old(runtime) && peerIdText == old(peerIdText)
      ensures connectError == old(connectError)
      ensures connectingTrace == old(connectingTrace) && connectingRuntimeTrace == old(connectingRuntimeTrace)
      ensures capturedPeers == old(capturedPeers)
    {
      if entry.peer.Some? {
        calls := calls + [DisconnectPeer(entry.peer.value)];
      }
      RemovePeerKeepsUnique(peers, entry.peerId);
      RemovePeerKeepsHandles(peers, entry.peerId);
      peers := RemovePeer(peers, entry.peerId);
    }
  }

  /**
   * The page as written reaches a roster with two entries for one id: its
   * listeners close over the empty roster of the render that created the
   * runtime, so a second New event for a peer appends it again.
   */
  method DuplicateEntryReached(rt: Runtime, p: Peer) returns (d: Demo)
    ensures d.Valid() && d.runtime == Some(rt)
    ensures d.peers == [MakePeer(p), MakePeer(p)]
    ensures !UniqueIds(d.peers)
  {
    d := new Demo(None, None);
    d.ConnectToRainway(Resolved(rt));
    d.OnPeerStateChanged(p, New);
    assert d.peers == [MakePeer(p)];
    d.OnPeerStateChanged(p, New);
    assert d.peers[0].peerId == d.peers[1].peerId;
  }
}
