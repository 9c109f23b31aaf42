/**
 * The multi-widget sandbox page (src/sandbox.ts).
 *
 * A StreamSandbox owns the page's runtime and a row of StreamWidgets; each
 * widget connects to one host peer, shows its chat and may hold a stream.
 * The widget's state is a value of the ordered SandboxWidgetState enum, and
 * every change of it goes through SetUIState, which also enables and disables
 * the widget's input groups by threshold rules on that order.
 *
 * SDK callbacks find the affected widget with `widgets.find(...)`; here that
 * search, and the change each callback makes, are pure functions on snapshots
 * of the widgets (WidgetView), and the sandbox's methods are proved to move
 * the widgets from one snapshot to the next.
 */
module Sandbox {
  import opened Handles
  import opened Controls
  import ErrorText
  import Logging
  import Settings

  // ---------------------------------------------------------------------
  // Input groups of a widget

  /** The CSS classes that group a widget's controls. */
  datatype WidgetGroup = WhenNoHost | WhenHostOrConnecting | WhenHost | WhenReadyToStream | WhenStreaming

  /**
   * The threshold rule setUIState applies to each group. Disconnected enables
   * only the no-host group; while connecting, only host-or-connecting;
   * streaming enables every group but no-host and ready-to-stream.
   */
  function GroupEnabled(s: SandboxWidgetState, g: WidgetGroup): (r: bool)
    ensures s == SandboxWidgetState.Disconnected ==> (r <==> g == WhenNoHost)
    ensures s == SandboxWidgetState.ConnectingToHost ==> (r <==> g == WhenHostOrConnecting)
    ensures s == SandboxWidgetState.ConnectedToHostStreaming ==> (r <==> g != WhenNoHost && g != WhenReadyToStream)
  {
    match g
    case WhenNoHost => s == SandboxWidgetState.Disconnected
    case WhenHostOrConnecting => s.Rank() >= SandboxWidgetState.ConnectingToHost.Rank()
    case WhenHost => s.Rank() >= SandboxWidgetState.ConnectedToHostNoStream.Rank()
    case WhenReadyToStream => s == SandboxWidgetState.ConnectedToHostReadyToStream
    case WhenStreaming => s.Rank() >= SandboxWidgetState.ConnectedToHostStreaming.Rank()
  }

  /**
   * The groups partition and nest: exactly one of "no host" and "host or
   * connecting" is enabled; streaming implies host implies host-or-connecting;
   * ready-to-stream and streaming are never enabled together.
   */
  lemma {:induction false} GroupLayering(s: SandboxWidgetState)
    ensures GroupEnabled(s, WhenNoHost) != GroupEnabled(s, WhenHostOrConnecting)
    ensures GroupEnabled(s, WhenStreaming) ==> GroupEnabled(s, WhenHost)
    ensures GroupEnabled(s, WhenReadyToStream) ==> GroupEnabled(s, WhenHost)
    ensures GroupEnabled(s, WhenHost) ==> GroupEnabled(s, WhenHostOrConnecting)
    ensures !(GroupEnabled(s, WhenReadyToStream) && GroupEnabled(s, WhenStreaming))
  {
  }

  /**
   * The group whose rule decides a control's flag: setUIState applies the
   * five rules in a fixed order, so for a control in several groups the last
   * of them wins.
   */
  function Governing(c: set<WidgetGroup>): (g: WidgetGroup)
    requires c != {}
    ensures g in c
  {
    if WhenStreaming in c then WhenStreaming
    else if WhenReadyToStream in c then WhenReadyToStream
    else if WhenHost in c then WhenHost
    else if WhenHostOrConnecting in c then WhenHostOrConnecting
    else
      assert WhenNoHost in c by {
        var x :| x in c;
        assert x.WhenNoHost?;
      }
      WhenNoHost
  }

  /** Every grouped control is disabled exactly when its governing group's rule says so. */
  ghost predicate ControlsAgree(disabled: seq<bool>, classes: seq<set<WidgetGroup>>, s: SandboxWidgetState)
  {
    |disabled| == |classes| &&
    forall i :: 0 <= i < |classes| && classes[i] != {} ==> disabled[i] == !GroupEnabled(s, Governing(classes[i]))
  }

  /** The status text shown for each widget state: never empty. */
  function Description(s: SandboxWidgetState): (r: string)
    ensures r != ""
  {
    match s
    case Disconnected => "Disconnected"
    case ConnectingToHost => "Connecting to host..."
    case ConnectedToHostNoStream => "Connected (preparing stream...)"
    case ConnectedToHostReadyToStream => "Connected (ready to stream)"
    case ConnectedToHostStreaming => "Streaming"
  }

  /** Distinct states show distinct status texts, so the text tells the state. */
  lemma {:induction false} DescriptionDistinct(s: SandboxWidgetState, t: SandboxWidgetState)
    ensures Description(s) == Description(t) ==> s == t
  {
  }

  // ---------------------------------------------------------------------
  // Widget snapshots and the pure effect of each SDK callback

  /** A line of a widget's chat box: "speaker: text", or an info line. */
  datatype ChatLine = Spoken(speaker: string, text: string) | InfoLine(text: string)

  /** Everything about a widget that its methods change, as a value. */
  datatype WidgetView = WidgetView(
    peer: Option<Peer>,
    stream: Option<Stream>,
    state: SandboxWidgetState,
    peerIdText: string,
    chatHistory: seq<ChatLine>,
    chatInput: string,
    statusText: string,
    calls: seq<SdkCall>)

  /** hostNickname: `peerId.value.substring(29)`, which is empty for a text of at most 29 characters. */
  function Nickname(peerIdText: string): (r: string)
    ensures |peerIdText| <= 29 ==> r == ""
    ensures |peerIdText| > 29 ==> peerIdText == peerIdText[..29] + r
  {
    if |peerIdText| <= 29 then "" else peerIdText[29..]
  }

  function ConnectedInfo(nickname: string): string
  {
    "Connected to " + nickname + ". Say hi!"
  }

  const ReadyInfo: string := "Ready to stream."

  /** The snapshot of a freshly constructed widget. */
  function InitialView(peerIdText: string): WidgetView
  {
    WidgetView(None, None, SandboxWidgetState.Disconnected, peerIdText, [], "",
               Description(SandboxWidgetState.Disconnected), [])
  }

  /** `widgets.find(m)`: the index of the first widget that satisfies m. */
  function FirstMatch(vs: seq<WidgetView>, m: WidgetView -> bool): (r: Option<nat>)
    ensures r.Some? ==> IsFirstMatch(vs, m, r.value)
    ensures r.None? ==> forall j :: 0 <= j < |vs| ==> !m(vs[j])
  {
    if vs == [] then None
    else if m(vs[0]) then Some(0)
    else
      match FirstMatch(vs[1..], m)
      case None => None
      case Some(k) => Some(k + 1)
  }

  ghost predicate IsFirstMatch(vs: seq<WidgetView>, m: WidgetView -> bool, i: int)
  {
    0 <= i < |vs| && m(vs[i]) && forall j :: 0 <= j < i ==> !m(vs[j])
  }

  /** There is only one first match. */
  lemma {:induction false} FirstMatchUnique(vs: seq<WidgetView>, m: WidgetView -> bool, i: int, j: int)
    requires IsFirstMatch(vs, m, i) && IsFirstMatch(vs, m, j)
    ensures i == j
  {
  }

  /** The match used by onPeerDisconnect and onPeerMessage: `w.peer === peer`. */
  function HasPeer(p: Peer): WidgetView -> bool
  {
    (v: WidgetView) => v.peer == Some(p)
  }

  /**
   * The match used by onStreamStop: `w.peer?.stream === stream`, where the
   * peer's current stream is the SDK's, given here as a map.
   */
  function PlaysStream(s: Stream, peerStream: map<Peer, Stream>): WidgetView -> bool
  {
    (v: WidgetView) => v.peer.Some? && v.peer.value in peerStream && peerStream[v.peer.value] == s
  }

  /** setUIState as seen in a snapshot. */
  function WithState(v: WidgetView, s: SandboxWidgetState): WidgetView
  {
    v.(state := s, statusText := Description(s))
  }

  /** What onPeerDisconnect does to the widget it found. */
  function DropPeer(v: WidgetView): WidgetView
  {
    var u := v.(peer := None);
    if v.state.Rank() > SandboxWidgetState.Disconnected.Rank() then WithState(u, SandboxWidgetState.Disconnected) else u
  }

  /** What onStreamStop does to the widget it found. */
  function StopStreaming(v: WidgetView): WidgetView
  {
    if v.state.Rank() > SandboxWidgetState.ConnectedToHostReadyToStream.Rank()
    then WithState(v, SandboxWidgetState.ConnectedToHostReadyToStream)
    else v
  }

  /** What onPeerMessage does to the widget it found. */
  function ReceiveChat(v: WidgetView, text: string): WidgetView
  {
    v.(chatHistory := v.chatHistory + [Spoken(Nickname(v.peerIdText), text)])
  }

  /**
   * onPeerDisconnect: the first widget holding the peer loses it and ends
   * Disconnected. Its status text becomes Disconnected's only when it was
   * above Disconnected (setUIState runs only then); everything else about it
   * is kept. Every other widget is unchanged, and nothing changes when no
   * widget holds the peer.
   */
  function PeerDisconnected(vs: seq<WidgetView>, p: Peer): (r: seq<WidgetView>)
    ensures |r| == |vs|
    ensures (forall j :: 0 <= j < |vs| ==> vs[j].peer != Some(p)) ==> r == vs
    ensures forall i :: IsFirstMatch(vs, HasPeer(p), i) ==>
              && r[i] == vs[i].(peer := None, state := SandboxWidgetState.Disconnected,
                                statusText := if vs[i].state != SandboxWidgetState.Disconnected
                                              then Description(SandboxWidgetState.Disconnected)
                                              else vs[i].statusText)
              && forall j :: 0 <= j < |vs| && j != i ==> r[j] == vs[j]
  {
    match FirstMatch(vs, HasPeer(p))
    case None => vs
    case Some(i) => vs[i := DropPeer(vs[i])]
  }

  /**
   * onStreamStop: the first widget whose peer plays the stream drops to
   * ReadyToStream, with that state's status text, if it was above it; nothing
   * else about it changes. No widget's state ever rises, a widget
   * at or below ReadyToStream is untouched, and peers and streams stay.
   */
  function StreamStopped(vs: seq<WidgetView>, s: Stream, peerStream: map<Peer, Stream>): (r: seq<WidgetView>)
    ensures |r| == |vs|
    ensures forall j :: 0 <= j < |vs| ==> r[j].state.Rank() <= vs[j].state.Rank()
    ensures forall j :: 0 <= j < |vs| ==> r[j].peer == vs[j].peer && r[j].stream == vs[j].stream
    ensures forall j :: 0 <= j < |vs| && vs[j].state.Rank() <= SandboxWidgetState.ConnectedToHostReadyToStream.Rank() ==> r[j] == vs[j]
    ensures (forall j :: 0 <= j < |vs| ==> !PlaysStream(s, peerStream)(vs[j])) ==> r == vs
    ensures forall i :: IsFirstMatch(vs, PlaysStream(s, peerStream), i) ==>
              && (vs[i].state == SandboxWidgetState.ConnectedToHostStreaming ==>
                    r[i] == vs[i].(state := SandboxWidgetState.ConnectedToHostReadyToStream,
                                   statusText := Description(SandboxWidgetState.ConnectedToHostReadyToStream)))
              && forall j :: 0 <= j < |vs| && j != i ==> r[j] == vs[j]
  {
    match FirstMatch(vs, PlaysStream(s, peerStream))
    case None => vs
    case Some(i) => vs[i := StopStreaming(vs[i])]
  }

  /**
   * onPeerMessage: the first widget holding the peer gets one more chat line,
   * spoken by its host nickname; nothing else changes, and a message no
   * widget holds the peer for is dropped.
   */
  function MessageReceived(vs: seq<WidgetView>, p: Peer, text: string): (r: seq<WidgetView>)
    ensures |r| == |vs|
    ensures (forall j :: 0 <= j < |vs| ==> vs[j].peer != Some(p)) ==> r == vs
    ensures forall i :: IsFirstMatch(vs, HasPeer(p), i) ==>
              && r[i] == vs[i].(chatHistory := vs[i].chatHistory + [Spoken(Nickname(vs[i].peerIdText), text)])
              && forall j :: 0 <= j < |vs| && j != i ==> r[j] == vs[j]
  {
    match FirstMatch(vs, HasPeer(p))
    case None => vs
    case Some(i) => vs[i := ReceiveChat(vs[i], text)]
  }

  /** Stopping a stream twice in a row changes nothing the second time. */
  lemma {:induction false} StreamStoppedIdempotent(vs: seq<WidgetView>, s: Stream, peerStream: map<Peer, Stream>)
    ensures StreamStopped(StreamStopped(vs, s, peerStream), s, peerStream) == StreamStopped(vs, s, peerStream)
  {
    var r := StreamStopped(vs, s, peerStream);
    var m := PlaysStream(s, peerStream);
    match FirstMatch(vs, m)
    case None =>
    case Some(i) =>
      assert forall j :: 0 <= j < |vs| ==> m(r[j]) == m(vs[j]);
      assert IsFirstMatch(r, m, i);
      FirstMatchUnique(r, m, i, FirstMatch(r, m).value);
      assert r[i].state.Rank() <= SandboxWidgetState.ConnectedToHostReadyToStream.Rank();
  }

  /**
   * Neither callback clears the widget's stream handle: a streaming widget
   * whose peer disconnects ends Disconnected still holding its stream.
   */
  lemma {:induction false} PeerDisconnectedKeepsStream(v: WidgetView, p: Peer, h: Stream)
    requires v.state == SandboxWidgetState.ConnectedToHostStreaming && v.peer == Some(p) && v.stream == Some(h)
    ensures PeerDisconnected([v], p)[0].state == SandboxWidgetState.Disconnected
    ensures PeerDisconnected([v], p)[0].stream == Some(h)
  {
    assert IsFirstMatch([v], HasPeer(p), 0);
  }

  /** A streaming widget whose stream stops ends ReadyToStream still holding its stream. */
  lemma {:induction false} StreamStoppedKeepsStream(v: WidgetView, s: Stream, peerStream: map<Peer, Stream>, h: Stream)
    requires v.state == SandboxWidgetState.ConnectedToHostStreaming && v.stream == Some(h)
    requires v.peer.Some? && v.peer.value in peerStream && peerStream[v.peer.value] == s
    ensures StreamStopped([v], s, peerStream)[0].state == SandboxWidgetState.ConnectedToHostReadyToStream
    ensures StreamStopped([v], s, peerStream)[0].stream == Some(h)
  {
    assert IsFirstMatch([v], PlaysStream(s, peerStream), 0);
  }

  // ---------------------------------------------------------------------
  // StreamWidget

  /** One widget of the sandbox page, bound to its own controls. */
  class StreamWidget {
    const runtime: Runtime
    /** The widget's number: its controls live under CSS class `widget<index>`. */
    const index: nat
    /** The group classes of each of the widget's controls, cloned from the page template. */
    const classes: seq<set<WidgetGroup>>
    /** The `disabled` flag of each control. */
    const disabled: array<bool>

    var peer: Option<Peer>
    var stream: Option<Stream>
    var state: SandboxWidgetState
    var peerIdText: string
    var chatHistory: seq<ChatLine>
    var chatInput: string
    var statusText: string
    var calls: seq<SdkCall>
    /** Every state setUIState has set, in order. */
    ghost var stateLog: seq<SandboxWidgetState>

    ghost predicate Valid()
      reads this, disabled
    {
      disabled.Length == |classes| && ControlsAgree(disabled[..], classes, state)
    }

    function View(): WidgetView
      reads this
    {
      WidgetView(peer, stream, state, peerIdText, chatHistory, chatInput, statusText, calls)
    }

    /** hostNickname */
    function HostNickname(): string
      reads this
    {
      Nickname(peerIdText)
    }

    /** Binds the widget and sets it Disconnected; its peer id comes from the `??` chain. */
    constructor (runtime: Runtime, index: nat, classes: seq<set<WidgetGroup>>,
                 configPeerId: Option<string>, storedPeerId: Option<string>)
      ensures Valid() && fresh(disabled)
      ensures this.runtime == runtime && this.index == index && this.classes == classes
      ensures View() == InitialView(Settings.InitialPeerId(configPeerId, storedPeerId))
      ensures stateLog == [SandboxWidgetState.Disconnected]
    {
      this.runtime := runtime;
      this.index := index;
      this.classes := classes;
      disabled := new bool[|classes|];
      peer, stream := None, None;
      state := SandboxWidgetState.Disconnected;
      peerIdText := Settings.InitialPeerId(configPeerId, storedPeerId);
      chatHistory, chatInput, statusText, calls := [], "", "", [];
      stateLog := [];
      new;
      SetUIState(SandboxWidgetState.Disconnected);
    }

    /** setUIState: shows the state's description, applies the five group rules, records the state. */
    method SetUIState(newState: SandboxWidgetState)
      requires disabled.Length == |classes|
      modifies this, disabled
      ensures Valid()
      ensures View() == WithState(old(View()), newState)
      ensures stateLog == old(stateLog) + [newState]
      ensures forall i :: 0 <= i < |classes| && classes[i] == {} ==> disabled[i] == old(disabled[i])
    {
      statusText := Description(newState);
      EnableInputs(disabled, classes, WhenNoHost, GroupEnabled(newState, WhenNoHost));
      EnableInputs(disabled, classes, WhenHostOrConnecting, GroupEnabled(newState, WhenHostOrConnecting));
      EnableInputs(disabled, classes, WhenHost, GroupEnabled(newState, WhenHost));
      EnableInputs(disabled, classes, WhenReadyToStream, GroupEnabled(newState, WhenReadyToStream));
      EnableInputs(disabled, classes, WhenStreaming, GroupEnabled(newState, WhenStreaming));
      state := newState;
      stateLog := stateLog + [newState];
    }

    /** displayChatMessage */
    method DisplayChatMessage(speaker: string, message: string)
      modifies this
      ensures View() == old(View()).(chatHistory := old(chatHistory) + [Spoken(speaker, message)])
      ensures stateLog == old(stateLog)
    {
      chatHistory := chatHistory + [Spoken(speaker, message)];
    }

    /** displayChatInfo */
    method DisplayChatInfo(message: string)
      modifies this
      ensures View() == old(View()).(chatHistory := old(chatHistory) + [InfoLine(message)])
      ensures stateLog == old(stateLog)
    {
      chatHistory := chatHistory + [InfoLine(message)];
    }

    /** showError: the status line shows the error text without its leading "...Error: " run. */
    method ShowError(e: string)
      modifies this
      ensures View() == old(View()).(statusText := ErrorText.StripErrorPrefix(e))
      ensures stateLog == old(stateLog)
    {
      statusText := ErrorText.StripErrorPrefix(e);
    }

    /**
     * sendChatMessage: without a peer nothing happens; with one, the message
     * is sent to it, one "You" line is added and the input is cleared.
     */
    method SendChatMessage(message: string)
      modifies this
      ensures old(peer).None? ==> View() == old(View())
      ensures old(peer).Some? ==>
                View() == old(View()).(chatHistory := old(chatHistory) + [Spoken("You", message)],
                                       chatInput := "",
                                       calls := old(calls) + [SendMessage(old(peer).value, message)])
      ensures stateLog == old(stateLog)
    {
      if peer.Some? {
        calls := calls + [SendMessage(peer.value, message)];
        DisplayChatMessage("You", message);
        chatInput := "";
      }
    }

    /** Typing into the chat input. */
    method EditChatInput(text: string)
      modifies this
      ensures View() == old(View()).(chatInput := text)
      ensures stateLog == old(stateLog)
    {
      chatInput := text;
    }

    /**
     * The Send button's click handler, which Enter in the chat input also
     * triggers: the text the input holds goes to sendChatMessage, so with a
     * peer it is sent and shown and the input is cleared; without one nothing
     * changes.
     */
    method ClickSend()
      modifies this
      ensures old(peer).None? ==> View() == old(View())
      ensures old(peer).Some? ==>
                View() == old(View()).(chatHistory := old(chatHistory) + [Spoken("You", old(chatInput))],
                                       chatInput := "",
                                       calls := old(calls) + [SendMessage(old(peer).value, old(chatInput))])
      ensures stateLog == old(stateLog)
    {
      SendChatMessage(chatInput);
    }

    /**
     * connectToHost. Each await is a parameter. A failed gateway connect
     * propagates before anything is shown. A failed conversion of the typed
     * id or a failed connect ends Disconnected with the error shown, never
     * reaching NoStream. A successful connect passes ConnectingToHost, NoStream
     * and, once the peer is ready, ReadyToStream, in that order.
     */
    method ConnectToHost(gateway: Settled, connect: Step<Peer>, ready: Settled)
      requires Valid()
      modifies this, disabled
      ensures Valid()
      ensures gateway.Failed? ==>
                View() == old(View()).(calls := old(calls) + [ConnectGateway]) && stateLog == old(stateLog)
      ensures gateway.Done? && ParsePeerId(old(peerIdText)).None? ==>
                && View() == old(View()).(state := SandboxWidgetState.Disconnected,
                                          statusText := ErrorText.StripErrorPrefix(ConversionError(old(peerIdText))),
                                          calls := old(calls) + [ConnectGateway])
                && stateLog == old(stateLog) + [SandboxWidgetState.ConnectingToHost, SandboxWidgetState.Disconnected]
      ensures gateway.Done? && ParsePeerId(old(peerIdText)).Some? && connect.Rejected? ==>
                && View() == old(View()).(state := SandboxWidgetState.Disconnected,
                                          statusText := ErrorText.StripErrorPrefix(connect.error),
                                          calls := old(calls) + [ConnectGateway, ConnectPeer(ParsePeerId(old(peerIdText)).value)])
                && stateLog == old(stateLog) + [SandboxWidgetState.ConnectingToHost, SandboxWidgetState.Disconnected]
      ensures gateway.Done? && ParsePeerId(old(peerIdText)).Some? && connect.Resolved? ==>
                && peer == Some(connect.value)
                && stream == old(stream) && peerIdText == old(peerIdText) && chatInput == old(chatInput)
                && calls == old(calls) + [ConnectGateway, ConnectPeer(ParsePeerId(old(peerIdText)).value)]
                && chatHistory == old(chatHistory) + [InfoLine(ConnectedInfo(Nickname(old(peerIdText))))]
                                   + (if ready.Done? then [InfoLine(ReadyInfo)] else [])
                && state == (if ready.Done? then SandboxWidgetState.ConnectedToHostReadyToStream
                             else SandboxWidgetState.ConnectedToHostNoStream)
                && statusText == Description(state)
                && stateLog == old(stateLog) + [SandboxWidgetState.ConnectingToHost, SandboxWidgetState.ConnectedToHostNoStream]
                               + (if ready.Done? then [SandboxWidgetState.ConnectedToHostReadyToStream] else [])
    {
      calls := calls + [ConnectGateway];
      if gateway.Failed? {
        return;
      }
      SetUIState(SandboxWidgetState.ConnectingToHost);
      var id := ParsePeerId(peerIdText);
      if id.None? {
        ConnectFailed(ConversionError(peerIdText));
        return;
      }
      ConnectPeerId(id.value, connect, ready);
    }

    /** connectToHost from the connectPeer call on, for a converted id. */
    method ConnectPeerId(id: int, connect: Step<Peer>, ready: Settled)
      requires disabled.Length == |classes|
      modifies this, disabled
      ensures Valid()
      ensures connect.Rejected? ==>
                && View() == old(View()).(state := SandboxWidgetState.Disconnected,
                                          statusText := ErrorText.StripErrorPrefix(connect.error),
                                          calls := old(calls) + [ConnectPeer(id)])
                && stateLog == old(stateLog) + [SandboxWidgetState.Disconnected]
      ensures connect.Resolved? ==>
                && peer == Some(connect.value)
                && stream == old(stream) && peerIdText == old(peerIdText) && chatInput == old(chatInput)
                && calls == old(calls) + [ConnectPeer(id)]
                && chatHistory == old(chatHistory) + [InfoLine(ConnectedInfo(Nickname(old(peerIdText))))]
                                   + (if ready.Done? then [InfoLine(ReadyInfo)] else [])
                && state == (if ready.Done? then SandboxWidgetState.ConnectedToHostReadyToStream
                             else SandboxWidgetState.ConnectedToHostNoStream)
                && statusText == Description(state)
                && stateLog == old(stateLog) + [SandboxWidgetState.ConnectedToHostNoStream]
                               + (if ready.Done? then [SandboxWidgetState.ConnectedToHostReadyToStream] else [])
    {
      calls := calls + [ConnectPeer(id)];
      if connect.Rejected? {
        ConnectFailed(connect.error);
        return;
      }
      peer := Some(connect.value);
      HostConnected(ready);
    }

    /** The `catch` of connectToHost: back to Disconnected, with the error shown. */
    method ConnectFailed(e: string)
      requires disabled.Length == |classes|
      modifies this, disabled
      ensures Valid()
      ensures View() == old(View()).(state := SandboxWidgetState.Disconnected, statusText := ErrorText.StripErrorPrefix(e))
      ensures stateLog == old(stateLog) + [SandboxWidgetState.Disconnected]
    {
      SetUIState(SandboxWidgetState.Disconnected);
      ShowError(e);
    }

    /** The tail of connectToHost once the peer is connected: NoStream, then ReadyToStream when the peer is ready. */
    method HostConnected(ready: Settled)
      requires disabled.Length == |classes|
      modifies this, disabled
      ensures Valid()
      ensures peer == old(peer) && stream == old(stream) && peerIdText == old(peerIdText)
      ensures chatInput == old(chatInput) && calls == old(calls)
      ensures chatHistory == old(chatHistory) + [InfoLine(ConnectedInfo(Nickname(old(peerIdText))))]
                             + (if ready.Done? then [InfoLine(ReadyInfo)] else [])
      ensures state == (if ready.Done? then SandboxWidgetState.ConnectedToHostReadyToStream
                        else SandboxWidgetState.ConnectedToHostNoStream)
      ensures statusText == Description(state)
      ensures stateLog == old(stateLog) + [SandboxWidgetState.ConnectedToHostNoStream]
                          + (if ready.Done? then [SandboxWidgetState.ConnectedToHostReadyToStream] else [])
    {
      SetUIState(SandboxWidgetState.ConnectedToHostNoStream);
      DisplayChatInfo(ConnectedInfo(HostNickname()));
      if ready.Failed? {
        return;
      }
      SetUIState(SandboxWidgetState.ConnectedToHostReadyToStream);
      DisplayChatInfo(ReadyInfo);
    }

    /**
     * disconnectFromHost: always ends Disconnected. Without a peer it cancels
     * the attempt for the typed id (an id that does not convert throws before
     * the cancel); with one it disconnects that peer, which the widget keeps
     * until the SDK reports the disconnect.
     */
    method DisconnectFromHost()
      requires Valid()
      modifies this, disabled
      ensures Valid()
      ensures View() == WithState(old(View()), SandboxWidgetState.Disconnected).(calls := calls)
      ensures calls == old(calls) + (
                match old(peer)
                case Some(p) => [DisconnectPeer(p)]
                case None =>
                  match ParsePeerId(old(peerIdText))
                  case Some(id) => [CancelAttempt(id)]
                  case None => [])
      ensures stateLog == old(stateLog) + [SandboxWidgetState.Disconnected]
    {
      SetUIState(SandboxWidgetState.Disconnected);
      if peer.None? {
        var id := ParsePeerId(peerIdText);
        if id.None? {
          return;
        }
        calls := calls + [CancelAttempt(id.value)];
        return;
      }
      calls := calls + [DisconnectPeer(peer.value)];
    }

    /**
     * The start-stream button: without a peer it throws; otherwise it requests
     * a stream, and once one arrives the widget holds it and is Streaming.
     */
    method StartStream(request: Step<Stream>)
      requires Valid()
      modifies this, disabled
      ensures Valid()
      ensures old(peer).None? ==> View() == old(View()) && stateLog == old(stateLog)
      ensures old(peer).Some? && request.Rejected? ==>
                View() == old(View()).(calls := old(calls) + [RequestStream(old(peer).value)]) && stateLog == old(stateLog)
      ensures old(peer).Some? && request.Resolved? ==>
                && View() == WithState(old(View()), SandboxWidgetState.ConnectedToHostStreaming)
                              .(stream := Some(request.value), calls := old(calls) + [RequestStream(old(peer).value)])
                && stateLog == old(stateLog) + [SandboxWidgetState.ConnectedToHostStreaming]
    {
      if peer.None? {
        return;
      }
      calls := calls + [RequestStream(peer.value)];
      if request.Rejected? {
        return;
      }
      stream := Some(request.value);
      SetUIState(SandboxWidgetState.ConnectedToHostStreaming);
    }

    /**
     * The stop-stream button: leaves the held stream, if any. Nothing ever
     * clears the handle, so a widget that has streamed once calls leave on
     * that stream again at every later click.
     */
    method StopStream()
      modifies this
      ensures View() == old(View()).(calls := old(calls) + (if old(stream).Some? then [LeaveStream(old(stream).value)] else []))
      ensures stateLog == old(stateLog)
    {
      if stream.Some? {
        calls := calls + [LeaveStream(stream.value)];
      }
    }
  }

  // ---------------------------------------------------------------------
  // StreamSandbox

  /** The CSS classes that group the page's relay controls. */
  datatype RelayGroup = WhenNoRelay | WhenRelay

  /**
   * The threshold rule the sandbox's setUIState applies to each relay group:
   * the two groups are never enabled together, and while connecting neither
   * is.
   */
  function RelayGroupEnabled(s: SandboxState, g: RelayGroup): (r: bool)
    ensures s == SandboxState.Disconnected ==> (r <==> g == WhenNoRelay)
    ensures s == SandboxState.ConnectingToRelay ==> !r
    ensures s == SandboxState.ConnectedToRelay ==> (r <==> g == WhenRelay)
  {
    match g
    case WhenNoRelay => s == SandboxState.Disconnected
    case WhenRelay => s.Rank() >= SandboxState.ConnectedToRelay.Rank()
  }

  /** "no relay" is applied first and "relay" last, so a control in both follows "relay". */
  function RelayGoverning(c: set<RelayGroup>): (g: RelayGroup)
    requires c != {}
    ensures g in c
  {
    if WhenRelay in c then WhenRelay
    else
      assert WhenNoRelay in c by {
        var x :| x in c;
        assert x.WhenNoRelay?;
      }
      WhenNoRelay
  }

  ghost predicate RelayControlsAgree(disabled: seq<bool>, classes: seq<set<RelayGroup>>, s: SandboxState)
  {
    |disabled| == |classes| &&
    forall i :: 0 <= i < |classes| && classes[i] != {} ==> disabled[i] == !RelayGroupEnabled(s, RelayGoverning(classes[i]))
  }

  /** The externalId the sandbox's runtime is initialised with. */
  const SandboxExternalId: string := "web-sdk-demo-sandbox"

  /** The stored peer id of widget i (the `peer-id-widget<i>` entry of local storage). */
  function StoredPeerId(storedPeerIds: map<nat, string>, i: nat): Option<string>
  {
    if i in storedPeerIds then Some(storedPeerIds[i]) else None
  }

  /** The sandbox page: one runtime, created on demand, and its widgets, created once. */
  class StreamSandbox {
    const numWidgets: nat
    const minimumLogLevel: int
    /** The group classes of the controls of the page's widget template. */
    const template: seq<set<WidgetGroup>>
    const relayClasses: seq<set<RelayGroup>>
    const relayDisabled: array<bool>

    var runtime: Option<Runtime>
    var state: SandboxState
    var apiKey: string
    var widgets: seq<StreamWidget>
    var calls: seq<SdkCall>
    /** Whether setUIState has run at least once; before that the relay controls keep the page's flags. */
    ghost var uiApplied: bool
    ghost var stateLog: seq<SandboxState>
    ghost var Repr: set<object>

    ghost predicate WidgetOk(i: int)
      reads this, Repr
      requires 0 <= i < |widgets|
    {
      var w := widgets[i];
      && w in Repr && w.disabled in Repr && w.disabled != relayDisabled
      && w.Valid() && w.index == i + 1 && w.classes == template
      && runtime.Some? && w.runtime == runtime.value
    }

    ghost predicate Valid()
      reads this, Repr
    {
      && this in Repr && relayDisabled in Repr
      && relayDisabled.Length == |relayClasses|
      && (uiApplied ==> RelayControlsAgree(relayDisabled[..], relayClasses, state))
      && (|widgets| == 0 || |widgets| == numWidgets)
      && (runtime.None? ==> widgets == [])
      && (forall i :: 0 <= i < |widgets| ==> WidgetOk(i))
      && (forall i, j :: 0 <= i < j < |widgets| ==>
            widgets[i] != widgets[j] && widgets[i].disabled != widgets[j].disabled)
    }

    /** Snapshots of the widgets, in order. */
    function Views(): (vs: seq<WidgetView>)
      reads this, widgets
      ensures |vs| == |widgets|
      ensures forall i :: 0 <= i < |widgets| ==> vs[i] == widgets[i].View()
    {
      seq(|widgets|, i reads this, widgets requires 0 <= i < |widgets| => widgets[i].View())
    }

    /**
     * The sandbox starts without a runtime or widgets, Disconnected, with the
     * API key from the `||` chain and the minimum log level from the `??` chain.
     */
    constructor (numWidgets: nat, template: seq<set<WidgetGroup>>, relayClasses: seq<set<RelayGroup>>,
                 storedApiKey: Option<string>, configApiKey: Option<string>, configLogLevel: Option<int>)
      ensures Valid() && fresh(Repr)
      ensures this.numWidgets == numWidgets && this.template == template && this.relayClasses == relayClasses
      ensures minimumLogLevel == Logging.InitialMinimumLogLevel(configLogLevel)
      ensures apiKey == Settings.InitialApiKey(storedApiKey, configApiKey)
      ensures runtime == None && state == SandboxState.Disconnected && widgets == [] && calls == []
      ensures stateLog == [] && !uiApplied
    {
      this.numWidgets := numWidgets;
      this.template := template;
      this.relayClasses := relayClasses;
      relayDisabled := new bool[|relayClasses|];
      minimumLogLevel := Logging.InitialMinimumLogLevel(configLogLevel);
      apiKey := Settings.InitialApiKey(storedApiKey, configApiKey);
      runtime := None;
      state := SandboxState.Disconnected;
      widgets, calls := [], [];
      uiApplied, stateLog := false, [];
      new;
      Repr := {this, relayDisabled};
    }

    /** handleLog: a message reaches the console only at or above the minimum level. */
    function HandleLog(level: int, message: string): (r: Option<Logging.ConsoleLine>)
      ensures r.Some? <==> level >= minimumLogLevel
      ensures r.Some? ==> r.value == Logging.ConsoleLine(Logging.ConsoleSink(level), message)
    {
      Logging.HandleLog(minimumLogLevel, level, message)
    }

    /** The `.api-key` input changed. */
    method SetApiKey(value: string)
      requires Valid()
      modifies this
      ensures Valid() && Repr == old(Repr)
      ensures apiKey == value
      ensures runtime == old(runtime) && state == old(state) && widgets == old(widgets) && calls == old(calls)
      ensures stateLog == old(stateLog) && uiApplied == old(uiApplied)
    {
      apiKey := value;
      forall i | 0 <= i < |widgets| ensures WidgetOk(i) {
        assert old(WidgetOk(i));
      }
    }

    /** setUIState: applies the two relay group rules and records the state. */
    method SetUIState(newState: SandboxState)
      requires Valid()
      modifies this, relayDisabled
      ensures Valid() && Repr == old(Repr)
      ensures state == newState && uiApplied
      ensures stateLog == old(stateLog) + [newState]
      ensures runtime == old(runtime) && apiKey == old(apiKey) && widgets == old(widgets) && calls == old(calls)
      ensures Views() == old(Views())
    {
      EnableInputs(relayDisabled, relayClasses, WhenNoRelay, RelayGroupEnabled(newState, WhenNoRelay));
      EnableInputs(relayDisabled, relayClasses, WhenRelay, RelayGroupEnabled(newState, WhenRelay));
      state := newState;
      uiApplied := true;
      stateLog := stateLog + [newState];
      forall j | 0 <= j < |widgets| ensures WidgetOk(j) {
        assert old(WidgetOk(j));
      }
    }

    /**
     * connectToRelay. It shows ConnectingToRelay, initialises a runtime only
     * when there is none (a failed initialisation propagates), connects it to
     * the gateway (a failure propagates) and shows ConnectedToRelay. Only then,
     * and only when the sandbox has no widgets yet, does it create its
     * numWidgets widgets, numbered from 1, all bound to the runtime.
     */
    method ConnectToRelay(init: Step<Runtime>, gateway: Settled,
                          configPeerId: Option<string>, storedPeerIds: map<nat, string>)
      requires Valid()
      modifies Repr
      ensures Valid() && old(Repr) <= Repr && fresh(Repr - old(Repr))
      ensures apiKey == old(apiKey)
      ensures old(runtime).Some? ==> runtime == old(runtime)
      ensures old(runtime).None? ==> runtime == (if init.Resolved? then Some(init.value) else None)
      ensures calls == old(calls)
                       + (if old(runtime).None? then [InitializeRuntime(apiKey, SandboxExternalId)] else [])
                       + (if runtime.Some? then [ConnectGateway] else [])
      ensures var reached := runtime.Some? && gateway.Done?;
              && stateLog == old(stateLog) + [SandboxState.ConnectingToRelay]
                             + (if reached then [SandboxState.ConnectedToRelay] else [])
              && state == (if reached then SandboxState.ConnectedToRelay else SandboxState.ConnectingToRelay)
              && (!reached || |old(widgets)| > 0 ==> widgets == old(widgets) && Views() == old(Views()))
              && (reached && |old(widgets)| == 0 ==> WidgetsCreated(configPeerId, storedPeerIds))
    {
      SetUIState(SandboxState.ConnectingToRelay);
      if runtime.None? {
        calls := calls + [InitializeRuntime(apiKey, SandboxExternalId)];
        if init.Rejected? {
          return;
        }
        runtime := Some(init.value);
      }
      calls := calls + [ConnectGateway];
      forall j | 0 <= j < |widgets| ensures WidgetOk(j) {
        assert old(WidgetOk(j));
      }
      if gateway.Failed? {
        return;
      }
      SetUIState(SandboxState.ConnectedToRelay);
      if |widgets| == 0 {
        CreateWidgets(configPeerId, storedPeerIds);
      }
    }

    /** After widget creation: numWidgets fresh widgets, widget i + 1 showing its initial peer id. */
    ghost predicate WidgetsCreated(configPeerId: Option<string>, storedPeerIds: map<nat, string>)
      reads this, widgets
    {
      && |widgets| == numWidgets
      && forall i :: 0 <= i < numWidgets ==>
           widgets[i].View() == InitialView(Settings.InitialPeerId(configPeerId, StoredPeerId(storedPeerIds, i + 1)))
    }

    /** The loop of connectToRelay that creates widgets 1..numWidgets on the runtime. */
    method CreateWidgets(configPeerId: Option<string>, storedPeerIds: map<nat, string>)
      requires Valid() && widgets == [] && runtime.Some?
      modifies this
      ensures Valid() && old(Repr) <= Repr && fresh(Repr - old(Repr))
      ensures WidgetsCreated(configPeerId, storedPeerIds)
      ensures forall i :: 0 <= i < |widgets| ==> fresh(widgets[i])
      ensures runtime == old(runtime) && state == old(state) && apiKey == old(apiKey) && calls == old(calls)
      ensures stateLog == old(stateLog) && uiApplied == old(uiApplied)
    {
      var i := 1;
      while i <= numWidgets
        invariant 1 <= i <= numWidgets + 1
        invariant |widgets| == i - 1
        invariant runtime == old(runtime) && state == old(state) && apiKey == old(apiKey) && calls == old(calls)
        invariant stateLog == old(stateLog) && uiApplied == old(uiApplied)
        invariant this in Repr && relayDisabled in Repr && old(Repr) <= Repr && fresh(Repr - old(Repr))
        invariant forall k :: 0 <= k < |widgets| ==> WidgetOk(k)
        invariant forall k :: 0 <= k < |widgets| ==> fresh(widgets[k]) && fresh(widgets[k].disabled)
        invariant forall k :: 0 <= k < |widgets| ==>
                    widgets[k].View() == InitialView(Settings.InitialPeerId(configPeerId, StoredPeerId(storedPeerIds, k + 1)))
        invariant forall k, l :: 0 <= k < l < |widgets| ==>
                    widgets[k] != widgets[l] && widgets[k].disabled != widgets[l].disabled
      {
        label Top:
        var w := new StreamWidget(runtime.value, i, template, configPeerId, StoredPeerId(storedPeerIds, i));
        widgets := widgets + [w];
        Repr := Repr + {w, w.disabled};
        forall k | 0 <= k < |widgets| ensures WidgetOk(k) {
          if k < |widgets| - 1 {
            assert old@Top(WidgetOk(k));
          }
        }
        i := i + 1;
      }
    }

    /** onRuntimeConnectionLost: only the state changes; the runtime and the widgets are kept. */
    method OnRuntimeConnectionLost()
      requires Valid()
      modifies this, relayDisabled
      ensures Valid() && Repr == old(Repr)
      ensures state == SandboxState.Disconnected && stateLog == old(stateLog) + [SandboxState.Disconnected]
      ensures runtime == old(runtime) && widgets == old(widgets) && Views() == old(Views())
      ensures apiKey == old(apiKey) && calls == old(calls)
    {
      SetUIState(SandboxState.Disconnected);
    }

    /** disconnectFromRelay: disconnects the runtime, if any, from the gateway and shows Disconnected. */
    method DisconnectFromRelay()
      requires Valid()
      modifies this, relayDisabled
      ensures Valid() && Repr == old(Repr)
      ensures state == SandboxState.Disconnected && stateLog == old(stateLog) + [SandboxState.Disconnected]
      ensures runtime == old(runtime) && widgets == old(widgets) && Views() == old(Views())
      ensures apiKey == old(apiKey)
      ensures calls == old(calls) + (if runtime.Some? then [DisconnectGateway] else [])
    {
      if runtime.Some? {
        calls := calls + [DisconnectGateway];
        forall j | 0 <= j < |widgets| ensures WidgetOk(j) {
          assert old(WidgetOk(j));
        }
      }
      SetUIState(SandboxState.Disconnected);
    }

    /** When a callback has changed widget i alone, and left it valid, the sandbox is still valid. */
    twostate lemma OthersKept(i: int)
      requires old(Valid()) && 0 <= i < |widgets|
      requires unchanged(this) && unchanged(relayDisabled)
      requires widgets[i].Valid()
      requires forall o :: o in old(Repr) && o != widgets[i] && o != widgets[i].disabled ==> unchanged(o)
      ensures Valid()
      ensures forall j :: 0 <= j < |widgets| && j != i ==> widgets[j].View() == old(widgets[j].View())
    {
      assert old(WidgetOk(i));
      forall j | 0 <= j < |widgets| ensures WidgetOk(j) {
        assert old(WidgetOk(j));
      }
      forall j | 0 <= j < |widgets| && j != i ensures widgets[j].View() == old(widgets[j].View()) {
        assert old(WidgetOk(j));
        assert widgets[j] != widgets[i];
      }
    }

    /** onPeerDisconnect, as PeerDisconnected on the widget snapshots. */
    method OnPeerDisconnect(p: Peer)
      requires Valid()
      modifies Repr
      ensures Valid() && Repr == old(Repr)
      ensures Views() == PeerDisconnected(old(Views()), p)
      ensures runtime == old(runtime) && state == old(state) && apiKey == old(apiKey)
      ensures widgets == old(widgets) && calls == old(calls)
      ensures stateLog == old(stateLog) && uiApplied == old(uiApplied)
    {
      var found := FirstMatch(Views(), HasPeer(p));
      if found.None? {
        return;
      }
      var i := found.value;
      assert WidgetOk(i);
      var w := widgets[i];
      w.peer := None;
      if w.state.Rank() > SandboxWidgetState.Disconnected.Rank() {
        w.SetUIState(SandboxWidgetState.Disconnected);
      }
      OthersKept(i);
      assert Views() == old(Views())[i := DropPeer(old(Views())[i])];
    }

    /** onStreamStop, as StreamStopped on the widget snapshots. */
    method OnStreamStop(s: Stream, peerStream: map<Peer, Stream>)
      requires Valid()
      modifies Repr
      ensures Valid() && Repr == old(Repr)
      ensures Views() == StreamStopped(old(Views()), s, peerStream)
      ensures runtime == old(runtime) && state == old(state) && apiKey == old(apiKey)
      ensures widgets == old(widgets) && calls == old(calls)
      ensures stateLog == old(stateLog) && uiApplied == old(uiApplied)
    {
      var found := FirstMatch(Views(), PlaysStream(s, peerStream));
      if found.None? {
        return;
      }
      var i := found.value;
      assert WidgetOk(i);
      var w := widgets[i];
      if w.state.Rank() > SandboxWidgetState.ConnectedToHostReadyToStream.Rank() {
        w.SetUIState(SandboxWidgetState.ConnectedToHostReadyToStream);
      }
      OthersKept(i);
      assert Views() == old(Views())[i := StopStreaming(old(Views())[i])];
    }

    /** onPeerMessage, as MessageReceived on the widget snapshots. */
    method OnPeerMessage(p: Peer, text: string)
      requires Valid()
      modifies Repr
      ensures Valid() && Repr == old(Repr)
      ensures Views() == MessageReceived(old(Views()), p, text)
      ensures runtime == old(runtime) && state == old(state) && apiKey == old(apiKey)
      ensures widgets == old(widgets) && calls == old(calls)
      ensures stateLog == old(stateLog) && uiApplied == old(uiApplied)
    {
      var found := FirstMatch(Views(), HasPeer(p));
      if found.None? {
        return;
      }
      var i := found.value;
      assert WidgetOk(i);
      var w := widgets[i];
      w.DisplayChatMessage(w.HostNickname(), text);
      OthersKept(i);
      assert Views() == old(Views())[i := ReceiveChat(old(Views())[i], text)];
    }
  }
}
