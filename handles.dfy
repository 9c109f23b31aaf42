/**
 * Values shared by every part of the demo: optional values, the outcome of an
 * awaited SDK promise, opaque handles to SDK objects, the log of SDK calls the
 * demo issues, and the two state enumerations of the sandbox.
 *
 * The streaming SDK itself is not part of this model. Its objects are opaque
 * handles compared by identity, and every promise it returns is a parameter
 * saying whether it resolved (and with what) or rejected (and with what text).
 */
module Handles {

  datatype Option<T> = None | Some(value: T)

  /** The outcome of awaiting an SDK promise that yields a value. */
  datatype Step<T> = Resolved(value: T) | Rejected(error: string)

  /** The outcome of awaiting an SDK promise that yields nothing. */
  datatype Settled = Done | Failed(reason: string)

  /** A connection to one remote peer; `peerId` is the SDK's numeric id of that peer. */
  datatype Peer = Peer(handle: nat, peerId: int)

  /** An inbound media stream. */
  datatype Stream = Stream(handle: nat)

  /** The process-wide connection to the relay service. */
  datatype Runtime = Runtime(handle: nat)

  /** A stream a peer has offered. */
  datatype Announcement = Announcement(handle: nat)

  /** One call the demo makes into the SDK, in the order it is made. */
  datatype SdkCall =
    | InitializeRuntime(apiKey: string, externalId: string)
    | ConnectGateway
    | DisconnectGateway
    | ConnectPeer(targetId: int)
    | CancelAttempt(targetId: int)
    | DisconnectPeer(peer: Peer)
    | SendMessage(peer: Peer, message: string)
    | RequestStream(peer: Peer)
    | LeaveStream(stream: Stream)
    | CloseStream(stream: Stream)
    | CreateDataChannel(peer: Peer)
    | ListStreams(peer: Peer)
    | JoinAnnouncement(announcement: Announcement)
    | CreateStream(peer: Peer)
    | RequestFullscreen(stream: Stream)

  /** Connection state of the page's runtime (the numeric order of the source enum). */
  datatype SandboxState = Disconnected | ConnectingToRelay | ConnectedToRelay
  {
    function Rank(): nat
    {
      match this
      case Disconnected => 0
      case ConnectingToRelay => 1
      case ConnectedToRelay => 2
    }
  }

  /** Connection state of one stream widget (the numeric order of the source enum). */
  datatype SandboxWidgetState =
    | Disconnected
    | ConnectingToHost
    | ConnectedToHostNoStream
    | ConnectedToHostReadyToStream
    | ConnectedToHostStreaming
  {
    function Rank(): nat
    {
      match this
      case Disconnected => 0
      case ConnectingToHost => 1
      case ConnectedToHostNoStream => 2
      case ConnectedToHostReadyToStream => 3
      case ConnectedToHostStreaming => 4
    }
  }

  /**
   * BigInt(text) on the decimal subset: a string of decimal digits converts to
   * its value, and the empty string converts to 0; anything else throws.
   */
  function ParsePeerId(text: string): (r: Option<nat>)
    ensures r.Some? <==> forall i :: 0 <= i < |text| ==> '0' <= text[i] <= '9'
    ensures text == [] ==> r == Some(0)
    decreases |text|
  {
    if text == [] then Some(0)
    else if !('0' <= text[|text| - 1] <= '9') then None
    else
      match ParsePeerId(text[..|text| - 1])
      case None => None
      case Some(n) => Some(10 * n + (text[|text| - 1] as int - '0' as int))
  }

  /**
   * The text of the error a failed BigInt conversion of the text throws. The
   * wording is the one V8-based engines use; other engines word it
   * differently, and the model assumes this one.
   */
  function ConversionError(text: string): string
  {
    "SyntaxError: Cannot convert " + text + " to a BigInt"
  }

  /** Appending a digit multiplies the parsed value by ten and adds that digit. */
  lemma {:induction false} ParsePeerIdAppendDigit(text: string, d: char)
    requires '0' <= d <= '9'
    requires ParsePeerId(text).Some?
    ensures ParsePeerId(text + [d]) == Some(10 * ParsePeerId(text).value + (d as int - '0' as int))
  {
    assert (text + [d])[..|text + [d]| - 1] == text;
  }
}
