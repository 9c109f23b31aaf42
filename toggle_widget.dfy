/**
 * The React demo's widget (src/react-demo/Widget.tsx): one peer's chat box
 * and a button that toggles a stream.
 *
 * The widget's props (its peer and the roster's stream stop counter) and its
 * own state (chat buffer, in-flight flag, stream) are fields. A click on a
 * disabled control does nothing, so each click method first evaluates the
 * control's `disabled` rule. A stream request is split at its await: the
 * click issues it, and RequestSettled runs the rest of the handler when the
 * request resolves or throws.
 */
module ToggleWidget {
  import opened Handles

  /** The number of stream requests in a call log. */
  function CreateCount(calls: seq<SdkCall>): (n: nat)
    ensures n <= |calls|
  {
    if calls == [] then 0
    else (if calls[0].CreateStream? then 1 else 0) + CreateCount(calls[1..])
  }

  /** Logging one more call adds one exactly when it is a stream request. */
  lemma {:induction false} CreateCountAppend(calls: seq<SdkCall>, c: SdkCall)
    ensures CreateCount(calls + [c]) == CreateCount(calls) + (if c.CreateStream? then 1 else 0)
  {
    if calls != [] {
      assert (calls + [c])[1..] == calls[1..] + [c];
      CreateCountAppend(calls[1..], c);
    }
  }

  class Widget {
    /** props.peer */
    var peer: Option<Peer>
    /** props.streamStopCount, as last seen by the effect */
    var streamStopCount: int
    var chatBuffer: string
    var requestingStream: bool
    var stream: Option<Stream>
    /** Every text handed to props.sendChat, in order. */
    var forwarded: seq<string>
    var calls: seq<SdkCall>
    /** The number of stream requests that have resolved or thrown. */
    ghost var settled: nat

    /** Every stream request issued has settled, except the one in flight, if any. */
    ghost predicate Valid()
      reads this
    {
      CreateCount(calls) == settled + (if requestingStream then 1 else 0)
    }

    constructor (peer: Option<Peer>, streamStopCount: int)
      ensures Valid()
      ensures this.peer == peer && this.streamStopCount == streamStopCount
      ensures chatBuffer == "" && !requestingStream && stream == None && forwarded == [] && calls == []
    {
      this.peer := peer;
      this.streamStopCount := streamStopCount;
      chatBuffer := "";
      requestingStream := false;
      stream := None;
      forwarded, calls := [], [];
      settled := 0;
    }

    /** `offline` */
    function Offline(): (b: bool)
      reads this
      ensures b <==> peer.None?
    {
      peer == None
    }

    /** The Send button: disabled when offline or when the buffer is empty. */
    function SendDisabled(): (d: bool)
      reads this
      ensures !d <==> peer.Some? && chatBuffer != ""
    {
      Offline() || chatBuffer == ""
    }

    /** The Request/Leave button: disabled without a peer or while a request is in flight. */
    function ToggleDisabled(): (d: bool)
      reads this
      ensures !d <==> peer.Some? && !requestingStream
    {
      peer.None? || requestingStream
    }

    /** The Fullscreen button: enabled only with both a peer and a stream. */
    function FullscreenDisabled(): (d: bool)
      reads this
      ensures !d <==> peer.Some? && stream.Some?
    {
      peer.None? || stream.None?
    }

    /** The Request/Leave button's label. */
    function ToggleLabel(): (s: string)
      reads this
      ensures stream.Some? ==> s == "Leave Stream"
      ensures stream.None? ==> s == "Request New Stream"
    {
      if stream.Some? then "Leave Stream" else "Request New Stream"
    }

    /** Typing into the chat input, which is disabled when offline. */
    method EditChat(text: string)
      modifies this
      ensures chatBuffer == (if old(peer).None? then old(chatBuffer) else text)
      ensures peer == old(peer) && streamStopCount == old(streamStopCount) && requestingStream == old(requestingStream)
      ensures stream == old(stream) && forwarded == old(forwarded) && calls == old(calls) && settled == old(settled)
    {
      if !Offline() {
        chatBuffer := text;
      }
    }

    /** sendChat: the current buffer goes to props.sendChat, then the buffer is emptied. */
    method SendChat()
      modifies this
      ensures forwarded == old(forwarded) + [old(chatBuffer)] && chatBuffer == ""
      ensures peer == old(peer) && streamStopCount == old(streamStopCount) && requestingStream == old(requestingStream)
      ensures stream == old(stream) && calls == old(calls) && settled == old(settled)
    {
      forwarded := forwarded + [chatBuffer];
      chatBuffer := "";
    }

    /**
     * Enter in the chat input. The input only takes keys when online, and the
     * key sends the buffer whatever it holds: unlike the Send button, it
     * forwards an empty buffer too.
     */
    method PressEnter()
      modifies this
      ensures old(peer).None? ==> forwarded == old(forwarded) && chatBuffer == old(chatBuffer)
      ensures old(peer).Some? ==> forwarded == old(forwarded) + [old(chatBuffer)] && chatBuffer == ""
      ensures peer == old(peer) && streamStopCount == old(streamStopCount) && requestingStream == old(requestingStream)
      ensures stream == old(stream) && calls == old(calls) && settled == old(settled)
    {
      if !Offline() {
        SendChat();
      }
    }

    /** The Send button: forwards the buffer only when online and the buffer is not empty. */
    method ClickSend()
      modifies this
      ensures old(SendDisabled()) ==> forwarded == old(forwarded) && chatBuffer == old(chatBuffer)
      ensures !old(SendDisabled()) ==>
                forwarded == old(forwarded) + [old(chatBuffer)] && old(chatBuffer) != "" && chatBuffer == ""
      ensures peer == old(peer) && streamStopCount == old(streamStopCount) && requestingStream == old(requestingStream)
      ensures stream == old(stream) && calls == old(calls) && settled == old(settled)
    {
      if !SendDisabled() {
        SendChat();
      }
    }

    /** The Fullscreen button: asks the held stream to go fullscreen, unless the button is disabled. */
    method ClickFullscreen()
      requires Valid()
      modifies this
      ensures Valid()
      ensures calls == old(calls) + (if old(FullscreenDisabled()) then [] else [RequestFullscreen(old(stream).value)])
      ensures !old(FullscreenDisabled()) ==> old(peer).Some? && old(stream).Some?
      ensures peer == old(peer) && streamStopCount == old(streamStopCount) && chatBuffer == old(chatBuffer)
      ensures requestingStream == old(requestingStream) && stream == old(stream)
      ensures forwarded == old(forwarded) && settled == old(settled)
    {
      if !FullscreenDisabled() {
        CreateCountAppend(calls, RequestFullscreen(stream.value));
        calls := calls + [RequestFullscreen(stream.value)];
      }
    }

    /**
     * The Request/Leave button (toggleStream up to its await). With a stream it
     * closes the stream and drops it, issuing no request. Without one it raises
     * the in-flight flag and requests a stream from the peer.
     */
    method ClickToggle()
      requires Valid()
      modifies this
      ensures Valid()
      ensures old(ToggleDisabled()) ==>
                stream == old(stream) && requestingStream == old(requestingStream) && calls == old(calls)
      ensures !old(ToggleDisabled()) && old(stream).Some? ==>
                stream == None && !requestingStream && calls == old(calls) + [CloseStream(old(stream).value)]
      ensures !old(ToggleDisabled()) && old(stream).None? ==>
                stream == None && requestingStream && calls == old(calls) + [CreateStream(old(peer).value)]
      ensures !old(requestingStream) || calls == old(calls)
      ensures !old(ToggleDisabled()) && old(ToggleLabel()) == "Leave Stream" ==>
                |calls| == |old(calls)| + 1 && calls[|old(calls)|].CloseStream? && stream == None
      ensures !old(ToggleDisabled()) && old(ToggleLabel()) == "Request New Stream" ==>
                |calls| == |old(calls)| + 1 && calls[|old(calls)|].CreateStream? && requestingStream
      ensures peer == old(peer) && streamStopCount == old(streamStopCount) && chatBuffer == old(chatBuffer)
      ensures forwarded == old(forwarded) && settled == old(settled)
    {
      if ToggleDisabled() {
        return;
      }
      if stream.Some? {
        CreateCountAppend(calls, CloseStream(stream.value));
        calls := calls + [CloseStream(stream.value)];
        stream := None;
        return;
      }
      requestingStream := true;
      CreateCountAppend(calls, CreateStream(peer.value));
      calls := calls + [CreateStream(peer.value)];
    }

    /**
     * The rest of toggleStream once the request settles: the stream becomes
     * the request's result when it resolved and is left alone when it threw;
     * either way the in-flight flag is lowered.
     */
    method RequestSettled(result: Step<Stream>)
      requires Valid() && requestingStream
      modifies this
      ensures Valid()
      ensures !requestingStream && settled == old(settled) + 1
      ensures stream == (if result.Resolved? then Some(result.value) else old(stream))
      ensures peer == old(peer) && streamStopCount == old(streamStopCount) && chatBuffer == old(chatBuffer)
      ensures forwarded == old(forwarded) && calls == old(calls)
    {
      if result.Resolved? {
        stream := Some(result.value);
      }
      requestingStream := false;
      settled := settled + 1;
    }

    /** The effect on props.streamStopCount: any change closes and drops the current stream. */
    method StreamStopCountChanged(n: int)
      requires Valid()
      modifies this
      ensures Valid()
      ensures streamStopCount == n
      ensures n == old(streamStopCount) ==> stream == old(stream) && calls == old(calls)
      ensures n != old(streamStopCount) ==>
                stream == None && calls == old(calls) + (if old(stream).Some? then [CloseStream(old(stream).value)] else [])
      ensures peer == old(peer) && chatBuffer == old(chatBuffer) && requestingStream == old(requestingStream)
      ensures forwarded == old(forwarded) && settled == old(settled)
    {
      if n != streamStopCount {
        if stream.Some? {
          CreateCountAppend(calls, CloseStream(stream.value));
          calls := calls + [CloseStream(stream.value)];
        }
        stream := None;
      }
      streamStopCount := n;
    }

    /** A new peer prop from the roster (the peer connected, or its connection failed). */
    method PeerChanged(p: Option<Peer>)
      requires Valid()
      modifies this
      ensures Valid()
      ensures peer == p
      ensures streamStopCount == old(streamStopCount) && chatBuffer == old(chatBuffer) && requestingStream == old(requestingStream)
      ensures stream == old(stream) && forwarded == old(forwarded) && calls == old(calls) && settled == old(settled)
    {
      peer := p;
    }

    /** The stream selector's choice: the announcement is joined and its stream becomes the widget's. */
    method ChooseAnnouncement(a: Announcement, join: Step<Stream>)
      requires Valid()
      modifies this
      ensures Valid()
      ensures calls == old(calls) + [JoinAnnouncement(a)]
      ensures stream == (if join.Resolved? then Some(join.value) else old(stream))
      ensures peer == old(peer) && streamStopCount == old(streamStopCount) && chatBuffer == old(chatBuffer)
      ensures requestingStream == old(requestingStream) && forwarded == old(forwarded) && settled == old(settled)
    {
      CreateCountAppend(calls, JoinAnnouncement(a));
      calls := calls + [JoinAnnouncement(a)];
      if join.Resolved? {
        stream := Some(join.value);
      }
    }
  }
}
