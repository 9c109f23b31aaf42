/**
 * The earlier React widget (src/react-demo/widget.tsx): one peer's chat box
 * and a button that requests a stream once.
 *
 * As in ToggleWidget, a click on a disabled control does nothing, and the
 * stream request is split at its await into the click and RequestSettled.
 * This widget never drops a stream, and its Request button stays disabled
 * while it holds one, so it obtains at most one stream in its lifetime.
 */
module RequestWidget {
  import opened Handles

  /** The number of stream requests in a call log. */
  function RequestCount(calls: seq<SdkCall>): (n: nat)
    ensures n <= |calls|
  {
    if calls == [] then 0
    else (if calls[0].RequestStream? then 1 else 0) + RequestCount(calls[1..])
  }

  /** Logging one more call adds one exactly when it is a stream request. */
  lemma {:induction false} RequestCountAppend(calls: seq<SdkCall>, c: SdkCall)
    ensures RequestCount(calls + [c]) == RequestCount(calls) + (if c.RequestStream? then 1 else 0)
  {
    if calls != [] {
      assert (calls + [c])[1..] == calls[1..] + [c];
      RequestCountAppend(calls[1..], c);
    }
  }

  class Widget {
    /** props.peer */
    var peer: Option<Peer>
    var chatBuffer: string
    var requestingStream: bool
    var stream: Option<Stream>
    /** Every text handed to props.sendChat, in order. */
    var forwarded: seq<string>
    var calls: seq<SdkCall>
    /** The number of stream requests that have resolved or thrown. */
    ghost var settled: nat
    /** The number of streams the widget has obtained. */
    ghost var streamsObtained: nat

    /**
     * Every request issued has settled, except the one in flight; a request
     * is only in flight while there is no stream; and the widget has obtained
     * a stream exactly when it holds one, and at most one.
     */
    ghost predicate Valid()
      reads this
    {
      && RequestCount(calls) == settled + (if requestingStream then 1 else 0)
      && (requestingStream ==> stream.None?)
      && streamsObtained <= 1
      && (stream.Some? <==> streamsObtained == 1)
    }

    constructor (peer: Option<Peer>)
      ensures Valid()
      ensures this.peer == peer
      ensures chatBuffer == "" && !requestingStream && stream == None && forwarded == [] && calls == []
    {
      this.peer := peer;
      chatBuffer := "";
      requestingStream := false;
      stream := None;
      forwarded, calls := [], [];
      settled, streamsObtained := 0, 0;
    }

    /** `offline`: the chat input and the Send button are disabled exactly when there is no peer. */
    function Offline(): (b: bool)
      reads this
      ensures b <==> peer.None?
    {
      peer == None
    }

    /** The Request Stream button: disabled without a peer, with a stream, or while a request is in flight. */
    function RequestDisabled(): (d: bool)
      reads this
      ensures !d <==> peer.Some? && stream.None? && !requestingStream
    {
      peer.None? || stream.Some? || requestingStream
    }

    /** Typing into the chat input, which is disabled when offline. */
    method EditChat(text: string)
      modifies this
      ensures chatBuffer == (if old(peer).None? then old(chatBuffer) else text)
      ensures peer == old(peer) && requestingStream == old(requestingStream) && stream == old(stream)
      ensures forwarded == old(forwarded) && calls == old(calls)
      ensures settled == old(settled) && streamsObtained == old(streamsObtained)
    {
      if !Offline() {
        chatBuffer := text;
      }
    }

    /** sendChat: the current buffer goes to props.sendChat, then the buffer is emptied. */
    method SendChat()
      modifies this
      ensures forwarded == old(forwarded) + [old(chatBuffer)] && chatBuffer == ""
      ensures peer == old(peer) && requestingStream == old(requestingStream) && stream == old(stream)
      ensures calls == old(calls) && settled == old(settled) && streamsObtained == old(streamsObtained)
    {
      forwarded := forwarded + [chatBuffer];
      chatBuffer := "";
    }

    /** Enter in the chat input, or the Send button: both forward the buffer exactly when online. */
    method PressEnterOrSend()
      modifies this
      ensures old(peer).None? ==> forwarded == old(forwarded) && chatBuffer == old(chatBuffer)
      ensures old(peer).Some? ==> forwarded == old(forwarded) + [old(chatBuffer)] && chatBuffer == ""
      ensures peer == old(peer) && requestingStream == old(requestingStream) && stream == old(stream)
      ensures calls == old(calls) && settled == old(settled) && streamsObtained == old(streamsObtained)
    {
      if !Offline() {
        SendChat();
      }
    }

    /** The Request Stream button (requestStream up to its await): raises the in-flight flag and requests a stream. */
    method ClickRequest()
      requires Valid()
      modifies this
      ensures Valid()
      ensures old(RequestDisabled()) ==> requestingStream == old(requestingStream) && calls == old(calls)
      ensures !old(RequestDisabled()) ==>
                && old(stream).None? && !old(requestingStream)
                && requestingStream && calls == old(calls) + [RequestStream(old(peer).value)]
      ensures peer == old(peer) && chatBuffer == old(chatBuffer) && stream == old(stream)
      ensures forwarded == old(forwarded) && settled == old(settled) && streamsObtained == old(streamsObtained)
    {
      if RequestDisabled() {
        return;
      }
      IssueRequest();
    }

    /** The enabled click: the request is logged and the in-flight flag raised. */
    method IssueRequest()
      requires Valid() && peer.Some? && stream.None? && !requestingStream
      modifies this
      ensures Valid()
      ensures requestingStream && calls == old(calls) + [RequestStream(old(peer).value)]
      ensures peer == old(peer) && chatBuffer == old(chatBuffer) && stream == old(stream)
      ensures forwarded == old(forwarded) && settled == old(settled) && streamsObtained == old(streamsObtained)
    {
      var request := RequestStream(peer.value);
      RequestCountAppend(calls, request);
      calls := calls + [request];
      requestingStream := true;
    }

    /**
     * The rest of requestStream once the request settles: the stream becomes
     * the request's result when it resolved and stays absent when it threw;
     * either way the in-flight flag is lowered.
     */
    method RequestSettled(result: Step<Stream>)
      requires Valid() && requestingStream
      modifies this
      ensures Valid()
      ensures !requestingStream && settled == old(settled) + 1
      ensures old(stream).None?
      ensures stream == (if result.Resolved? then Some(result.value) else None)
      ensures peer == old(peer) && chatBuffer == old(chatBuffer) && forwarded == old(forwarded) && calls == old(calls)
    {
      if result.Resolved? {
        stream := Some(result.value);
        streamsObtained := streamsObtained + 1;
      }
      requestingStream := false;
      settled := settled + 1;
    }

    /** A new peer prop from the roster. */
    method PeerChanged(p: Option<Peer>)
      requires Valid()
      modifies this
      ensures Valid()
      ensures peer == p
      ensures chatBuffer == old(chatBuffer) && requestingStream == old(requestingStream) && stream == old(stream)
      ensures forwarded == old(forwarded) && calls == old(calls)
      ensures settled == old(settled) && streamsObtained == old(streamsObtained)
    {
      peer := p;
    }
  }
}
