# Rainway web SDK demo pages, modelled in Dafny

This project models the logic of the Rainway web SDK demo pages. There are
three parts:

- **The sandbox page** (`src/sandbox.ts`). A `StreamSandbox` owns the page's
  runtime and a row of `StreamWidget`s. Each widget connects to one host
  peer, shows a chat and may hold a stream. A widget's state is an ordered
  enumeration (Disconnected < ConnectingToHost < ConnectedToHostNoStream <
  ConnectedToHostReadyToStream < ConnectedToHostStreaming). `setUIState` turns
  that order into the enabled/disabled flags of five input groups. SDK
  callbacks find a widget with `widgets.find` and move it down the order.
- **The React demo** (`src/react-demo/Demo.tsx`, `Widget.tsx`, `widget.tsx`).
  A roster of `DemoPeer` entries is updated by `map`/`filter` reducers. Each
  entry is rendered as a widget with a chat box and a stream button, guarded
  by an in-flight flag.
- **The single-page React relay demo** (`src/index-react.tsx`). It routes log
  messages, fills its fields through fallback chains, and creates a runtime
  once and reuses it.

How the model is built:

- Each source file keeps its own form. Objects whose fields the page updates
  in place are classes with `modifies` clauses: the sandbox and its widgets,
  the Demo component, each widget, and the relay page. `enableInputs` is a
  loop over an array of `disabled` flags. The roster reducers, the log
  routing, the fallback chains and the two error-text rules are functions
  with lemmas.
- The streaming SDK is not part of the model. Its runtime, peers, streams
  and announcements are opaque handles compared by identity.
- Every awaited SDK promise is a parameter saying whether it resolved (and
  with what) or rejected (and with what error text). Every SDK call the
  modelled handlers make is appended to a `calls` log, so contracts state which calls
  were made and in what order.
- Each handler is one atomic step. A click on a disabled control does
  nothing, so every click method evaluates the control's `disabled` rule
  first.
- The two widget components split their stream request at its await. The
  click issues the request and raises the in-flight flag. `RequestSettled`
  runs the rest of the handler when the request resolves or throws. A ghost
  counter of settled requests gives the invariant "every request issued has
  settled, except the one in flight".

The sandbox's callbacks are specified as pure functions on value snapshots of
the widgets (`WidgetView`): `PeerDisconnected`, `StreamStopped` and
`MessageReceived`. Each sandbox handler method is proved to move
`Views()` from the old snapshot to that function's result, while every
widget's control flags stay in agreement with its state.

Facts about the source that the contracts make explicit:

- In `Widget.tsx` the Send button is disabled on an empty buffer, but the
  Enter key in the chat input calls the same `sendChat` with no such check.
  So Enter forwards an empty message whenever the peer is present
  (`ToggleWidget.Widget.PressEnter`).
- `hostNickname` is `peerId.substring(29)`. For the 18-digit ids the page
  uses by default, the nickname is therefore empty (`Sandbox.Nickname`).
- A sandbox widget never lets go of its stream handle. It is set once a
  stream is granted (`src/sandbox.ts:98`); onPeerDisconnect and onStreamStop
  change the widget's peer and state but not its stream. A widget can
  therefore be Disconnected or ReadyToStream while still holding the old
  stream, and a later Stop click calls `leave()` on it again
  (`Sandbox.PeerDisconnectedKeepsStream`, `Sandbox.StreamStoppedKeepsStream`,
  `Sandbox.StreamWidget.StopStream`).
- In `Demo.tsx` the New handler checks the roster its listener closed over,
  which is the empty roster of the render that created the runtime. Every
  New event therefore appends, and the page can hold two entries with one id
  (`DemoPage.DuplicateEntryReached`). The page model runs the handler as
  written, so its invariant does not include unique ids. Handlers that act
  by id act on every entry with it, and each keeps ids unique when they
  were. The corrected update is `DemoPage.Demo.OnPeerNewIntended` (see
  Findings).
- A JavaScript `.` never matches a line terminator. The sandbox's anchored
  rule `^(.*Error: )+` therefore only ever strips within the first line. The
  React demo's unanchored rule `.*Rainway SDK Error: ` strips within the
  first line that holds the marker.

## Model

| member | source | states |
|---|---|---|
| Handles.ParsePeerId | src/sandbox.ts:178 | `BigInt(text)` on decimal text succeeds exactly when every character is a digit; the empty text converts to 0 |
| Handles.ParsePeerIdAppendDigit | src/sandbox.ts:178 | appending a digit to a convertible id multiplies its value by ten and adds the digit |
| Settings.InitialPeerId | src/index-react.tsx:17-21 | the peer id is the configured one if present, else the stored one if present, else "000000000000000000" (`??`: only an absent value falls through) |
| Settings.InitialApiKey | src/index-react.tsx:22-24 | the key is the stored one if non-empty, else the configured one if non-empty, else "NO_KEY"; it is never empty (`||`) |
| Settings.EmptyStringFallThrough | src/index-react.tsx:17-24 | the two chains differ on an empty string: an empty configured peer id is kept, an empty stored key falls through |
| Logging.ConsoleSink | src/index-react.tsx:32-42 | each level goes to exactly one console sink: error at or above Error, warn from Warning, info from Information, log below |
| Logging.ConsoleSinkMonotone | src/index-react.tsx:32-42 | a higher level never goes to a less severe sink |
| Logging.InitialMinimumLogLevel | src/index-react.tsx:29 | the minimum level is the configured one, or Debug when none is configured |
| Logging.HandleLog | src/index-react.tsx:44-48 | a message is forwarded if and only if its level is at least the minimum, unchanged, to the sink consoleLog picks |
| Logging.HandleLogThresholdMonotone | src/index-react.tsx:44-48 | raising the minimum level only drops messages; what it still forwards is forwarded identically |
| Controls.EnableInputs | src/sandbox.ts:154-159 | every control carrying the class gets `disabled = !enabled`; every other control keeps its flag |
| ErrorText.StripLinePrefix | src/sandbox.ts:167 | the result is a suffix of the text; it is the text itself exactly when no "Error: " ends within the first line; otherwise it starts right after the last "Error: " ending within the first line |
| ErrorText.StripErrorPrefix | src/sandbox.ts:166-169 | showError's text is the anchored strip with the marker "Error: " |
| ErrorText.StripLinePrefixIdempotent | src/sandbox.ts:167 | stripping twice gives the same text as stripping once |
| ErrorText.StripThroughMarker | src/react-demo/Demo.tsx:239 | the unanchored strip never lengthens the text |
| ErrorText.StripThroughSdkError | src/react-demo/Demo.tsx:237-240 | connectError's text is the unanchored strip with the marker "Rainway SDK Error: " |
| ErrorText.StripRulesAgreeOnFirstLine | src/react-demo/Demo.tsx:239 | when the first line holds the marker, the unanchored rule removes exactly what the anchored rule removes |
| ErrorText.StripThroughMarkerChanges | src/react-demo/Demo.tsx:239 | the unanchored strip changes the text if and only if the marker occurs in it |
| ErrorText.SingleLineStripLeavesNoMarker | src/react-demo/Demo.tsx:239 | on one-line text (an SDK error string) the strip leaves no marker behind |
| Sandbox.GroupLayering | src/sandbox.ts:216-220 | exactly one of when-no-host and when-host-or-connecting is enabled; when-streaming and when-ready-to-stream each imply when-host, which implies when-host-or-connecting; ready-to-stream and streaming are never both enabled |
| Sandbox.GroupEnabled | src/sandbox.ts:216-220 | Disconnected enables only when-no-host; ConnectingToHost only when-host-or-connecting; Streaming every group except when-no-host and when-ready-to-stream |
| Sandbox.Description | src/sandbox.ts:206-212 | every state has a non-empty status text |
| Sandbox.DescriptionDistinct | src/sandbox.ts:206-212 | distinct states show distinct status texts, so the text tells the state |
| Sandbox.Governing | src/sandbox.ts:216-220 | for a control in several groups, the flag comes from one of its own groups, the last one applied |
| Sandbox.Nickname | src/sandbox.ts:162-164 | the nickname is the text after its 29th character, and empty for a text of at most 29 characters |
| Sandbox.FirstMatch | src/sandbox.ts:319 | `widgets.find` returns the first index that matches, and none only when no widget matches |
| Sandbox.FirstMatchUnique | src/sandbox.ts:319 | there is only one first match |
| Sandbox.PeerDisconnected | src/sandbox.ts:317-326 | the first widget holding the peer loses it and ends Disconnected; its status text becomes Disconnected's only when it was above Disconnected; everything else about it (stream, chat, input, peer id text, calls) is kept; all other widgets are unchanged; with no match nothing changes |
| Sandbox.StreamStopped | src/sandbox.ts:331-339 | no state rises; widgets at or below ReadyToStream are untouched; a streaming first match becomes ReadyToStream with that state's status text and nothing else about it changes; peers and streams stay; with no match nothing changes |
| Sandbox.StreamStoppedIdempotent | src/sandbox.ts:331-339 | a second stop of the same stream changes nothing |
| Sandbox.PeerDisconnectedKeepsStream | src/sandbox.ts:317-326 | a streaming widget whose peer disconnects ends Disconnected and still holds its stream handle |
| Sandbox.StreamStoppedKeepsStream | src/sandbox.ts:331-339 | a streaming widget whose stream stops ends ReadyToStream and still holds its stream handle |
| Sandbox.MessageReceived | src/sandbox.ts:306-311 | the first widget holding the peer gets exactly one line spoken by its host nickname; all else unchanged; with no match the message is dropped |
| Sandbox.StreamWidget.constructor | src/sandbox.ts:53-125 | a new widget is Disconnected, with no peer, stream or chat, the peer id from the `??` chain, and control flags agreeing with its state |
| Sandbox.StreamWidget.SetUIState | src/sandbox.ts:205-223 | the state and status text become the new state's; every grouped control's flag follows its governing group's rule; ungrouped controls keep their flags |
| Sandbox.StreamWidget.DisplayChatMessage | src/sandbox.ts:137-144 | one "speaker: message" line is appended and nothing else changes |
| Sandbox.StreamWidget.DisplayChatInfo | src/sandbox.ts:147-152 | one info line is appended and nothing else changes |
| Sandbox.StreamWidget.ShowError | src/sandbox.ts:166-169 | the status text becomes the stripped error text and nothing else changes |
| Sandbox.StreamWidget.SendChatMessage | src/sandbox.ts:128-134 | without a peer nothing changes; with one the message is sent to it, exactly one "You" line is appended and the input is cleared |
| Sandbox.StreamWidget.EditChatInput | src/sandbox.ts:89-91 | the chat input holds the typed text and nothing else changes |
| Sandbox.StreamWidget.ClickSend | src/sandbox.ts:86-91 | the Send click (and Enter, which clicks it) hands the input's text to sendChatMessage: with a peer that text is sent and shown as a "You" line and the input is cleared; without one nothing changes |
| Sandbox.StreamWidget.ConnectToHost | src/sandbox.ts:172-190 | a failed gateway connect changes no state; a failed conversion or connect ends Disconnected with the error shown and never reaches NoStream; success passes ConnectingToHost, NoStream and, once ready, ReadyToStream, in that order, with the two info lines |
| Sandbox.StreamWidget.ConnectPeerId | src/sandbox.ts:178-189 | from the connect call on: rejection ends Disconnected with the error shown; success holds the peer and reaches NoStream, then ReadyToStream when ready |
| Sandbox.StreamWidget.ConnectFailed | src/sandbox.ts:179-183 | the catch block ends Disconnected with the stripped error as status text |
| Sandbox.StreamWidget.HostConnected | src/sandbox.ts:184-189 | NoStream with the "Connected to ..." line, then ReadyToStream with "Ready to stream." only when the peer becomes ready |
| Sandbox.StreamWidget.DisconnectFromHost | src/sandbox.ts:193-202 | always ends Disconnected; cancels the attempt for the typed id exactly when there is no peer and the id converts; otherwise disconnects the peer, which is kept |
| Sandbox.StreamWidget.StartStream | src/sandbox.ts:95-102 | without a peer nothing changes; a granted stream is held and the widget is Streaming; a rejected request changes only the call log |
| Sandbox.StreamWidget.StopStream | src/sandbox.ts:103-105 | leaves the held stream, if any, and changes nothing else: the handle stays, so a second click leaves it again |
| Sandbox.RelayGoverning | src/sandbox.ts:367-368 | for a relay control in both groups, the flag comes from when-relay, the rule applied last |
| Sandbox.RelayGroupEnabled | src/sandbox.ts:367-368 | Disconnected enables only when-no-relay, ConnectedToRelay only when-relay, and while connecting neither is enabled |
| Sandbox.StreamSandbox.constructor | src/sandbox.ts:242-272 | no runtime, no widgets, Disconnected, the key from the `||` chain, the minimum log level from the `??` chain |
| Sandbox.StreamSandbox.HandleLog | src/sandbox.ts:274-278 | a message is forwarded if and only if its level is at least the sandbox's minimum |
| Sandbox.StreamSandbox.SetApiKey | src/sandbox.ts:251-254 | the key becomes the new input and nothing else changes |
| Sandbox.StreamSandbox.SetUIState | src/sandbox.ts:358-371 | the state becomes the new one; the relay controls follow the two threshold rules; the widgets are untouched |
| Sandbox.StreamSandbox.ConnectToRelay | src/sandbox.ts:288-355 | a runtime is initialised only when there is none and is otherwise reused; ConnectedToRelay is set only after the gateway connect; widgets are created only from an empty list, exactly numWidgets of them, so repeat calls add none |
| Sandbox.StreamSandbox.CreateWidgets | src/sandbox.ts:349-354 | the loop creates numWidgets fresh, distinct widgets numbered from 1, each in its initial state with its own peer id |
| Sandbox.StreamSandbox.OnRuntimeConnectionLost | src/sandbox.ts:296-299 | only the state label returns to Disconnected; the runtime and the widgets are kept |
| Sandbox.StreamSandbox.DisconnectFromRelay | src/sandbox.ts:374-377 | disconnects the runtime, if any, from the gateway and shows Disconnected; runtime and widgets are kept |
| Sandbox.StreamSandbox.OnPeerDisconnect | src/sandbox.ts:317-326 | the widgets move exactly as PeerDisconnected says, and every widget stays valid |
| Sandbox.StreamSandbox.OnStreamStop | src/sandbox.ts:331-339 | the widgets move exactly as StreamStopped says, and every widget stays valid |
| Sandbox.StreamSandbox.OnPeerMessage | src/sandbox.ts:306-311 | the widgets move exactly as MessageReceived says, and every widget stays valid |
| Roster.MakePeer | src/react-demo/Demo.tsx:27-35 | the entry has the peer's id and handle, no chat, no announcements and a stop count of 0 |
| Roster.UpdateWhere | src/react-demo/Demo.tsx:47-51 | the `map` keeps the length; matching entries become f of themselves and the others are unchanged |
| Roster.AddChat | src/react-demo/Demo.tsx:45-53 | length, order and ids are kept; each matching entry gets the chat appended at the end of its history; others are unchanged |
| Roster.AddAnnouncement | src/react-demo/Demo.tsx:55-66 | length, order and ids are kept; each matching entry's announcements grow by the one at the end; others are unchanged |
| Roster.MarkFailed | src/react-demo/Demo.tsx:110-114 | every entry is kept; matching entries lose their handle with all else unchanged |
| Roster.RemovePeer | src/react-demo/Demo.tsx:201 | an entry survives exactly when it was present with a different id; the length drops by the number of matching entries |
| Roster.RemovePeerAppend | src/react-demo/Demo.tsx:201 | the filter distributes over concatenation, so kept entries keep their order |
| Roster.RemovePeerIdempotent | src/react-demo/Demo.tsx:201 | a roster without the id is unchanged, and removing twice removes nothing more |
| Roster.OnPeerNewAsWritten | src/react-demo/Demo.tsx:100-106 | the New update as written: the check reads the captured roster while the append goes to the latest one; handles stay matched |
| Roster.OnPeerNewAsWrittenDuplicates | src/react-demo/Demo.tsx:100-106 | with an empty captured roster and the peer already in the latest one, the update as written gives two entries with one id |
| Roster.OnPeerNewAsWrittenFresh | src/react-demo/Demo.tsx:100-106 | when the captured roster is the latest one, the update as written is the intended one |
| Roster.OnPeerNew | src/react-demo/Demo.tsx:100-106 | afterwards the roster has the id; it is unchanged if it had the id, otherwise one fresh entry is appended at the end |
| Roster.OnPeerNewKeepsUnique | src/react-demo/Demo.tsx:100-106 | the intended update keeps ids unique if they were, keeps handles matching, and is idempotent |
| Roster.AddChatKeepsRoster | src/react-demo/Demo.tsx:45-53 | addChat keeps ids unique if they were, and every handle belonging to its entry's id |
| Roster.AddAnnouncementKeepsRoster | src/react-demo/Demo.tsx:55-66 | addAnnouncement keeps ids unique if they were, and handles matching |
| Roster.MarkFailedKeepsRoster | src/react-demo/Demo.tsx:108-115 | the Failed update keeps ids unique if they were, and handles matching |
| Roster.RemovePeerKeepsUnique | src/react-demo/Demo.tsx:201 | the filter keeps ids unique if they were, and leaves no entry with the removed id |
| Roster.RemovePeerKeepsHandles | src/react-demo/Demo.tsx:201 | the filter keeps handles matching |
| Roster.ChatOrder | src/react-demo/Demo.tsx:123-127 | an incoming line followed by an outgoing one lands on the entry in that order, at the end of its history |
| DemoPage.Demo.constructor | src/react-demo/Demo.tsx:40-71 | stored key and prompt text or empty strings, no runtime, an empty roster, no error |
| DemoPage.Demo.RuntimeInputsDisabled | src/react-demo/Demo.tsx:175-181 | the rendering rule as written, which EditApiKey evaluates: the key input and Connect to Rainway are enabled exactly without a runtime and outside an initialisation |
| DemoPage.Demo.PeerInputsDisabled | src/react-demo/Demo.tsx:217-222 | the rendering rule as written, which EditPeerId and ConnectToPeer evaluate: the peer id input and Connect to peer are enabled exactly with a runtime and outside an attempt |
| DemoPage.Demo.EditApiKey | src/react-demo/Demo.tsx:174-176 | the key follows the input unless the input is disabled |
| DemoPage.Demo.EditPeerId | src/react-demo/Demo.tsx:215-218 | the prompt follows the input unless the input is disabled |
| DemoPage.Demo.ConnectToRainway | src/react-demo/Demo.tsx:73-153 | with a runtime nothing happens; otherwise the flag is raised then lowered whatever the outcome; on success the listeners close over the current roster and the runtime is kept; on failure there is no runtime |
| DemoPage.Demo.ConnectToPeer | src/react-demo/Demo.tsx:223-244 | `connecting` is raised and then lowered whatever the outcome; only a complete success clears the error; any failure shows its text stripped through "Rainway SDK Error: "; the calls stop at the first failure |
| DemoPage.Demo.TryConnect | src/react-demo/Demo.tsx:225-236 | the try block issues connect, createDataChannel and listStreams in order, stopping at the first failure, whose text it returns |
| DemoPage.Demo.OnPeerStateChanged | src/react-demo/Demo.tsx:94-116 | New applies the update as written (the check against the roster the listeners closed over, the append to the latest one); Failed clears the handles of the peer's entries; other states change nothing; handles stay matched, and Failed and other states keep ids unique if they were |
| DemoPage.Demo.OnPeerNewIntended | src/react-demo/Demo.tsx:100-106 | the corrected New update: the id afterwards has an entry, appended only if the latest roster had none, and unique ids stay unique |
| DemoPage.DuplicateEntryReached | src/react-demo/Demo.tsx:73-153 | from a fresh page, a created runtime and two New events for one peer give two entries with one id |
| DemoPage.Demo.OnChannelMessage | src/react-demo/Demo.tsx:118-129 | an "incoming" line with the exact text is appended to every entry with the peer's id, duplicates included; unique ids stay unique |
| DemoPage.Demo.OnStreamAnnouncement | src/react-demo/Demo.tsx:131-133 | the announcement is appended to every entry with the peer's id; unique ids stay unique |
| DemoPage.Demo.WidgetSendChat | src/react-demo/Demo.tsx:193-198 | without a handle nothing happens; with one an "outgoing" line with the exact text is appended to every entry with its id and the message is sent once |
| DemoPage.Demo.WidgetDisconnect | src/react-demo/Demo.tsx:199-202 | disconnects the entry's peer, if any, and removes every entry with its id, duplicates included, so none is left |
| ToggleWidget.Widget.constructor | src/react-demo/Widget.tsx:25-35 | empty buffer, no request in flight, no stream |
| ToggleWidget.Widget.Offline | src/react-demo/Widget.tsx:26 | offline exactly when there is no peer |
| ToggleWidget.Widget.SendDisabled | src/react-demo/Widget.tsx:132 | the rendering rule as written, which ClickSend evaluates: Send is enabled exactly with a peer and a non-empty buffer |
| ToggleWidget.Widget.ToggleDisabled | src/react-demo/Widget.tsx:91 | the rendering rule as written, which ClickToggle evaluates: Request/Leave is enabled exactly with a peer and no request in flight |
| ToggleWidget.Widget.FullscreenDisabled | src/react-demo/Widget.tsx:85 | the rendering rule as written, which ClickFullscreen evaluates: Fullscreen is enabled exactly with a peer and a stream |
| ToggleWidget.Widget.ToggleLabel | src/react-demo/Widget.tsx:94 | "Leave Stream" with a stream, "Request New Stream" without; ClickToggle's contract states that an enabled click does what the label says (closes the stream, or requests one) |
| ToggleWidget.Widget.EditChat | src/react-demo/Widget.tsx:120-126 | the buffer follows the input unless offline |
| ToggleWidget.Widget.SendChat | src/react-demo/Widget.tsx:29-32 | the buffer is forwarded and then emptied |
| ToggleWidget.Widget.PressEnter | src/react-demo/Widget.tsx:127-129 | when online, Enter forwards the buffer, even an empty one, and empties it; offline nothing happens |
| ToggleWidget.Widget.ClickSend | src/react-demo/Widget.tsx:131-136 | forwards a non-empty buffer when online; otherwise nothing happens |
| ToggleWidget.Widget.ClickToggle | src/react-demo/Widget.tsx:36-47 | with a stream it closes and drops it and issues no request; without one it raises the in-flight flag and requests exactly one stream; a request is never issued while one is in flight; an enabled click does what the button's label says |
| ToggleWidget.Widget.ClickFullscreen | src/react-demo/Widget.tsx:84-89 | a disabled click does nothing; an enabled one happens only with a peer and a stream, and asks exactly that stream to go fullscreen; nothing else changes and the in-flight invariant is kept |
| ToggleWidget.Widget.RequestSettled | src/react-demo/Widget.tsx:48-53 | the in-flight flag is lowered whether the request resolved or threw; the stream is set only from a resolved result |
| ToggleWidget.Widget.StreamStopCountChanged | src/react-demo/Widget.tsx:56-59 | a changed stop count closes and clears the stream; an unchanged one changes nothing |
| ToggleWidget.Widget.PeerChanged | src/react-demo/Widget.tsx:16 | a new peer prop changes only the peer |
| ToggleWidget.Widget.ChooseAnnouncement | src/react-demo/Widget.tsx:98-102 | the announcement is joined, and its stream becomes the widget's if the join resolved |
| RequestWidget.Widget.constructor | src/react-demo/widget.tsx:19-29 | empty buffer, no request in flight, no stream, no stream obtained |
| RequestWidget.Widget.Offline | src/react-demo/widget.tsx:20 | offline exactly when there is no peer |
| RequestWidget.Widget.RequestDisabled | src/react-demo/widget.tsx:52 | the rendering rule as written, which ClickRequest evaluates: Request is enabled exactly with a peer, no stream and no request in flight |
| RequestWidget.Widget.EditChat | src/react-demo/widget.tsx:73-78 | the buffer follows the input unless offline |
| RequestWidget.Widget.SendChat | src/react-demo/widget.tsx:23-26 | the buffer is forwarded and then emptied |
| RequestWidget.Widget.PressEnterOrSend | src/react-demo/widget.tsx:79-88 | Enter and Send forward the buffer exactly when online |
| RequestWidget.Widget.ClickRequest | src/react-demo/widget.tsx:30-35 | an enabled click happens only without a stream or a request in flight, raises the flag and requests exactly one stream; a disabled one changes nothing |
| RequestWidget.Widget.IssueRequest | src/react-demo/widget.tsx:30-35 | from a state with a peer, no stream and no request in flight: logs exactly one stream request and raises the flag, keeping the in-flight invariant |
| RequestWidget.Widget.RequestSettled | src/react-demo/widget.tsx:36-41 | the flag is lowered on success or failure; the stream is assigned only from the result; at most one stream is ever obtained |
| RequestWidget.Widget.PeerChanged | src/react-demo/widget.tsx:14 | a new peer prop changes only the peer |
| ReactRelay.RelayDemo.constructor | src/index-react.tsx:17-29 | peer id and key from the two fallback chains, the minimum log level from `??`, Disconnected, no runtime or peer |
| ReactRelay.RelayDemo.HandleLog | src/index-react.tsx:44-48 | a message is forwarded if and only if its level is at least the minimum |
| ReactRelay.RelayDemo.ConnectDisabled | src/index-react.tsx:149 | the rendering rule as written, which ClickConnect evaluates: Connect is disabled exactly once there is a runtime |
| ReactRelay.RelayDemo.ConnectPeerDisabled | src/index-react.tsx:157 | the rendering rule as written, which ClickConnectToPeer evaluates: Connect to peer is disabled exactly without a runtime |
| ReactRelay.RelayDemo.StartStreamDisabled | src/index-react.tsx:165 | the rendering rule as written, which ClickStartStream evaluates: Start stream is disabled exactly without a peer |
| ReactRelay.RelayDemo.SetUIState | src/index-react.tsx:25 | the state becomes the new one and is recorded; nothing else changes |
| ReactRelay.RelayDemo.ConnectToRelay | src/index-react.tsx:51-126 | ConnectingToRelay first; a runtime is initialised only when there is none and otherwise reused; ConnectedToRelay only after the gateway connect succeeds |
| ReactRelay.RelayDemo.ClickConnect | src/index-react.tsx:148-155 | a click with a runtime does nothing; otherwise it runs connectToRelay |
| ReactRelay.RelayDemo.OnRuntimeConnectionLost | src/index-react.tsx:60-63 | the state returns to Disconnected; the runtime is kept |
| ReactRelay.RelayDemo.ClickConnectToPeer | src/index-react.tsx:156-160 | with a runtime and a convertible id it connects and holds the peer it gets; otherwise, or on rejection, the peer is unchanged |
| ReactRelay.RelayDemo.ClickStartStream | src/index-react.tsx:164-172 | requests a stream from the held peer, and nothing without one |
| ReactRelay.RelayDemo.EditApiKey | src/index-react.tsx:135 | the key follows the input |
| ReactRelay.RelayDemo.EditPeerId | src/index-react.tsx:143 | the peer id follows the input |
| ReactRelay.ReconnectReusesRuntime | src/index-react.tsx:55-121 | connectToRelay's reuse branch: after a first connect that initialised a runtime, a second call issues no further initialisation and keeps that runtime (the Connect button itself is disabled by then) |

## Left out

- The streaming SDK is not modelled. Its objects are opaque handles and its promises are parameters. This covers initialisation, connect, data channels, streams, `readyToStream` and cancellation.
- DOM and React rendering are not modelled: element lookup, template cloning, event listener wiring, JSX layout, and showing or hiding widgets.
- Local storage and the local configuration file are not read. The values read are parameters, with None for an absent value. Persisting the peer id and API key to local storage is not modelled.
- `useLocalStorage` in src/react-demo/util is not part of this model. The Demo component takes the stored values as constructor parameters.
- TextEncoder and TextDecoder are not modelled. Messages are strings.
- Sandbox.StreamWidget: the fullscreen, stats and pause buttons are not modelled. Neither is the removal of a stream container from the page on disconnect or stop.
- Sandbox.StreamWidget.ClickSend: does not check whether the Send button is disabled (a disabled button ignores Enter's `click()`), because which template control is the Send button is not part of the model.
- Sandbox.Nickname: works on Unicode scalar values, while `substring(29)` counts UTF-16 code units; the two differ for text with characters outside the Basic Multilingual Plane before position 29.
- Sandbox.StreamSandbox: the auto-accept of connection requests is not modelled, nor are the callbacks that do nothing (peer error, peer connect, stream announcement).
- Sandbox.StreamSandbox.SetUIState: the outer status text is not modelled, because it includes the runtime's peer id from the SDK.
- The relay controls are modelled as their own array. `document.querySelectorAll` on the page could also reach controls inside widgets if they carried a relay class; the template is assumed not to.
- The sandbox imports `consoleLog` from a shared module that is not part of this model. Its routing is taken to be the one in src/index-react.tsx:32-42.
- Log levels are integers. Debug, Information, Warning and Error are assumed to be ordered as the SDK's enumeration orders them.
- Handles.ParsePeerId: models `BigInt` on decimal text only. Hexadecimal, octal, binary, signs and surrounding whitespace are treated as failures.
- ErrorText.StripLinePrefix and ErrorText.StripThroughMarker model the two regular expressions by their effect on the first matching line, not by a general regular-expression engine.
- ErrorText.StripThroughMarker: its own contract only bounds the length. Its meaning is stated by StripThroughMarkerChanges, StripRulesAgreeOnFirstLine and SingleLineStripLeavesNoMarker.
- The React demo's `peer` event handler awaits `req.accept()` before installing its listeners. That call is not modelled; the handlers start from an accepted peer.
- ReactRelay.RelayDemo: the runtime's `onConnectionRequest` auto-accept (src/index-react.tsx:65-68) is not modelled; the page's calls log holds no accept call.
- ReactRelay.RelayDemo.ClickStartStream: appending the stream's container to the page is not modelled.
- DemoPage.Demo: the Connect to peer button's label and the runtime badge beside the key are not modelled. Their Connecting forms show only while a handler is suspended at an await, which the atomic handlers never expose; the flags' values are kept in the ghost traces instead.
- ToggleWidget.Widget: the Close/Disconnect button's label is not modelled; its click is DemoPage.Demo.WidgetDisconnect.
- RequestWidget.Widget: the Fullscreen button has no click handler (src/react-demo/widget.tsx:50) and is not modelled.
- The React demo's `close` listener only logs, and is not modelled.
- Roster: `streamStopCount` is never incremented, because the code that would do it is commented out (src/react-demo/Demo.tsx:135-145). The Widget effect on it is still modelled.
- The StreamSelector component is not part of this model. Its choice is the `ChooseAnnouncement` parameter.
- Async interleaving is not modelled. Each handler is one atomic step, except the two widget stream requests, which are split at their await into the click and `RequestSettled`. Other overlaps of pending handlers are not modelled.

## Findings

| source | as written | input that shows it | evidently intended | confidence | as-written member | corrected member |
|---|---|---|---|---|---|---|
| src/react-demo/Demo.tsx:100-106 | the PeerState.New handler checks `peers` from the closure of the render that created the runtime, so it never sees later entries | captured roster `[]`, latest roster already holding the peer's entry, then a New event for that peer: the entry is appended a second time and two widgets share one React key | append only if the latest roster (inside the `setPeers` updater) has no entry with the id | not executed | Roster.OnPeerNewAsWritten, Roster.OnPeerNewAsWrittenDuplicates, DemoPage.DuplicateEntryReached | Roster.OnPeerNew, Roster.OnPeerNewKeepsUnique, DemoPage.Demo.OnPeerNewIntended |
