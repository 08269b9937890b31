# Peer-to-peer video chat: session state of the `App` component

This project models the session state of the `App` component in `src/App.js`.
The component is a browser client that gets a rendezvous id from PeerJS. It
accepts or opens one data connection for text messages and one media call for
audio and video.

The model is an event-driven state machine. Each handler of the component
runs as one atomic step:

- the transport `open` event;
- the text-area and remote-id inputs;
- `sendMsg`;
- the transport `connection` event;
- a connection's `data` event;
- the transport `call` event, with the user's answer to `window.confirm`;
- `callUser`;
- `endCall`;
- the `close` event of a placed call.

In the model, PeerJS and the camera are a log of requests and nothing more.
The log records `new Peer`, `getUserMedia`, `connect`, `call`, `send`,
`answer` and `close`. The handles these calls return are inputs to the
handler. So is the outcome of a capture: `None` means the promise rejected.

- `wrappers.dfy`: `Option`, standing for a ref that may be empty.
- `log.dfy` (module `Log`): the message log and its pure append updater.
  It proves that ids are exactly `1..n` in append order.
- `session.dfy` (module `Session`): the component's state as a value, with one
  transition function per handler. It also has `Step`/`Run` over event
  sequences, the invariant `Inv`, and lemmas over whole runs.
- `app.dfy` (module `AppComponent`): class `App`. Its fields are the hooks and
  refs, and its methods are the handlers, updating the fields in place. Each
  method's new state equals the matching `Session` function applied to the old
  state, and every method keeps `Inv`.

Behaviour of the code that the model keeps as written:

- `callUser` does not check the remote id.
- `callUser` does not check for a session in progress. It overwrites both
  refs without closing what they held.
- An inbound `connection` replaces the current connection without closing the
  old one. The old one keeps its `data` listener, so its payloads are still
  logged.
- Only inbound connections get a `data` listener. The connection that
  `callUser` opens has none, so payloads arriving on it are never logged
  (`Session.OutboundConnectionIsDeaf`, `Session.RunDataListeners`).
- Only calls placed by `callUser` get a `close` listener, which runs `endCall`.
  An answered call has none.
- `endCall` never clears `currentCall`.
- There is no identity-not-ready check. `loading` and `localId` only feed the
  view.
- `sendMsg` with no connection only shows a warning and returns
  (src/App.js:115-118): no error value reaches the caller.
- `endCall` closes the call and nothing more (src/App.js:33-37): it releases no
  stream and issues no data-connection close.
- A `close` event on a call placed earlier runs `endCall`, which closes
  whatever call is current at that moment. That may be a call answered later
  (`Session.EarlierCallCloseEndsCurrent`).

## Model

| member | source | states |
|---|---|---|
| Log.Append | src/App.js:50-53 | the updater keeps the old log as a prefix and adds exactly one entry, whose id is the old length plus one and which carries the given origin and data; numbering 1..n is preserved |
| Log.Replay | src/App.js:14 | applying the updater once per entry to the initial empty log gives a log as long as the entry list |
| Log.ReplayAt | src/App.js:123-126 | in a replayed log, the i-th message has id i+1 and the i-th entry's origin and text |
| Log.NumberedIffReplay | src/App.js:50-53 | a log has ids exactly 1..n if and only if it equals the replay of its own entries |
| Log.NumberedIdsIncrease | src/App.js:52 | a direct consequence of the numbering: ids strictly increase along a numbered log |
| Log.LocalTexts | src/App.js:125 | the view of a log that the send-matching invariant is built on: the texts of the local messages, in log order; its own contract only bounds its length |
| Log.LocalTextsConcat | src/App.js:123-126 | the local texts of a concatenation are the concatenation of the local texts |
| Log.AppendLocalTexts | src/App.js:123-126 | appending a local message adds its text to the local texts; appending a remote message leaves them unchanged |
| Session.SentTexts | src/App.js:122 | the view of the request log that the send-matching invariant is built on: the texts passed to `send`, in order; its own contract only bounds its length |
| Session.Captures | src/App.js:63 | the view of the request log that `RunCaptures` is built on: how many `getUserMedia` requests were made; its own contract only bounds it |
| Session.RequestsConcat | src/App.js:122 | a fact about the request log: its sent texts, established calls, opened connections and capture count distribute over concatenation |
| Session.AppendOne | src/App.js:98 | a fact about the request log: what one more request adds to each of its views |
| Session.QuietRequests | src/App.js:78 | a fact about the request log: appending only capture and close requests sends nothing and establishes no call or connection |
| Session.QuietViews | src/App.js:35 | a fact about the request log: a log of only capture and close requests has no sends, calls or connections |
| Session.Init | src/App.js:9-20 | on mount: loading, empty ids, empty log and draft, both refs empty, no listeners, one `new Peer` request, and the invariant holds |
| Session.OnOpen | src/App.js:41-44 | the local id becomes the given id and loading ends; nothing else changes |
| Session.SetCustomMsg | src/App.js:221 | the draft becomes the typed text; nothing else changes |
| Session.SetRemoteId | src/App.js:163 | the remote id becomes the typed text; nothing else changes |
| Session.SendMsg | src/App.js:113-128 | no connection, or an empty draft: the state is unchanged. Otherwise: exactly one send of the draft on the current connection, exactly one local message with id length+1 appended after the untouched old log, and the draft cleared. Nothing else changes |
| Session.OnConnection | src/App.js:47-57 | the new connection becomes current and gets a `data` listener; no request is issued, so the previous connection is not closed; nothing else changes |
| Session.OnData | src/App.js:49-54 | on a connection with a listener: exactly one remote message with the payload and id length+1, after the untouched old log. On any other handle: no change |
| Session.OnCall | src/App.js:60-81 | rejected: only a close of the offered call is requested, with no capture, and `currentCall` is unchanged. Accepted with the capture refused: only the capture request. Accepted: capture, then answer with that stream, and `currentCall` becomes the call. Nothing else changes |
| Session.CallUser | src/App.js:84-111 | capture refused: only the capture request. Otherwise: capture, connect to `remoteId`, call `remoteId` with the stream, in that order, with no check on the id or on an existing session. The new connection and the new call become current and the call gets a `close` listener; the data listeners stay unchanged |
| Session.EndCall | src/App.js:33-37 | no current call: no change. Otherwise: exactly one close request on it. `currentCall` keeps pointing at it and nothing else changes |
| Session.OnCallClose | src/App.js:106-108 | a close event on a placed call runs `endCall`; on any other call it changes nothing |
| Session.Step | src/App.js:39-128 | no handler removes or alters a logged message or a recorded request |
| Session.Run | src/App.js:39-128 | after any sequence of events, the old message log and request log are prefixes of the new ones |
| Session.SendMsgKeepsInv | src/App.js:113-128 | `sendMsg` keeps the invariant: numbered log, local messages equal to the sent texts, refs pointing at established handles |
| Session.OnDataKeepsInv | src/App.js:49-54 | the `data` handler keeps the invariant |
| Session.OnCallKeepsInv | src/App.js:60-81 | the `call` handler keeps the invariant in all three branches |
| Session.CallUserKeepsInv | src/App.js:84-111 | `callUser` keeps the invariant whether or not the capture succeeds |
| Session.EndCallKeepsInv | src/App.js:33-37 | `endCall` keeps the invariant |
| Session.StepKeepsInv | src/App.js:33-128 | every handler keeps the invariant |
| Session.RunKeepsInv | src/App.js:33-128 | every sequence of events keeps the invariant |
| Session.Reachable | src/App.js:50-53 | from mount, after any events: message ids are exactly 1..n in append order; the log is the replay of its entries; the local messages are exactly the texts sent, in the same order |
| Session.MediaEvents | src/App.js:61 | the view of an event sequence that `RunCaptures` is built on: accepted offers plus call presses; its own contract only bounds it |
| Session.RunCaptures | src/App.js:61-63 | over any events, local media is requested once per accepted offer or `callUser` run and never otherwise; a rejected offer never touches the camera |
| Session.RunDataListeners | src/App.js:47-57 | after any events, the connections whose payloads are logged are those before plus those announced by `connection` events |
| Session.OutboundConnectionIsDeaf | src/App.js:91-95 | the connection `callUser` opens becomes current, but a payload on it leaves the state unchanged |
| Session.EarlierCallCloseEndsCurrent | src/App.js:106-108 | after `callUser` places one call and a later offer is accepted, a `close` event on the placed call closes the accepted one, which stays current |
| AppComponent.App.constructor | src/App.js:9-26 | the fields start as `Session.Init` and the invariant holds |
| AppComponent.App.HandleOpen | src/App.js:41-44 | the fields are updated as `Session.OnOpen` |
| AppComponent.App.SetCustomMsgInput | src/App.js:221 | the fields are updated as `Session.SetCustomMsg` |
| AppComponent.App.SetRemoteIdInput | src/App.js:163 | the fields are updated as `Session.SetRemoteId` |
| AppComponent.App.SendMsg | src/App.js:113-128 | the fields are updated as `Session.SendMsg` and the invariant is kept |
| AppComponent.App.HandleConnection | src/App.js:47-57 | the fields are updated as `Session.OnConnection` |
| AppComponent.App.HandleData | src/App.js:49-54 | the fields are updated as `Session.OnData` and the invariant is kept |
| AppComponent.App.HandleCall | src/App.js:60-81 | the fields are updated as `Session.OnCall` and the invariant is kept |
| AppComponent.App.CallUser | src/App.js:84-111 | the fields are updated as `Session.CallUser` and the invariant is kept |
| AppComponent.App.EndCall | src/App.js:33-37 | the fields are updated as `Session.EndCall` and the invariant is kept |
| AppComponent.App.HandleCallClose | src/App.js:106-108 | the fields are updated as `Session.OnCallClose` |

## Left out

- JSX rendering, antd widgets, and the `message.info`/`message.warn`/`alert` toasts (src/App.js:151-238). These are presentation only. The warning that `sendMsg` shows when there is no connection is not modelled; the state is unchanged.
- The `myVideo`/`uVideo` toggles (src/App.js:141-148). These are presentation state. The model assumes both video elements are mounted. While the local one is hidden, its ref is empty, so in the code assigning `srcObject` would throw after the capture and abort the handler. The model does not capture that.
- `handleCopyClick` and the clipboard helper (src/App.js:129-140): clipboard I/O.
- PeerJS and `getUserMedia` internals. Each call is a `Request` in the log. The handles they return and the capture outcome are inputs.
- Attaching streams with `srcObject`/`play()`, and the `stream` listeners (src/App.js:64-65, 71-74, 87-88, 99-102). This is media I/O with no effect on the modelled state.
- The outbound connection's `open` listener (src/App.js:93-95) only shows a toast. The call `error` listener (src/App.js:103-105) only logs.
- `async`/`await` interleavings and React's batching of state updates. Each handler is one atomic step.
- Unmount cleanup (src/App.js:28-30) just calls `endCall`, which `EndCall` models.
- Listener registration is a set of handles. The model assumes the transport hands out a distinct handle for each `connection` and `call` event. In the code, announcing the same object twice would register two listeners.
- Remote payloads are modelled as text. A `data` event (src/App.js:49) hands over whatever the peer sent, and only this app's own `sendMsg` guarantees it is a string.
