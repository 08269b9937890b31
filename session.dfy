/** The session state of the `App` component (src/App.js) as a value, and
    one transition function per handler. Each handler runs as one atomic
    step. The transport (PeerJS) and camera capture are outside the model:
    the handles they return and the outcome of a capture are inputs, and
    everything the component asks of them is recorded, in order, in
    `requests`. */
module Session {
  import opened Wrappers
  import opened Log

  /** Opaque handles issued by the transport. */
  datatype ConnId = ConnId(n: nat)
  datatype CallId = CallId(n: nat)
  datatype StreamId = StreamId(n: nat)

  /** What the component asks of the transport and of the camera. */
  datatype Request =
    | NewPeer                                              // new Peer()
    | Capture                                              // getUserMedia({video: true, audio: true})
    | Connect(remoteId: string, conn: ConnId)              // peer.connect(remoteId), which returned conn
    | PlaceCall(remoteId: string, stream: StreamId, call: CallId)  // peer.call(remoteId, stream), which returned call
    | Send(conn: ConnId, text: string)                     // connection.send(text)
    | Answer(call: CallId, stream: StreamId)               // call.answer(stream)
    | Close(call: CallId)                                  // call.close()

  /** The component's state: `loading`, `localId`, `remoteId`, `messages`,
      `customMsg` (here `draft`), the refs `currentConnection` and
      `currentCall`, and which handles carry the listeners the handlers
      register (`'data'` on inbound connections, `'close'` on outbound calls). */
  datatype State = State(
    localId: string,
    loading: bool,
    remoteId: string,
    messages: seq<Message>,
    draft: string,
    currentConnection: Option<ConnId>,
    currentCall: Option<CallId>,
    dataListeners: set<ConnId>,
    closeListeners: set<CallId>,
    requests: seq<Request>)

  /** The texts sent on data connections, in request order. */
  function SentTexts(reqs: seq<Request>): (r: seq<string>)
    ensures |r| <= |reqs|
  {
    if reqs == [] then []
    else (if reqs[0].Send? then [reqs[0].text] else []) + SentTexts(reqs[1..])
  }

  /** The calls this endpoint answered or placed. */
  function CallsOf(reqs: seq<Request>): set<CallId>
  {
    if reqs == [] then {}
    else
      (match reqs[0]
       case Answer(c, _) => {c}
       case PlaceCall(_, _, c) => {c}
       case _ => {}) + CallsOf(reqs[1..])
  }

  /** The data connections this endpoint opened itself. */
  function ConnsOf(reqs: seq<Request>): set<ConnId>
  {
    if reqs == [] then {}
    else (if reqs[0].Connect? then {reqs[0].conn} else {}) + ConnsOf(reqs[1..])
  }

  /** How many times local media was requested. */
  function Captures(reqs: seq<Request>): (n: nat)
    ensures n <= |reqs|
  {
    if reqs == [] then 0
    else (if reqs[0].Capture? then 1 else 0) + Captures(reqs[1..])
  }

  lemma {:induction false} SentTextsConcat(a: seq<Request>, b: seq<Request>)
    ensures SentTexts(a + b) == SentTexts(a) + SentTexts(b)
  {
    if a == [] {
      assert a + b == b;
    } else {
      assert (a + b)[0] == a[0];
      assert (a + b)[1..] == a[1..] + b;
      SentTextsConcat(a[1..], b);
      assert SentTexts(a + b) == (if a[0].Send? then [a[0].text] else []) + SentTexts(a[1..] + b);
    }
  }

  lemma {:induction false} CallsOfConcat(a: seq<Request>, b: seq<Request>)
    ensures CallsOf(a + b) == CallsOf(a) + CallsOf(b)
  {
    if a == [] {
      assert a + b == b;
    } else {
      assert (a + b)[1..] == a[1..] + b;
      CallsOfConcat(a[1..], b);
    }
  }

  lemma {:induction false} ConnsOfConcat(a: seq<Request>, b: seq<Request>)
    ensures ConnsOf(a + b) == ConnsOf(a) + ConnsOf(b)
  {
    if a == [] {
      assert a + b == b;
    } else {
      assert (a + b)[1..] == a[1..] + b;
      ConnsOfConcat(a[1..], b);
    }
  }

  lemma {:induction false} CapturesConcat(a: seq<Request>, b: seq<Request>)
    ensures Captures(a + b) == Captures(a) + Captures(b)
  {
    if a == [] {
      assert a + b == b;
    } else {
      assert (a + b)[1..] == a[1..] + b;
      CapturesConcat(a[1..], b);
    }
  }

  /** Each view of a request log distributes over concatenation. */
  lemma RequestsConcat(a: seq<Request>, b: seq<Request>)
    ensures SentTexts(a + b) == SentTexts(a) + SentTexts(b)
    ensures CallsOf(a + b) == CallsOf(a) + CallsOf(b)
    ensures ConnsOf(a + b) == ConnsOf(a) + ConnsOf(b)
    ensures Captures(a + b) == Captures(a) + Captures(b)
  {
    SentTextsConcat(a, b);
    CallsOfConcat(a, b);
    ConnsOfConcat(a, b);
    CapturesConcat(a, b);
  }

  /** What holds in every state the component can reach:
      the log is numbered 1..n; the local messages are exactly the texts
      sent, in the same order; the current call is one this endpoint
      answered or placed; the current connection is one that was accepted
      or opened; close listeners sit only on calls this endpoint placed. */
  predicate Inv(s: State)
  {
    && WellNumbered(s.messages)
    && LocalTexts(s.messages) == SentTexts(s.requests)
    && (s.currentCall.Some? ==> s.currentCall.value in CallsOf(s.requests))
    && (s.currentConnection.Some? ==>
          s.currentConnection.value in s.dataListeners + ConnsOf(s.requests))
    && s.closeListeners <= CallsOf(s.requests)
  }

  /** The state on mount: `useState` defaults, empty refs, and `createPeer`
      has asked for a transport endpoint (src/App.js:9-20, 40). */
  function Init(): (s: State)
    ensures s.loading && s.localId == "" && s.remoteId == ""
    ensures s.messages == [] && s.draft == ""
    ensures s.currentConnection.None? && s.currentCall.None?
    ensures s.dataListeners == {} && s.closeListeners == {}
    ensures s.requests == [NewPeer]
    ensures Inv(s)
  {
    State("", true, "", [], "", None, None, {}, {}, [NewPeer])
  }

  /** The transport's `open` event: the local id is known and loading ends
      (src/App.js:41-44). */
  function OnOpen(s: State, id: string): (r: State)
    ensures r.localId == id && !r.loading
    ensures r == s.(localId := r.localId, loading := r.loading)
  {
    s.(localId := id, loading := false)
  }

  /** The text area's `onChange` (src/App.js:221). */
  function SetCustomMsg(s: State, text: string): (r: State)
    ensures r.draft == text
    ensures r == s.(draft := r.draft)
  {
    s.(draft := text)
  }

  /** The remote-id input's `onChange` (src/App.js:163). */
  function SetRemoteId(s: State, text: string): (r: State)
    ensures r.remoteId == text
    ensures r == s.(remoteId := r.remoteId)
  {
    s.(remoteId := text)
  }

  /** `sendMsg` (src/App.js:113-128): without a connection, or with an empty
      draft, nothing happens; otherwise exactly one send of the draft on the
      current connection, exactly one local message carrying it, and the
      draft is cleared. */
  function SendMsg(s: State): (r: State)
    ensures s.currentConnection.None? ==> r == s
    ensures s.draft == "" ==> r == s
    ensures s.currentConnection.Some? && s.draft != "" ==>
              && r.requests == s.requests + [Send(s.currentConnection.value, s.draft)]
              && |r.messages| == |s.messages| + 1
              && r.messages[..|s.messages|] == s.messages
              && r.messages[|s.messages|] == Message(|s.messages| + 1, Local, s.draft)
              && r.draft == ""
    ensures r == s.(messages := r.messages, draft := r.draft, requests := r.requests)
  {
    match s.currentConnection
    case None => s
    case Some(conn) =>
      if s.draft == "" then s
      else
        s.(requests := s.requests + [Send(conn, s.draft)],
           messages := Append(s.messages, Local, s.draft),
           draft := "")
  }

  /** The transport's `connection` event (src/App.js:47-57): a `data`
      listener goes on the new connection and it replaces the current one;
      the previous connection is not closed (no request is issued). */
  function OnConnection(s: State, conn: ConnId): (r: State)
    ensures r.currentConnection == Some(conn)
    ensures r.dataListeners == s.dataListeners + {conn}
    ensures r.requests == s.requests
    ensures r == s.(currentConnection := r.currentConnection, dataListeners := r.dataListeners)
  {
    s.(currentConnection := Some(conn), dataListeners := s.dataListeners + {conn})
  }

  /** A `data` event on a connection (src/App.js:49-54). Only connections
      accepted through `connection` carry the listener; on any other handle
      the event has no effect. */
  function OnData(s: State, conn: ConnId, data: string): (r: State)
    ensures conn in s.dataListeners ==>
              && |r.messages| == |s.messages| + 1
              && r.messages[..|s.messages|] == s.messages
              && r.messages[|s.messages|] == Message(|s.messages| + 1, Remote, data)
    ensures conn !in s.dataListeners ==> r == s
    ensures r == s.(messages := r.messages)
  {
    if conn in s.dataListeners then s.(messages := Append(s.messages, Remote, data)) else s
  }

  /** The transport's `call` event (src/App.js:60-81). `accept` is the
      user's answer to the confirmation dialog and `capture` what
      `getUserMedia` yields (None: it rejected, which aborts the handler).
      A rejected offer is closed and local media is never requested. */
  function OnCall(s: State, call: CallId, accept: bool, capture: Option<StreamId>): (r: State)
    ensures !accept ==> r.requests == s.requests + [Close(call)] && r.currentCall == s.currentCall
    ensures accept && capture.None? ==>
              r.requests == s.requests + [Capture] && r.currentCall == s.currentCall
    ensures accept && capture.Some? ==>
              r.requests == s.requests + [Capture, Answer(call, capture.value)] &&
              r.currentCall == Some(call)
    ensures r == s.(requests := r.requests, currentCall := r.currentCall)
  {
    if !accept then s.(requests := s.requests + [Close(call)])
    else
      match capture
      case None => s.(requests := s.requests + [Capture])
      case Some(stream) =>
        s.(requests := s.requests + [Capture, Answer(call, stream)], currentCall := Some(call))
  }

  /** `callUser` (src/App.js:84-111): capture local media, open a data
      connection to `remoteId` and make it current, place a call to
      `remoteId` with the captured stream, listen for its `close` and make it
      current. The code checks neither the remote id nor an existing
      session, and registers no `data` listener on the connection it opens.
      If the capture is refused the handler stops after the request. */
  function CallUser(s: State, capture: Option<StreamId>, conn: ConnId, call: CallId): (r: State)
    ensures capture.None? ==> r == s.(requests := s.requests + [Capture])
    ensures capture.Some? ==>
              && r.requests == s.requests +
                   [Capture, Connect(s.remoteId, conn), PlaceCall(s.remoteId, capture.value, call)]
              && r.currentConnection == Some(conn)
              && r.currentCall == Some(call)
              && r.closeListeners == s.closeListeners + {call}
    ensures r == s.(requests := r.requests, currentConnection := r.currentConnection,
                    currentCall := r.currentCall, closeListeners := r.closeListeners)
  {
    match capture
    case None => s.(requests := s.requests + [Capture])
    case Some(stream) =>
      s.(requests := s.requests + [Capture, Connect(s.remoteId, conn), PlaceCall(s.remoteId, stream, call)],
         currentConnection := Some(conn),
         currentCall := Some(call),
         closeListeners := s.closeListeners + {call})
  }

  /** `endCall` (src/App.js:33-37): close the current call if there is one.
      The ref is not cleared, so it still names the closed call. */
  function EndCall(s: State): (r: State)
    ensures s.currentCall.None? ==> r == s
    ensures s.currentCall.Some? ==> r.requests == s.requests + [Close(s.currentCall.value)]
    ensures r.currentCall == s.currentCall
    ensures r == s.(requests := r.requests)
  {
    match s.currentCall
    case None => s
    case Some(c) => s.(requests := s.requests + [Close(c)])
  }

  /** A `close` event on a call (src/App.js:106-108): only calls placed by
      `callUser` carry the listener, which runs `endCall`. */
  function OnCallClose(s: State, call: CallId): (r: State)
    ensures call in s.closeListeners ==> r == EndCall(s)
    ensures call !in s.closeListeners ==> r == s
  {
    if call in s.closeListeners then EndCall(s) else s
  }

  /** Everything that can happen to the component, one variant per handler. */
  datatype Event =
    | Opened(id: string)
    | DraftChanged(text: string)
    | RemoteIdChanged(text: string)
    | SendPressed
    | ConnectionReceived(conn: ConnId)
    | DataReceived(conn: ConnId, data: string)
    | CallReceived(call: CallId, accept: bool, capture: Option<StreamId>)
    | CallPressed(capture: Option<StreamId>, conn: ConnId, call: CallId)
    | EndPressed
    | CallClosed(call: CallId)

  function Step(s: State, e: Event): (r: State)
    ensures s.messages <= r.messages && s.requests <= r.requests
  {
    match e
    case Opened(id) => OnOpen(s, id)
    case DraftChanged(text) => SetCustomMsg(s, text)
    case RemoteIdChanged(text) => SetRemoteId(s, text)
    case SendPressed => SendMsg(s)
    case ConnectionReceived(conn) => OnConnection(s, conn)
    case DataReceived(conn, data) => OnData(s, conn, data)
    case CallReceived(call, accept, capture) => OnCall(s, call, accept, capture)
    case CallPressed(capture, conn, call) => CallUser(s, capture, conn, call)
    case EndPressed => EndCall(s)
    case CallClosed(call) => OnCallClose(s, call)
  }

  /** The messages log and the request log only ever grow: nothing already
      recorded is changed or removed, whatever the events. */
  function Run(s: State, evs: seq<Event>): (r: State)
    ensures s.messages <= r.messages && s.requests <= r.requests
    decreases |evs|
  {
    if evs == [] then s else Run(Step(s, evs[0]), evs[1..])
  }

  /** The views of a log with one more request. */
  lemma AppendOne(reqs: seq<Request>, x: Request)
    ensures SentTexts(reqs + [x]) == SentTexts(reqs) + (if x.Send? then [x.text] else [])
    ensures CallsOf(reqs + [x]) == CallsOf(reqs) +
              (if x.Answer? then {x.call} else if x.PlaceCall? then {x.call} else {})
    ensures ConnsOf(reqs + [x]) == ConnsOf(reqs) + (if x.Connect? then {x.conn} else {})
    ensures Captures(reqs + [x]) == Captures(reqs) + (if x.Capture? then 1 else 0)
  {
    RequestsConcat(reqs, [x]);
    assert [x][1..] == [];
  }

  /** Appending requests that neither send nor establish a call or a
      connection leaves all the request-derived views as they were. */
  lemma QuietRequests(reqs: seq<Request>, extra: seq<Request>)
    requires forall i :: 0 <= i < |extra| ==> extra[i].Capture? || extra[i].Close?
    ensures SentTexts(reqs + extra) == SentTexts(reqs)
    ensures CallsOf(reqs + extra) == CallsOf(reqs)
    ensures ConnsOf(reqs + extra) == ConnsOf(reqs)
  {
    RequestsConcat(reqs, extra);
    QuietViews(extra);
  }

  lemma {:induction false} QuietViews(extra: seq<Request>)
    requires forall i :: 0 <= i < |extra| ==> extra[i].Capture? || extra[i].Close?
    ensures SentTexts(extra) == [] && CallsOf(extra) == {} && ConnsOf(extra) == {}
  {
    if extra != [] {
      QuietViews(extra[1..]);
    }
  }

  lemma SendMsgKeepsInv(s: State)
    requires Inv(s)
    ensures Inv(SendMsg(s))
  {
    if s.currentConnection.Some? && s.draft != "" {
      var req := Send(s.currentConnection.value, s.draft);
      RequestsConcat(s.requests, [req]);
      assert SentTexts([req]) == [s.draft];
      AppendLocalTexts(s.messages, Local, s.draft);
    }
  }

  lemma OnDataKeepsInv(s: State, conn: ConnId, data: string)
    requires Inv(s)
    ensures Inv(OnData(s, conn, data))
  {
    if conn in s.dataListeners {
      AppendLocalTexts(s.messages, Remote, data);
    }
  }

  lemma OnCallKeepsInv(s: State, call: CallId, accept: bool, capture: Option<StreamId>)
    requires Inv(s)
    ensures Inv(OnCall(s, call, accept, capture))
  {
    if !accept {
      QuietRequests(s.requests, [Close(call)]);
    } else if capture.None? {
      QuietRequests(s.requests, [Capture]);
    } else {
      var a := s.requests + [Capture];
      AppendOne(s.requests, Capture);
      AppendOne(a, Answer(call, capture.value));
      assert OnCall(s, call, accept, capture).requests == a + [Answer(call, capture.value)];
    }
  }

  lemma CallUserKeepsInv(s: State, capture: Option<StreamId>, conn: ConnId, call: CallId)
    requires Inv(s)
    ensures Inv(CallUser(s, capture, conn, call))
  {
    if capture.None? {
      QuietRequests(s.requests, [Capture]);
    } else {
      var a := s.requests + [Capture];
      var b := a + [Connect(s.remoteId, conn)];
      AppendOne(s.requests, Capture);
      AppendOne(a, Connect(s.remoteId, conn));
      AppendOne(b, PlaceCall(s.remoteId, capture.value, call));
      assert CallUser(s, capture, conn, call).requests == b + [PlaceCall(s.remoteId, capture.value, call)];
    }
  }

  lemma EndCallKeepsInv(s: State)
    requires Inv(s)
    ensures Inv(EndCall(s))
  {
    if s.currentCall.Some? {
      QuietRequests(s.requests, [Close(s.currentCall.value)]);
    }
  }

  /** Every handler keeps the invariant. */
  lemma StepKeepsInv(s: State, e: Event)
    requires Inv(s)
    ensures Inv(Step(s, e))
  {
    match e
    case SendPressed => SendMsgKeepsInv(s);
    case DataReceived(conn, data) => OnDataKeepsInv(s, conn, data);
    case CallReceived(call, accept, capture) => OnCallKeepsInv(s, call, accept, capture);
    case CallPressed(capture, conn, call) => CallUserKeepsInv(s, capture, conn, call);
    case EndPressed => EndCallKeepsInv(s);
    case CallClosed(call) => EndCallKeepsInv(s);
    case _ =>
  }

  lemma {:induction false} RunKeepsInv(s: State, evs: seq<Event>)
    requires Inv(s)
    ensures Inv(Run(s, evs))
    decreases |evs|
  {
    if evs != [] {
      StepKeepsInv(s, evs[0]);
      RunKeepsInv(Step(s, evs[0]), evs[1..]);
    }
  }

  /** From mount, after any events: message ids are exactly 1..n in append
      order, the log is the replay of its own entries, and the local
      messages are the texts sent, in order. */
  lemma Reachable(evs: seq<Event>)
    ensures var r := Run(Init(), evs);
      && (forall i :: 0 <= i < |r.messages| ==> r.messages[i].id == i + 1)
      && r.messages == Replay(Strip(r.messages))
      && LocalTexts(r.messages) == SentTexts(r.requests)
  {
    var r := Run(Init(), evs);
    RunKeepsInv(Init(), evs);
    NumberedIffReplay(r.messages);
  }

  /** Events that ask for local media: an accepted offer or the call button. */
  function MediaEvents(evs: seq<Event>): (n: nat)
    ensures n <= |evs|
  {
    if evs == [] then 0
    else
      (if (evs[0].CallReceived? && evs[0].accept) || evs[0].CallPressed? then 1 else 0)
      + MediaEvents(evs[1..])
  }

  lemma OnCallCaptures(s: State, call: CallId, accept: bool, capture: Option<StreamId>)
    ensures Captures(OnCall(s, call, accept, capture).requests) ==
            Captures(s.requests) + (if accept then 1 else 0)
  {
    if !accept {
      AppendOne(s.requests, Close(call));
    } else if capture.None? {
      AppendOne(s.requests, Capture);
    } else {
      var a := s.requests + [Capture];
      AppendOne(s.requests, Capture);
      AppendOne(a, Answer(call, capture.value));
      assert OnCall(s, call, accept, capture).requests == a + [Answer(call, capture.value)];
    }
  }

  lemma CallUserCaptures(s: State, capture: Option<StreamId>, conn: ConnId, call: CallId)
    ensures Captures(CallUser(s, capture, conn, call).requests) == Captures(s.requests) + 1
  {
    AppendOne(s.requests, Capture);
    if capture.Some? {
      var a := s.requests + [Capture];
      var b := a + [Connect(s.remoteId, conn)];
      AppendOne(a, Connect(s.remoteId, conn));
      AppendOne(b, PlaceCall(s.remoteId, capture.value, call));
      assert CallUser(s, capture, conn, call).requests == b + [PlaceCall(s.remoteId, capture.value, call)];
    }
  }

  lemma StepCaptures(s: State, e: Event)
    ensures Captures(Step(s, e).requests) ==
            Captures(s.requests) + (if (e.CallReceived? && e.accept) || e.CallPressed? then 1 else 0)
  {
    match e
    case SendPressed =>
      if s.currentConnection.Some? && s.draft != "" {
        AppendOne(s.requests, Send(s.currentConnection.value, s.draft));
      }
    case CallReceived(call, accept, capture) => OnCallCaptures(s, call, accept, capture);
    case CallPressed(capture, conn, call) => CallUserCaptures(s, capture, conn, call);
    case EndPressed =>
      if s.currentCall.Some? {
        AppendOne(s.requests, Close(s.currentCall.value));
      }
    case CallClosed(call) =>
      if call in s.closeListeners && s.currentCall.Some? {
        AppendOne(s.requests, Close(s.currentCall.value));
      }
    case _ =>
  }

  /** Local media is requested once per accepted offer or call button press
      and never otherwise: in particular a rejected offer never touches the
      camera. */
  lemma {:induction false} RunCaptures(s: State, evs: seq<Event>)
    ensures Captures(Run(s, evs).requests) == Captures(s.requests) + MediaEvents(evs)
    decreases |evs|
  {
    if evs != [] {
      StepCaptures(s, evs[0]);
      RunCaptures(Step(s, evs[0]), evs[1..]);
    }
  }

  /** The connections announced by `connection` events. */
  function InboundConns(evs: seq<Event>): set<ConnId>
  {
    if evs == [] then {}
    else (if evs[0].ConnectionReceived? then {evs[0].conn} else {}) + InboundConns(evs[1..])
  }

  /** `data` listeners are registered by the `connection` handler and by
      nothing else: after any events, the connections whose payloads reach
      the log are those that were there before plus those announced inbound.
      A connection opened by `callUser` is not among them unless the
      transport also announced it. */
  lemma {:induction false} RunDataListeners(s: State, evs: seq<Event>)
    ensures Run(s, evs).dataListeners == s.dataListeners + InboundConns(evs)
    decreases |evs|
  {
    if evs != [] {
      RunDataListeners(Step(s, evs[0]), evs[1..]);
    }
  }

  /** The connection `callUser` opens becomes current, yet a payload arriving
      on it is not logged, because no `data` listener is attached to it
      (src/App.js:91-95). */
  lemma OutboundConnectionIsDeaf(s: State, stream: StreamId, conn: ConnId, call: CallId, data: string)
    requires conn !in s.dataListeners
    ensures var r := CallUser(s, Some(stream), conn, call);
      r.currentConnection == Some(conn) && OnData(r, conn, data) == r
  {
  }

  /** The `close` listener of a placed call runs `endCall`, which closes
      whatever call is current when the event arrives: after a later offer
      was accepted, that is the accepted call (src/App.js:33-37, 106-108). */
  lemma EarlierCallCloseEndsCurrent(s: State, st: StreamId, conn: ConnId, placed: CallId,
                                    offered: CallId, st2: StreamId)
    ensures var a := CallUser(s, Some(st), conn, placed);
      var b := OnCall(a, offered, true, Some(st2));
      var r := OnCallClose(b, placed);
      && r.requests == b.requests + [Close(offered)]
      && r.currentCall == Some(offered)
  {
  }
}
