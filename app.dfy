/** The `App` component itself: its state hooks and refs as fields, and its
    handlers as methods that update them in place. Each method is specified
    by the matching transition function of `Session`, and every method keeps
    the invariant `Session.Inv`. */
module AppComponent {
  import opened Wrappers
  import opened Log
  import opened Session

  class App {
    var localId: string                     // useState('') — src/App.js:11
    var loading: bool                       // useState(true) — src/App.js:9
    var remoteId: string                    // useState('') — src/App.js:12
    var messages: seq<Message>              // useState([]) — src/App.js:14
    var draft: string                       // customMsg, useState('') — src/App.js:15
    var currentConnection: Option<ConnId>   // useRef() — src/App.js:18
    var currentCall: Option<CallId>         // useRef() — src/App.js:17
    var dataListeners: set<ConnId>          // connections with a 'data' listener
    var closeListeners: set<CallId>         // calls with a 'close' listener
    var requests: seq<Request>              // what was asked of transport and camera

    /** The component's state as a value. */
    function Snapshot(): State
      reads this
    {
      State(localId, loading, remoteId, messages, draft, currentConnection, currentCall,
            dataListeners, closeListeners, requests)
    }

    ghost predicate Valid()
      reads this
    {
      Inv(Snapshot())
    }

    /** Mount: the initial hook values, then `createPeer` (src/App.js:25-26, 39-40). */
    constructor ()
      ensures Valid() && Snapshot() == Init()
    {
      localId, loading, remoteId := "", true, "";
      messages, draft := [], "";
      currentConnection, currentCall := None, None;
      dataListeners, closeListeners := {}, {};
      requests := [NewPeer];
    }

    method HandleOpen(id: string)
      requires Valid()
      modifies this
      ensures Valid() && Snapshot() == OnOpen(old(Snapshot()), id)
    {
      localId := id;
      loading := false;
    }

    method SetCustomMsgInput(text: string)
      requires Valid()
      modifies this
      ensures Valid() && Snapshot() == SetCustomMsg(old(Snapshot()), text)
    {
      draft := text;
    }

    method SetRemoteIdInput(text: string)
      requires Valid()
      modifies this
      ensures Valid() && Snapshot() == SetRemoteId(old(Snapshot()), text)
    {
      remoteId := text;
    }

    method SendMsg()
      requires Valid()
      modifies this
      ensures Valid() && Snapshot() == Session.SendMsg(old(Snapshot()))
    {
      SendMsgKeepsInv(Snapshot());
      if currentConnection.None? {
        return;
      }
      if draft == "" {
        return;
      }
      requests := requests + [Send(currentConnection.value, draft)];
      messages := Append(messages, Local, draft);
      draft := "";
    }

    method HandleConnection(conn: ConnId)
      requires Valid()
      modifies this
      ensures Valid() && Snapshot() == OnConnection(old(Snapshot()), conn)
    {
      dataListeners := dataListeners + {conn};
      currentConnection := Some(conn);
    }

    method HandleData(conn: ConnId, data: string)
      requires Valid()
      modifies this
      ensures Valid() && Snapshot() == OnData(old(Snapshot()), conn, data)
    {
      OnDataKeepsInv(Snapshot(), conn, data);
      if conn in dataListeners {
        messages := Append(messages, Remote, data);
      }
    }

    /** `accept` stands for `window.confirm`, `capture` for the outcome of
        `getUserMedia` (None when it rejects). */
    method HandleCall(call: CallId, accept: bool, capture: Option<StreamId>)
      requires Valid()
      modifies this
      ensures Valid() && Snapshot() == OnCall(old(Snapshot()), call, accept, capture)
    {
      OnCallKeepsInv(Snapshot(), call, accept, capture);
      ghost var before := requests;
      if accept {
        requests := requests + [Capture];
        if capture.None? {
          return;
        }
        var stream := capture.value;
        requests := requests + [Answer(call, stream)];
        currentCall := Some(call);
        assert requests == before + [Capture, Answer(call, stream)];
      } else {
        requests := requests + [Close(call)];
      }
    }

    /** `capture` is the outcome of `getUserMedia`; `conn` and `call` are
        the handles `peer.connect` and `peer.call` return. */
    method CallUser(capture: Option<StreamId>, conn: ConnId, call: CallId)
      requires Valid()
      modifies this
      ensures Valid() && Snapshot() == Session.CallUser(old(Snapshot()), capture, conn, call)
    {
      CallUserKeepsInv(Snapshot(), capture, conn, call);
      ghost var before := requests;
      requests := requests + [Capture];
      if capture.None? {
        return;
      }
      var stream := capture.value;
      requests := requests + [Connect(remoteId, conn)];
      currentConnection := Some(conn);
      requests := requests + [PlaceCall(remoteId, stream, call)];
      closeListeners := closeListeners + {call};
      currentCall := Some(call);
      assert requests == before + [Capture, Connect(remoteId, conn), PlaceCall(remoteId, stream, call)];
    }

    method EndCall()
      requires Valid()
      modifies this
      ensures Valid() && Snapshot() == Session.EndCall(old(Snapshot()))
    {
      EndCallKeepsInv(Snapshot());
      if currentCall.Some? {
        requests := requests + [Close(currentCall.value)];
      }
    }

    method HandleCallClose(call: CallId)
      requires Valid()
      modifies this
      ensures Valid() && Snapshot() == OnCallClose(old(Snapshot()), call)
    {
      if call in closeListeners {
        EndCall();
      }
    }
  }
}
