/**
 * The single-peer WebSocket bridge to the RemNote plugin: one client slot, a
 * table of requests awaiting their response, and the callbacks run on connect
 * and disconnect. Every socket event, timer expiry and close is one atomic
 * step, as on Node's single event loop. The random request id, a failing
 * `send`, and the remote side's closing handshake are inputs.
 */
module WebSocketBridge {
  import opened Wrappers
  import opened Json
  import opened JsText
  import opened Bridge

  /** The per-request timeout, in milliseconds; its expiry is the `FireTimeout` event. */
  const RequestTimeoutMs := 5000
  /** Close code 1008, "policy violation" (section 7.4.1 of RFC 6455). */
  const PolicyViolation := 1008
  const OnlyOneClient := "Only one client allowed"
  const NotConnectedMessage := "RemNote plugin not connected. Please ensure the plugin is installed and running."

  datatype ReadyState = Open | Closing | Closed

  /** The arguments of a `close` call on a socket; `close()` gives no code and no reason. */
  datatype CloseRequest = CloseRequest(code: Option<int>, reason: string)

  /** Why a call was rejected. */
  datatype Failure =
    | NotConnected
    | Timeout(action: string)
    | ConnectionLost
    | Remote(error: string)
    | SendFailed(thrown: string)

  /** The `message` of the `Error` each rejection carries. */
  function FailureMessage(f: Failure): (m: string)
    ensures f.Timeout? ==> m == "Request timeout: " + f.action
    ensures f.Remote? ==> m == f.error
  {
    match f
    case NotConnected => NotConnectedMessage
    case Timeout(action) => "Request timeout: " + action
    case ConnectionLost => "Connection lost"
    case Remote(error) => error
    case SendFailed(thrown) => thrown
  }

  datatype Outcome = Resolved(result: Option<Value>) | Rejected(failure: Failure)

  /** One request settled: its id and how. */
  datatype Settlement = Settlement(id: string, outcome: Outcome)

  /** What `sendRequest` hands back: a call already settled, or one awaiting its response. */
  datatype Call = Settled(outcome: Outcome) | Awaiting(id: string)

  /**
   * The callbacks `forEach(cb => cb())` runs when the one at `throwsAt`, if
   * any, throws: every one up to and including it, in order, and none after.
   */
  function Notified(callbacks: seq<nat>, throwsAt: Option<nat>): (run: seq<nat>)
    ensures throwsAt.None? || throwsAt.value >= |callbacks| ==> run == callbacks
    ensures throwsAt.Some? && throwsAt.value < |callbacks| ==>
      |run| == throwsAt.value + 1 && run[|run| - 1] == callbacks[throwsAt.value]
    ensures run <= callbacks
  {
    if throwsAt.Some? && throwsAt.value < |callbacks| then callbacks[..throwsAt.value + 1] else callbacks
  }

  /** An entry of the pending table; the resolve/reject pair and the timer are the table entry itself. */
  datatype Pending = Pending(action: string)

  /** How a response frame settles its request: a truthy `error` rejects, anything else resolves with `result`. */
  function Answer(result: Option<Value>, error: Option<string>): (o: Outcome)
    ensures o.Rejected? <==> Truthy(error)
    ensures o.Rejected? ==> o.failure == Remote(error.value)
    ensures o.Resolved? ==> o.result == result
  {
    if Truthy(error) then Rejected(Remote(error.value)) else Resolved(result)
  }

  /** The ids the log settles. */
  function SettledIds(log: seq<Settlement>): (ids: set<string>)
    ensures forall i :: 0 <= i < |log| ==> log[i].id in ids
  {
    if log == [] then {} else SettledIds(Prefix(log)) + {Last(log).id}
  }

  function Prefix(log: seq<Settlement>): seq<Settlement>
    requires log != []
  {
    log[..|log| - 1]
  }

  function Last(log: seq<Settlement>): Settlement
    requires log != []
  {
    log[|log| - 1]
  }

  /** No id occurs twice in the log: each settlement is for an id not settled before it. */
  predicate SettledOnce(log: seq<Settlement>)
  {
    log == [] || (SettledOnce(Prefix(log)) && Last(log).id !in SettledIds(Prefix(log)))
  }

  /** Appending one settlement for an id not yet settled keeps the log free of repeats. */
  lemma SettleOne(log: seq<Settlement>, s: Settlement)
    requires SettledOnce(log) && s.id !in SettledIds(log)
    ensures SettledOnce(log + [s])
    ensures SettledIds(log + [s]) == SettledIds(log) + {s.id}
  {
    assert Prefix(log + [s]) == log;
  }

  /** A log without repeats holds one settlement per settled id. */
  lemma {:induction false} SettledOnceCount(log: seq<Settlement>)
    requires SettledOnce(log)
    ensures |log| == |SettledIds(log)|
  {
    if log != [] {
      SettledOnceCount(Prefix(log));
    }
  }

  /**
   * The sweep of the close handler: one "Connection lost" rejection for each
   * id of the table, each exactly once.
   */
  method RejectAll(ids: set<string>) returns (swept: seq<Settlement>)
    ensures SettledIds(swept) == ids && SettledOnce(swept)
    ensures forall i :: 0 <= i < |swept| ==> swept[i].outcome == Rejected(ConnectionLost)
  {
    swept := [];
    var remaining := ids;
    while remaining != {}
      invariant remaining <= ids
      invariant SettledIds(swept) == ids - remaining
      invariant SettledOnce(swept)
      invariant forall i :: 0 <= i < |swept| ==> swept[i].outcome == Rejected(ConnectionLost)
      decreases remaining
    {
      var id :| id in remaining;
      var s := Settlement(id, Rejected(ConnectionLost));
      SettleOne(swept, s);
      swept := swept + [s];
      remaining := remaining - {id};
    }
  }

  /** A socket, as far as the bridge sees it. */
  class Peer {
    var readyState: ReadyState
    /** Every frame written to this socket, in order. */
    var sent: seq<OutFrame>
    /** How this side started the closing handshake, if it did. */
    var closedWith: Option<CloseRequest>

    /** A socket is handed to the `connection` handler once its opening handshake is done. */
    constructor ()
      ensures readyState == Open && sent == [] && closedWith == None
    {
      readyState := Open;
      sent := [];
      closedWith := None;
    }

    method Send(f: OutFrame)
      modifies this
      ensures sent == old(sent) + [f]
      ensures readyState == old(readyState) && closedWith == old(closedWith)
    {
      sent := sent + [f];
    }

    /** `close(code, reason)`: an open socket starts its closing handshake; otherwise nothing happens. */
    method Close(code: Option<int>, reason: string)
      modifies this
      ensures old(readyState) == Open ==> readyState == Closing && closedWith == Some(CloseRequest(code, reason))
      ensures old(readyState) != Open ==> readyState == old(readyState) && closedWith == old(closedWith)
      ensures sent == old(sent)
    {
      if readyState == Open {
        readyState := Closing;
        closedWith := Some(CloseRequest(code, reason));
      }
    }

    /** The remote side starts the closing handshake. */
    method RemoteClosing()
      modifies this
      ensures readyState == (if old(readyState) == Open then Closing else old(readyState))
      ensures sent == old(sent) && closedWith == old(closedWith)
    {
      if readyState == Open {
        readyState := Closing;
      }
    }
  }

  class WebSocketServer {
    const port: int
    /** `wss !== null`. */
    var listening: bool
    var client: Peer?
    /**
     * The sockets whose message and close handlers are installed and whose
     * close event has not yet fired. The client is usually one of them, but
     * not when a connect callback threw before the handlers were attached.
     */
    var accepted: set<Peer>
    var pendingRequests: map<string, Pending>
    var connectCallbacks: seq<nat>
    var disconnectCallbacks: seq<nat>
    /** Every request id ever put in the table. */
    ghost var issued: set<string>
    /** Every request id that entered the table and has been settled since. */
    ghost var settledIds: set<string>

    /**
     * Every id ever issued is either still pending or already settled, never both. Since an id is
     * settled only while pending, and leaves the table as it is settled, no
     * call is settled twice.
     */
    ghost predicate Valid()
      reads this
    {
      && pendingRequests.Keys !! settledIds
      && issued == pendingRequests.Keys + settledIds
    }

    constructor (port: int)
      ensures Valid()
      ensures this.port == port && !listening && client == null && accepted == {}
      ensures pendingRequests == map[] && connectCallbacks == [] && disconnectCallbacks == []
      ensures issued == {} && settledIds == {}
    {
      this.port := port;
      listening := false;
      client := null;
      accepted := {};
      pendingRequests := map[];
      connectCallbacks := [];
      disconnectCallbacks := [];
      issued := {};
      settledIds := {};
    }

    /** `start`: the listening socket exists from here on (binding errors are not modelled). */
    method Start()
      requires Valid()
      modifies this
      ensures Valid() && listening
      ensures client == old(client) && accepted == old(accepted) && pendingRequests == old(pendingRequests)
      ensures connectCallbacks == old(connectCallbacks) && disconnectCallbacks == old(disconnectCallbacks)
      ensures issued == old(issued) && settledIds == old(settledIds)
    {
      listening := true;
    }

    function IsConnected(): (b: bool)
      reads this, client
      ensures b ==> client != null
    {
      client != null && client.readyState == Open
    }

    method OnClientConnect(callback: nat)
      requires Valid()
      modifies this
      ensures Valid()
      ensures connectCallbacks == old(connectCallbacks) + [callback]
      ensures disconnectCallbacks == old(disconnectCallbacks) && listening == old(listening)
      ensures client == old(client) && accepted == old(accepted) && pendingRequests == old(pendingRequests)
      ensures issued == old(issued) && settledIds == old(settledIds)
    {
      connectCallbacks := connectCallbacks + [callback];
    }

    method OnClientDisconnect(callback: nat)
      requires Valid()
      modifies this
      ensures Valid()
      ensures disconnectCallbacks == old(disconnectCallbacks) + [callback]
      ensures connectCallbacks == old(connectCallbacks) && listening == old(listening)
      ensures client == old(client) && accepted == old(accepted) && pendingRequests == old(pendingRequests)
      ensures issued == old(issued) && settledIds == old(settledIds)
    {
      disconnectCallbacks := disconnectCallbacks + [callback];
    }

    /**
     * The `connection` event. While the current client is OPEN the newcomer
     * is closed with 1008 and nothing else changes. Otherwise the newcomer
     * takes the slot and the connect callbacks run in order (their handles
     * are returned in the order they run). `throwsAt` is the position of the
     * first callback that throws, if any: the callbacks after it do not run,
     * and the handlers are never attached, so the newcomer holds the slot
     * without being an accepted socket.
     */
    method OnConnection(ws: Peer, throwsAt: Option<nat>) returns (notified: seq<nat>)
      requires Valid() && ws !in accepted && ws.readyState == Open
      modifies this, ws
      ensures Valid()
      ensures old(IsConnected()) ==>
        && ws.closedWith == Some(CloseRequest(Some(PolicyViolation), OnlyOneClient))
        && ws.readyState == Closing
        && client == old(client) && accepted == old(accepted) && notified == []
      ensures !old(IsConnected()) ==>
        && client == ws && notified == Notified(connectCallbacks, throwsAt)
        && ws.readyState == old(ws.readyState) && ws.closedWith == old(ws.closedWith)
      ensures !old(IsConnected()) && (throwsAt.None? || throwsAt.value >= |connectCallbacks|) ==>
        accepted == old(accepted) + {ws}
      ensures !old(IsConnected()) && throwsAt.Some? && throwsAt.value < |connectCallbacks| ==>
        accepted == old(accepted)
      ensures ws.sent == old(ws.sent)
      ensures pendingRequests == old(pendingRequests) && issued == old(issued) && settledIds == old(settledIds)
      ensures connectCallbacks == old(connectCallbacks) && disconnectCallbacks == old(disconnectCallbacks)
      ensures listening == old(listening)
    {
      if client != null && client.readyState == Open {
        ws.Close(Some(PolicyViolation), OnlyOneClient);
        notified := [];
        return;
      }
      client := ws;
      notified := Notified(connectCallbacks, throwsAt);
      if throwsAt.None? || throwsAt.value >= |connectCallbacks| {
        accepted := accepted + {ws};
      }
    }

    /**
     * `sendRequest(action, payload)` with `id` the fresh random id and
     * `sendError` the error `send` throws, if it does. Without an OPEN
     * client the call fails at once and nothing changes. Otherwise the id
     * enters the table and the envelope is written; when the write throws,
     * the entry is removed again and the call is rejected with the error.
     */
    method SendRequest(action: string, payload: map<string, Value>, id: string, sendError: Option<string>)
      returns (r: Call)
      requires Valid() && id !in issued
      modifies this, client
      ensures Valid()
      ensures client == old(client) && accepted == old(accepted) && listening == old(listening)
      ensures !old(IsConnected()) ==>
        && r == Settled(Rejected(NotConnected))
        && pendingRequests == old(pendingRequests) && issued == old(issued) && settledIds == old(settledIds)
      ensures old(IsConnected()) && sendError.None? ==>
        && r == Awaiting(id)
        && pendingRequests == old(pendingRequests)[id := Pending(action)]
        && client.sent == old(client.sent) + [Request(BridgeRequest(id, action, payload))]
        && issued == old(issued) + {id} && settledIds == old(settledIds)
      ensures old(IsConnected()) && sendError.Some? ==>
        && r == Settled(Rejected(SendFailed(sendError.value)))
        && pendingRequests == old(pendingRequests)
        && client.sent == old(client.sent)
        && issued == old(issued) + {id}
        && settledIds == old(settledIds) + {id}
      ensures !old(IsConnected()) && client != null ==> client.sent == old(client.sent)
      ensures client != null ==> client.readyState == old(client.readyState) && client.closedWith == old(client.closedWith)
      ensures connectCallbacks == old(connectCallbacks) && disconnectCallbacks == old(disconnectCallbacks)
    {
      if client == null || client.readyState != Open {
        return Settled(Rejected(NotConnected));
      }
      issued := issued + {id};
      pendingRequests := pendingRequests[id := Pending(action)];
      if sendError.Some? {
        pendingRequests := pendingRequests - {id};
        assert pendingRequests == old(pendingRequests);
        var s := Settlement(id, Rejected(SendFailed(sendError.value)));
        settledIds := settledIds + {id};
        return Settled(s.outcome);
      }
      client.Send(Request(BridgeRequest(id, action, payload)));
      r := Awaiting(id);
    }

    /**
     * A frame arriving on socket `from`. Only accepted sockets have a
     * handler. A pong or a malformed frame changes nothing; a ping answers
     * with one pong on the current client when it is OPEN; a response whose
     * id is pending removes that entry and settles its call.
     */
    method HandleMessage(from: Peer, frame: InFrame) returns (s: Option<Settlement>)
      requires Valid()
      modifies this, client
      ensures Valid()
      ensures client == old(client) && accepted == old(accepted) && issued == old(issued) && listening == old(listening)
      ensures var k := Classify(frame);
        from !in accepted || k.Dropped? || k.Pong? ==>
          && s == None && pendingRequests == old(pendingRequests) && settledIds == old(settledIds)
          && (client != null ==> client.sent == old(client.sent))
      ensures var k := Classify(frame);
        from in accepted && k.Ping? ==>
          && s == None && pendingRequests == old(pendingRequests) && settledIds == old(settledIds)
          && (client != null ==> client.sent == old(client.sent) + (if old(client.readyState) == Open then [PongFrame] else []))
      ensures var k := Classify(frame);
        from in accepted && k.Response? && k.id.Str? && k.id.s in old(pendingRequests) ==>
          && pendingRequests == old(pendingRequests) - {k.id.s}
          && s == Some(Settlement(k.id.s, Answer(k.result, k.error)))
          && settledIds == old(settledIds) + {k.id.s}
      ensures var k := Classify(frame);
        from in accepted && k.Response? && !(k.id.Str? && k.id.s in old(pendingRequests)) ==>
          && s == None && pendingRequests == old(pendingRequests) && settledIds == old(settledIds)
      ensures Classify(frame).Response? && client != null ==> client.sent == old(client.sent)
      ensures client != null ==> client.readyState == old(client.readyState) && client.closedWith == old(client.closedWith)
      ensures connectCallbacks == old(connectCallbacks) && disconnectCallbacks == old(disconnectCallbacks)
    {
      s := None;
      if from !in accepted {
        return;
      }
      match Classify(frame)
      case Dropped =>
      case Pong =>
      case Ping =>
        if client != null && client.readyState == Open {
          client.Send(PongFrame);
        }
      case Response(id, result, error) =>
        if id.Str? && id.s in pendingRequests {
          var settlement := Settlement(id.s, Answer(result, error));
          pendingRequests := pendingRequests - {id.s};
          settledIds := settledIds + {id.s};
          s := Some(settlement);
        }
    }

    /**
     * The timer of request `id` expires. A pending id is removed and its call
     * rejected with "Request timeout: <action>"; for an id no longer pending
     * the timer was cleared, so nothing happens.
     */
    method FireTimeout(id: string) returns (s: Option<Settlement>)
      requires Valid()
      modifies this
      ensures Valid()
      ensures id in old(pendingRequests) ==>
        && pendingRequests == old(pendingRequests) - {id}
        && s == Some(Settlement(id, Rejected(Timeout(old(pendingRequests)[id].action))))
        && settledIds == old(settledIds) + {id}
      ensures id !in old(pendingRequests) ==>
        s == None && pendingRequests == old(pendingRequests) && settledIds == old(settledIds)
      ensures client == old(client) && accepted == old(accepted) && issued == old(issued) && listening == old(listening)
      ensures connectCallbacks == old(connectCallbacks) && disconnectCallbacks == old(disconnectCallbacks)
    {
      s := None;
      if id in pendingRequests {
        var settlement := Settlement(id, Rejected(Timeout(pendingRequests[id].action)));
        pendingRequests := pendingRequests - {id};
        settledIds := settledIds + {id};
        s := Some(settlement);
      }
    }

    /**
     * The close handler installed on an accepted socket: it empties the client
     * slot, whichever socket holds it, rejects every pending call with
     * "Connection lost", clears the table, and then runs the disconnect
     * callbacks in order. `throwsAt` is the position of the first callback
     * that throws, if any; the callbacks after it do not run.
     */
    method CloseHandler(ws: Peer, throwsAt: Option<nat>) returns (swept: seq<Settlement>, notified: seq<nat>)
      requires Valid() && ws in accepted
      modifies this
      ensures Valid()
      ensures client == null && accepted == old(accepted) - {ws}
      ensures pendingRequests == map[]
      ensures SettledIds(swept) == old(pendingRequests).Keys && SettledOnce(swept)
      ensures forall i :: 0 <= i < |swept| ==> swept[i].outcome == Rejected(ConnectionLost)
      ensures settledIds == old(settledIds) + old(pendingRequests).Keys
      ensures notified == Notified(disconnectCallbacks, throwsAt)
      ensures issued == old(issued) && listening == old(listening)
      ensures connectCallbacks == old(connectCallbacks) && disconnectCallbacks == old(disconnectCallbacks)
    {
      swept := RejectAll(pendingRequests.Keys);
      client := null;
      accepted := accepted - {ws};
      settledIds := settledIds + pendingRequests.Keys;
      pendingRequests := map[];
      assert pendingRequests.Keys == {};
      notified := Notified(disconnectCallbacks, throwsAt);
    }

    /**
     * The `close` event of socket `ws`: the socket is closed, and when it is
     * an accepted one its close handler runs, with `throwsAt` as there. A
     * refused socket has no handler.
     */
    method OnClose(ws: Peer, throwsAt: Option<nat>) returns (swept: seq<Settlement>, notified: seq<nat>)
      requires Valid()
      modifies this, ws
      ensures Valid()
      ensures ws.readyState == Closed && ws.sent == old(ws.sent) && ws.closedWith == old(ws.closedWith)
      ensures ws !in old(accepted) ==>
        && swept == [] && notified == []
        && client == old(client) && accepted == old(accepted)
        && pendingRequests == old(pendingRequests) && settledIds == old(settledIds)
      ensures ws in old(accepted) ==>
        && client == null
        && accepted == old(accepted) - {ws}
        && pendingRequests == map[]
        && SettledIds(swept) == old(pendingRequests).Keys
        && SettledOnce(swept)
        && (forall i :: 0 <= i < |swept| ==> swept[i].outcome == Rejected(ConnectionLost))
        && settledIds == old(settledIds) + old(pendingRequests).Keys
        && notified == Notified(disconnectCallbacks, throwsAt)
      ensures issued == old(issued) && listening == old(listening)
      ensures connectCallbacks == old(connectCallbacks) && disconnectCallbacks == old(disconnectCallbacks)
    {
      swept, notified := [], [];
      if ws in accepted {
        swept, notified := CloseHandler(ws, throwsAt);
      }
      ws.readyState := Closed;
    }

    /**
     * `stop`: close the client, if any, with no code or reason, empty the slot
     * and stop listening. Pending calls stay until that socket's close event
     * sweeps them. A second `stop` changes nothing further.
     */
    method Stop()
      requires Valid()
      modifies this, client
      ensures Valid()
      ensures client == null && !listening
      ensures old(client) != null && old(client.readyState) == Open ==>
        old(client).readyState == Closing && old(client).closedWith == Some(CloseRequest(None, ""))
      ensures old(client) != null && old(client.readyState) != Open ==>
        old(client).readyState == old(client.readyState) && old(client).closedWith == old(client.closedWith)
      ensures old(client) != null ==> old(client).sent == old(client.sent)
      ensures accepted == old(accepted) && pendingRequests == old(pendingRequests)
      ensures issued == old(issued) && settledIds == old(settledIds)
      ensures connectCallbacks == old(connectCallbacks) && disconnectCallbacks == old(disconnectCallbacks)
    {
      if client != null {
        client.Close(None, "");
        client := null;
      }
      listening := false;
    }
  }

  /**
   * The close handler empties the slot whoever holds it, while a newcomer is
   * refused only when the holder is OPEN. So a peer whose closing handshake
   * has begun lets a second peer in, and its own close event then empties
   * the second peer's slot and rejects the second peer's call, though that
   * peer is still OPEN.
   */
  method StaleCloseEvictsNewPeer() returns (newPeerOpen: bool, slotEmpty: bool, swept: seq<Settlement>)
    ensures newPeerOpen && slotEmpty
    ensures swept == [Settlement("req-b", Rejected(ConnectionLost))]
  {
    var server := new WebSocketServer(3002);
    var a := new Peer();
    var _ := server.OnConnection(a, None);
    a.RemoteClosing();
    var b := new Peer();
    var _ := server.OnConnection(b, None);
    assert server.client == b;
    var call := server.SendRequest("search", map[], "req-b", None);
    assert server.pendingRequests.Keys == {"req-b"};
    var notified;
    swept, notified := server.OnClose(a, None);
    assert SettledIds(swept) == {"req-b"} && |swept| == 1;
    assert swept[0].id in SettledIds(swept);
    newPeerOpen := b.readyState == Open;
    slotEmpty := server.client == null;
  }

  /**
   * While the first peer is OPEN a second one is refused with 1008; once the
   * first has disconnected, a third is accepted and takes the slot.
   */
  method ReconnectAfterDisconnect() returns (refusedWith: Option<CloseRequest>, reconnected: bool)
    ensures refusedWith == Some(CloseRequest(Some(PolicyViolation), OnlyOneClient))
    ensures reconnected
  {
    var server := new WebSocketServer(3002);
    var a := new Peer();
    var _ := server.OnConnection(a, None);
    var b := new Peer();
    var _ := server.OnConnection(b, None);
    refusedWith := b.closedWith;
    var swept, notified := server.OnClose(a, None);
    var c := new Peer();
    var _ := server.OnConnection(c, None);
    reconnected := server.client == c && server.IsConnected();
  }

  /**
   * A connect callback that throws leaves its peer in the slot without
   * handlers: the peer's answer to a request is dropped, and its close event
   * neither empties the slot nor sweeps the table, so the call waits for its
   * timeout.
   */
  method StrandedClient() returns (answered: Option<Settlement>, stillClient: bool, stillPending: bool)
    ensures answered == None && stillClient && stillPending
  {
    var server := new WebSocketServer(3002);
    server.OnClientConnect(7);
    var a := new Peer();
    var notified := server.OnConnection(a, Some(0));
    var call := server.SendRequest("search", map[], "s1", None);
    answered := server.HandleMessage(a, Message(None, Some(Str("s1")), Some(Num(1.0)), None));
    var swept, gone := server.OnClose(a, None);
    stillClient := server.client == a;
    stillPending := "s1" in server.pendingRequests;
  }

  /**
   * A disconnect callback that throws stops the ones after it, but the slot
   * is already empty and the pending call already rejected.
   */
  method ThrowingDisconnectCallback() returns (notified: seq<nat>, swept: seq<Settlement>, slotEmpty: bool)
    ensures notified == [1]
    ensures swept == [Settlement("d1", Rejected(ConnectionLost))]
    ensures slotEmpty
  {
    var server := new WebSocketServer(3002);
    server.OnClientDisconnect(1);
    server.OnClientDisconnect(2);
    var a := new Peer();
    var _ := server.OnConnection(a, None);
    var call := server.SendRequest("search", map[], "d1", None);
    swept, notified := server.OnClose(a, Some(0));
    assert SettledIds(swept) == {"d1"} && |swept| == 1;
    assert swept[0].id in SettledIds(swept);
    slotEmpty := server.client == null;
  }

  /**
   * A response settles its call and leaves the table; the same response
   * arriving again finds no entry and settles nothing.
   */
  method DuplicateResponseSettlesOnce() returns (first: Option<Settlement>, second: Option<Settlement>)
    ensures first == Some(Settlement("r1", Resolved(Some(Num(1.0)))))
    ensures second == None
  {
    var server := new WebSocketServer(3002);
    var a := new Peer();
    var _ := server.OnConnection(a, None);
    var call := server.SendRequest("read_note", map[], "r1", None);
    var response := Message(None, Some(Str("r1")), Some(Num(1.0)), None);
    first := server.HandleMessage(a, response);
    second := server.HandleMessage(a, response);
  }
}
