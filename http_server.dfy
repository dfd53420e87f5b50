/**
 * The Streamable HTTP front end: a registry of MCP sessions, one transport
 * per session id, and the routing of POST, GET and DELETE requests on
 * `/mcp`. A transport is an opaque handle; what it does with a request it
 * is handed is not modelled, and its outcomes (the session id it reports,
 * whether its `close` throws) are inputs.
 */
module HttpFront {
  import opened Wrappers
  import opened Json
  import opened JsText

  /** An opaque transport handle. */
  type TransportHandle = nat

  datatype Verb = Post | Get | Delete

  /** The routing decision for one request. */
  datatype Route =
    | StartSession                                   // create a transport and hand it the initialize request
    | ToSession(sessionId: string)                   // hand the request to that session's transport
    | MissingSessionId(requestId: Value)             // POST without a session id that is not an initialize
    | InvalidSession(sessionId: string, requestId: Value) // POST for a session id not registered
    | MissingHeader                                  // GET or DELETE without a session id
    | SessionNotFound(sessionId: string)             // GET or DELETE for a session id not registered

  /** `body && body.method === 'initialize' && body.jsonrpc === '2.0'` (section 4 of JSON-RPC 2.0). */
  predicate IsInitializeRequest(body: Option<Value>)
  {
    FieldOf(body, "method") == Some(Str("initialize")) && FieldOf(body, "jsonrpc") == Some(Str("2.0"))
  }

  /** `body?.id ?? null`. */
  function RequestId(body: Option<Value>): (id: Value)
    ensures FieldOf(body, "id").Some? ==> id == FieldOf(body, "id").value
    ensures FieldOf(body, "id").None? ==> id == Null
  {
    match FieldOf(body, "id")
    case Some(v) => v
    case None => Null
  }

  /**
   * The route handlers' decision, from the `mcp-session-id` header (an empty
   * one counts as missing), the parsed body and the registered session ids.
   */
  function RouteRequest(verb: Verb, header: Option<string>, body: Option<Value>, sessions: set<string>): (r: Route)
    ensures r.ToSession? ==> Truthy(header) && r.sessionId == header.value && r.sessionId in sessions
    ensures r.StartSession? <==> verb == Post && !Truthy(header) && IsInitializeRequest(body)
    ensures verb == Post && Truthy(header) ==>
      r == (if header.value in sessions then ToSession(header.value) else InvalidSession(header.value, RequestId(body)))
    ensures verb == Post && !Truthy(header) && !IsInitializeRequest(body) ==> r == MissingSessionId(RequestId(body))
    ensures verb != Post && !Truthy(header) ==> r == MissingHeader
    ensures verb != Post && Truthy(header) ==>
      r == (if header.value in sessions then ToSession(header.value) else SessionNotFound(header.value))
  {
    match verb
    case Post =>
      if !Truthy(header) && IsInitializeRequest(body) then StartSession
      else if Truthy(header) then
        if header.value in sessions then ToSession(header.value) else InvalidSession(header.value, RequestId(body))
      else MissingSessionId(RequestId(body))
    case _ =>
      if !Truthy(header) then MissingHeader
      else if header.value in sessions then ToSession(header.value)
      else SessionNotFound(header.value)
  }

  /** An initialize request carrying the id of a registered session goes to that session, not to a new one. */
  lemma InitializeWithKnownSession(header: string, body: Option<Value>, sessions: set<string>)
    requires header != "" && header in sessions && IsInitializeRequest(body)
    ensures RouteRequest(Post, Some(header), body, sessions) == ToSession(header)
  {
  }

  /** GET and DELETE are routed alike. */
  lemma GetDeleteAlike(header: Option<string>, body: Option<Value>, sessions: set<string>)
    ensures RouteRequest(Get, header, body, sessions) == RouteRequest(Delete, header, body, sessions)
  {
  }

  /** A request is handed to a transport only under a registered id, and only under the id it carries. */
  lemma DelegationNeedsRegistration(verb: Verb, header: Option<string>, body: Option<Value>, sessions: set<string>)
    ensures RouteRequest(verb, header, body, sessions).ToSession? <==> Truthy(header) && header.value in sessions
  {
  }

  const InvalidRequest := -32600
  const InternalError := -32603

  /** The `data` member of the invalid-session error. */
  datatype SessionData = SessionData(
    reason: string, requiresReinitialize: bool, retryable: bool, serverInstanceId: string)

  /**
   * A body the server writes itself: a JSON-RPC 2.0 error object (section
   * 5.1 of JSON-RPC 2.0, with `jsonrpc: "2.0"`), or a bare `{error}` object.
   */
  datatype ErrorBody =
    | RpcError(code: int, message: string, data: Option<SessionData>, id: Value)
    | PlainError(error: string)

  const MissingSessionMessage := "Missing mcp-session-id header for non-initialize request"
  const MissingHeaderMessage := "Missing mcp-session-id header"
  const InvalidSessionAdvice :=
    ". Session may have expired or server was restarted. Reinitialize MCP session (initialize + notifications/initialized)."
  const SessionInvalidated := "session_invalidated"

  function InvalidSessionMessage(sessionId: string): string
  {
    "Invalid session ID: " + sessionId + InvalidSessionAdvice
  }

  /**
   * What the server answers: a status and a body, the transport the request
   * was handed to, or nothing at all when the handler itself fails with
   * `error` and no code of the server's catches it.
   */
  datatype Reply =
    | Respond(status: int, body: ErrorBody)
    | Delegated(transport: TransportHandle)
    | Unanswered(error: string)

  /** The answer the server writes itself for a route that goes to no transport. */
  function ErrorReply(r: Route, serverInstanceId: string): (reply: Reply)
    requires !r.StartSession? && !r.ToSession?
    ensures reply.Respond?
    ensures reply.status == (if r.SessionNotFound? then 404 else 400)
    ensures r.MissingSessionId? || r.InvalidSession? ==>
      reply.body.RpcError? && reply.body.code == InvalidRequest && reply.body.id == r.requestId
    ensures r.MissingHeader? || r.SessionNotFound? ==> reply.body.PlainError?
    ensures reply.body.RpcError? && reply.body.data.Some? <==> r.InvalidSession?
  {
    match r
    case MissingSessionId(id) =>
      Respond(400, RpcError(InvalidRequest, MissingSessionMessage, None, id))
    case InvalidSession(sessionId, id) =>
      Respond(400, RpcError(InvalidRequest, InvalidSessionMessage(sessionId),
        Some(SessionData(SessionInvalidated, true, true, serverInstanceId)), id))
    case MissingHeader =>
      Respond(400, PlainError(MissingHeaderMessage))
    case SessionNotFound(sessionId) =>
      Respond(404, PlainError("Session not found: " + sessionId))
  }

  /**
   * The invalid-session answer tells the client to start over and names the
   * server instance, so a client can tell a restarted server apart.
   */
  lemma InvalidSessionAsksReinitialize(sessionId: string, serverInstanceId: string, id: Value)
    ensures ErrorReply(InvalidSession(sessionId, id), serverInstanceId).body.data ==
      Some(SessionData(SessionInvalidated, true, true, serverInstanceId))
    ensures StartsWith(ErrorReply(InvalidSession(sessionId, id), serverInstanceId).body.message,
      "Invalid session ID: " + sessionId)
  {
    var p := "Invalid session ID: " + sessionId;
    var m := InvalidSessionMessage(sessionId);
    assert m[..|p|] == p;
  }

  /** A POST without a session id that is not an initialize gets 400 and its own JSON-RPC id back. */
  lemma MissingSessionIdReply(body: Option<Value>, sessions: set<string>, serverInstanceId: string)
    requires !IsInitializeRequest(body)
    ensures var r := RouteRequest(Post, None, body, sessions);
      && r == MissingSessionId(RequestId(body))
      && ErrorReply(r, serverInstanceId) ==
        Respond(400, RpcError(InvalidRequest, MissingSessionMessage, None, RequestId(body)))
  {
  }

  /** The answer to a POST whose handling threw: 500, internal error, id null. */
  function InternalErrorReply(message: string): Reply
  {
    Respond(500, RpcError(InternalError, message, None, Null))
  }

  class HttpMcpServer {
    /** Drawn once at construction and never changed. */
    const serverInstanceId: string
    var transports: map<string, TransportHandle>
    /** Every session id the transports have generated so far. */
    ghost var usedIds: set<string>

    ghost predicate Valid()
      reads this
    {
      transports.Keys <= usedIds
    }

    constructor (serverInstanceId: string)
      ensures Valid()
      ensures this.serverInstanceId == serverInstanceId && transports == map[] && usedIds == {}
    {
      this.serverInstanceId := serverInstanceId;
      transports := map[];
      usedIds := {};
    }

    function ActiveSessionCount(): (n: nat)
      reads this
      ensures n == |transports.Keys|
    {
      |transports.Keys|
    }

    /** `onsessioninitialized`: register the transport under the fresh id it generated. */
    method OnSessionInitialized(sessionId: string, transport: TransportHandle)
      requires Valid() && sessionId !in usedIds
      modifies this
      ensures Valid()
      ensures transports == old(transports)[sessionId := transport]
      ensures usedIds == old(usedIds) + {sessionId}
      ensures ActiveSessionCount() == old(ActiveSessionCount()) + 1
    {
      transports := transports[sessionId := transport];
      usedIds := usedIds + {sessionId};
    }

    /** `onclose` of a transport: remove its entry when it has a session id that is still registered. */
    method OnTransportClose(sessionId: Option<string>)
      requires Valid()
      modifies this
      ensures Valid()
      ensures Truthy(sessionId) && sessionId.value in old(transports) ==>
        transports == old(transports) - {sessionId.value}
        && ActiveSessionCount() == old(ActiveSessionCount()) - 1
      ensures !(Truthy(sessionId) && sessionId.value in old(transports)) ==> transports == old(transports)
      ensures forall k :: k in old(transports) && Some(k) != sessionId ==> k in transports && transports[k] == old(transports)[k]
      ensures usedIds == old(usedIds)
    {
      if Truthy(sessionId) && sessionId.value in transports {
        transports := transports - {sessionId.value};
      }
    }

    /**
     * POST `/mcp`. `generatedId` is the session id the new transport reports
     * to `onsessioninitialized` while handling an initialize request (none
     * when it refuses it), `newTransport` that new transport, and `thrown`
     * the message of the error the transport's `handleRequest` throws, if
     * it does; the catch answers that with an internal error.
     */
    method HandlePost(header: Option<string>, body: Option<Value>, newTransport: TransportHandle,
                      generatedId: Option<string>, thrown: Option<string>)
      returns (reply: Reply)
      requires Valid()
      requires generatedId.Some? ==> generatedId.value !in usedIds
      modifies this
      ensures Valid()
      ensures var r := RouteRequest(Post, header, body, old(transports).Keys);
        && (r.StartSession? ==>
            reply == (if thrown.Some? then InternalErrorReply(thrown.value) else Delegated(newTransport))
            && transports == (if generatedId.Some? then old(transports)[generatedId.value := newTransport] else old(transports)))
        && (r.ToSession? ==>
            reply == (if thrown.Some? then InternalErrorReply(thrown.value) else Delegated(old(transports)[r.sessionId]))
            && transports == old(transports))
        && (!r.StartSession? && !r.ToSession? ==> reply == ErrorReply(r, serverInstanceId) && transports == old(transports))
      ensures reply.Respond? && reply.status == 500 ==>
        thrown.Some? && reply.body == RpcError(InternalError, thrown.value, None, Null)
      ensures usedIds <= old(usedIds) + (if generatedId.Some? then {generatedId.value} else {})
    {
      var r := RouteRequest(Post, header, body, transports.Keys);
      match r
      case StartSession =>
        if generatedId.Some? {
          OnSessionInitialized(generatedId.value, newTransport);
        }
        reply := if thrown.Some? then InternalErrorReply(thrown.value) else Delegated(newTransport);
      case ToSession(sessionId) =>
        reply := if thrown.Some? then InternalErrorReply(thrown.value) else Delegated(transports[sessionId]);
      case _ =>
        reply := ErrorReply(r, serverInstanceId);
    }

    /**
     * GET or DELETE `/mcp`: hand the request to the session's transport, or
     * refuse it. `thrown` is what the transport's `handleRequest` throws, if
     * anything; these two routes have no `catch`, so the failure leaves the
     * handler and the server writes no answer of its own.
     */
    function HandleGetOrDelete(verb: Verb, header: Option<string>, thrown: Option<string>): (reply: Reply)
      requires verb != Post
      reads this
      ensures Truthy(header) && header.value in transports ==>
        reply == if thrown.Some? then Unanswered(thrown.value) else Delegated(transports[header.value])
      ensures !Truthy(header) ==> reply == Respond(400, PlainError(MissingHeaderMessage))
      ensures Truthy(header) && header.value !in transports ==>
        reply == Respond(404, PlainError("Session not found: " + header.value))
    {
      var r := RouteRequest(verb, header, None, transports.Keys);
      if r.ToSession? then
        if thrown.Some? then Unanswered(thrown.value) else Delegated(transports[r.sessionId])
      else ErrorReply(r, serverInstanceId)
    }

    /**
     * `stop`: try to close every session; `closeFails` holds the ids whose
     * `close` throws. Those stay registered, every other one is removed.
     */
    method Stop(closeFails: set<string>)
      requires Valid()
      modifies this
      ensures Valid()
      ensures transports == map k | k in old(transports) && k in closeFails :: old(transports)[k]
      ensures usedIds == old(usedIds)
    {
      var remaining := transports.Keys;
      while remaining != {}
        invariant remaining <= old(transports).Keys
        invariant transports.Keys <= old(transports).Keys && usedIds == old(usedIds)
        invariant forall k :: k in transports ==> transports[k] == old(transports)[k]
        invariant forall k :: k in old(transports) ==> (k in transports <==> k in remaining || k in closeFails)
        decreases remaining
      {
        var sessionId :| sessionId in remaining;
        if sessionId !in closeFails {
          transports := transports - {sessionId};
        }
        remaining := remaining - {sessionId};
      }
    }
  }

  /** Two sessions initialized one after the other get distinct ids and are both counted. */
  method TwoSessions() returns (count: nat, first: Reply, second: Reply)
    ensures count == 2
    ensures first == Delegated(1) && second == Delegated(2)
  {
    var server := new HttpMcpServer("instance");
    var init := Some(Obj(map["jsonrpc" := Str("2.0"), "method" := Str("initialize"), "id" := Num(1.0)]));
    first := server.HandlePost(None, init, 1, Some("session-a"), None);
    second := server.HandlePost(None, init, 2, Some("session-b"), None);
    count := server.ActiveSessionCount();
  }

  /**
   * The same failing transport is answered differently by route: a POST to
   * the session gets a 500 JSON-RPC error, a GET or DELETE gets no answer
   * from the server.
   */
  method FailingTransport() returns (post: Reply, get: Reply, delete: Reply)
    ensures post == Respond(500, RpcError(InternalError, "stream reset", None, Null))
    ensures get == Unanswered("stream reset") && delete == Unanswered("stream reset")
  {
    var server := new HttpMcpServer("instance");
    var init := Some(Obj(map["jsonrpc" := Str("2.0"), "method" := Str("initialize"), "id" := Num(1.0)]));
    var _ := server.HandlePost(None, init, 1, Some("session-a"), None);
    var call := Some(Obj(map["jsonrpc" := Str("2.0"), "method" := Str("tools/list"), "id" := Num(2.0)]));
    post := server.HandlePost(Some("session-a"), call, 2, None, Some("stream reset"));
    get := server.HandleGetOrDelete(Get, Some("session-a"), Some("stream reset"));
    delete := server.HandleGetOrDelete(Delete, Some("session-a"), Some("stream reset"));
  }
}
