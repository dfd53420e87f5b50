/** The frames exchanged with the RemNote plugin over the WebSocket. */
module Bridge {
  import opened Wrappers
  import opened Json

  /** `{id, action, payload}`: a request sent to the plugin. */
  datatype BridgeRequest = BridgeRequest(id: string, action: string, payload: map<string, Value>)

  /** What the server writes on a socket. */
  datatype OutFrame = Request(request: BridgeRequest) | PongFrame

  /**
   * A frame as received. `Malformed` stands for a frame `JSON.parse` refuses
   * and for one that parses to a non-object (on which the `in` test throws);
   * both end in the dispatcher's catch. Otherwise the frame is an object and
   * the dispatcher reads its `type`, `id`, `result` and `error` keys.
   */
  datatype InFrame =
    | Malformed
    | Message(typ: Option<Value>, id: Option<Value>, result: Option<Value>, error: Option<string>)

  /** How the dispatcher treats a frame, in the order it tests them. */
  datatype Kind =
    | Dropped
    | Pong
    | Ping
    | Response(id: Value, result: Option<Value>, error: Option<string>)

  /**
   * `type === 'pong'` is tested first, then `type === 'ping'`, then the
   * presence of `id`; everything else is dropped.
   */
  function Classify(f: InFrame): (k: Kind)
    ensures f.Malformed? ==> k == Dropped
    ensures f.Message? && f.typ == Some(Str("pong")) ==> k == Pong
    ensures f.Message? && f.typ == Some(Str("ping")) ==> k == Ping
    ensures k.Response? <==>
      f.Message? && f.typ != Some(Str("pong")) && f.typ != Some(Str("ping")) && f.id.Some?
    ensures k.Response? ==>
      f.Message? && k.id == f.id.value && k.result == f.result && k.error == f.error
    ensures k.Dropped? <==>
      f.Malformed? || (f.typ != Some(Str("pong")) && f.typ != Some(Str("ping")) && f.id.None?)
  {
    match f
    case Malformed => Dropped
    case Message(typ, id, result, error) =>
      if typ == Some(Str("pong")) then Pong
      else if typ == Some(Str("ping")) then Ping
      else if id.Some? then Response(id.value, result, error)
      else Dropped
  }
}
