/**
 * The MCP tool layer: the one CallTool handler that maps a tool name to a
 * bridge action, validates the arguments first, short-cuts the status tool
 * while the plugin is away and wraps every failure as an error result; and
 * the ListTools handler. The bridge's answer to a request is an input.
 */
module Tools {
  import opened Wrappers
  import opened Json
  import opened JsText
  import opened Schemas
  import opened Bridge
  import opened WebSocketBridge

  datatype Tool = CreateNote | Search | ReadNote | UpdateNote | AppendJournal | Status

  /** The tools in the order the list handler gives them. */
  const AllTools: seq<Tool> := [CreateNote, Search, ReadNote, UpdateNote, AppendJournal, Status]

  function ToolName(t: Tool): string
  {
    match t
    case CreateNote => "remnote_create_note"
    case Search => "remnote_search"
    case ReadNote => "remnote_read_note"
    case UpdateNote => "remnote_update_note"
    case AppendJournal => "remnote_append_journal"
    case Status => "remnote_status"
  }

  /** The `switch` on the requested name. */
  function ToolOf(name: string): (t: Option<Tool>)
    ensures t.Some? ==> ToolName(t.value) == name
  {
    if name == "remnote_create_note" then Some(CreateNote)
    else if name == "remnote_search" then Some(Search)
    else if name == "remnote_read_note" then Some(ReadNote)
    else if name == "remnote_update_note" then Some(UpdateNote)
    else if name == "remnote_append_journal" then Some(AppendJournal)
    else if name == "remnote_status" then Some(Status)
    else None
  }

  /** Every tool name selects its own tool, so the `switch` has one case per tool. */
  lemma ToolNamesSelect(t: Tool)
    ensures ToolOf(ToolName(t)) == Some(t)
  {
  }

  /** The bridge action a tool sends. */
  function ActionOf(t: Tool): string
  {
    match t
    case CreateNote => "create_note"
    case Search => "search"
    case ReadNote => "read_note"
    case UpdateNote => "update_note"
    case AppendJournal => "append_journal"
    case Status => "status"
  }

  /** No two tools send the same action. */
  lemma ActionsDistinct(t: Tool, u: Tool)
    ensures ActionOf(t) == ActionOf(u) ==> t == u
  {
  }

  /** The argument schema of a note tool. */
  function SchemaOf(t: Tool): (s: seq<Field>)
    requires !t.Status?
    ensures DistinctKeys(s)
  {
    SchemasHaveDistinctKeys();
    match t
    case CreateNote => CreateNoteSchema
    case Search => SearchSchema
    case ReadNote => ReadNoteSchema
    case UpdateNote => UpdateNoteSchema
    case AppendJournal => AppendJournalSchema
  }

  /** What the handler throws, or what is thrown at it, before the catch wraps it. */
  datatype ToolError =
    | Thrown(message: string)     // an Error with this message
    | Invalid(error: ParseError)  // the schema's validation error; its message text is not modelled

  /**
   * A tool result. `JsonResult` holds the value whose `JSON.stringify` is
   * the single text item; `ErrorResult` is the caught failure, with `isError`
   * set and text "Error: " followed by the message.
   */
  datatype ToolResult = JsonResult(value: Option<Value>) | ErrorResult(error: ToolError)

  predicate IsError(r: ToolResult)
  {
    r.ErrorResult?
  }

  /** The text item of an error result whose message is known. */
  function ErrorText(message: string): (text: string)
    ensures StartsWith(text, "Error: ")
    ensures text[|"Error: "|..] == message
  {
    var text := "Error: " + message;
    assert text[..|"Error: "|] == "Error: ";
    text
  }

  /**
   * The text item of an error result, when its message is modelled: an
   * `Error` thrown with a known message is shown as `ErrorText` of it.
   */
  function ErrorTextOf(r: ToolResult): (text: Option<string>)
    ensures text.Some? <==> r.ErrorResult? && r.error.Thrown?
    ensures text.Some? ==> StartsWith(text.value, "Error: ") && text.value[|"Error: "|..] == r.error.message
  {
    if r.ErrorResult? && r.error.Thrown? then Some(ErrorText(r.error.message)) else None
  }

  /** The first step of the handler: either an immediate result or a request to the bridge. */
  datatype Step = Reply(result: ToolResult) | Call(tool: Tool, action: string, payload: map<string, Value>)

  const NotConnectedStatus: Value :=
    Obj(map["connected" := Bool(false), "message" := Str("RemNote plugin not connected")])

  /**
   * Select the tool, validate its arguments, and either answer at once or
   * name the request to send. `connected` is the bridge's `isConnected()`.
   */
  function Dispatch(name: string, args: Option<Value>, connected: bool): (s: Step)
    ensures ToolOf(name).None? ==> s == Reply(ErrorResult(Thrown("Unknown tool: " + name)))
    ensures s.Call? ==> ToolOf(name) == Some(s.tool) && s.action == ActionOf(s.tool)
    ensures s.Call? && !s.tool.Status? ==> Parse(SchemaOf(s.tool), args) == Success(s.payload)
    ensures s.Call? && s.tool.Status? ==> connected && s.payload == map[]
    ensures ToolOf(name).Some? && !ToolOf(name).value.Status? ==>
      (s.Call? <==> Parse(SchemaOf(ToolOf(name).value), args).Success?)
    ensures ToolOf(name).Some? && !ToolOf(name).value.Status? && s.Reply? ==>
      s.result == ErrorResult(Invalid(Parse(SchemaOf(ToolOf(name).value), args).error))
    ensures ToolOf(name) == Some(Status) ==>
      (s.Call? <==> connected)
      && (!connected ==> s == Reply(JsonResult(Some(NotConnectedStatus))))
  {
    match ToolOf(name)
    case None => Reply(ErrorResult(Thrown("Unknown tool: " + name)))
    case Some(t) =>
      if t.Status? then
        if connected then Call(t, ActionOf(t), map[]) else Reply(JsonResult(Some(NotConnectedStatus)))
      else
        match Parse(SchemaOf(t), args)
        case Failure(e) => Reply(ErrorResult(Invalid(e)))
        case Success(payload) => Call(t, ActionOf(t), payload)
  }

  /** `{...array}` gives one key per index, spelt in decimal. */
  function IndexKeys(items: seq<Value>): (m: map<string, Value>)
    ensures forall i :: 0 <= i < |items| ==> NatToString(i) in m && m[NatToString(i)] == items[i]
    ensures forall k :: k in m ==> AllDigits(k) && DigitsValue(k) < |items|
  {
    map i | 0 <= i < |items| :: NatToString(i) := items[i]
  }

  /**
   * `{connected: true, ...(typeof result === 'object' ? result : {})}`. The
   * result's own keys come after `connected`, so its own `connected` wins;
   * `null` is an object to `typeof` but spreads nothing; an array spreads its
   * indexes; any other result adds nothing.
   */
  function StatusFields(result: Option<Value>): (m: map<string, Value>)
    ensures "connected" in m
  {
    var base := map["connected" := Bool(true)];
    if result.Some? && result.value.Obj? then base + result.value.fields
    else if result.Some? && result.value.Arr? then base + IndexKeys(result.value.items)
    else base
  }

  /** The status result keeps every field of an object result and adds `connected: true` only when absent. */
  lemma StatusMergesObject(fields: map<string, Value>)
    ensures var m := StatusFields(Some(Obj(fields)));
      && m.Keys == fields.Keys + {"connected"}
      && (forall k :: k in fields ==> m[k] == fields[k])
      && ("connected" !in fields ==> m["connected"] == Bool(true))
  {
  }

  /** A result that is not an object, or no result at all, gives just `connected: true`. */
  lemma StatusIgnoresNonObject(result: Option<Value>)
    requires result.None? || result.value.Null? || result.value.Bool? || result.value.Num? || result.value.Str?
    ensures StatusFields(result) == map["connected" := Bool(true)]
  {
  }

  /** How the handler finishes once the bridge has answered the request. */
  function Complete(t: Tool, outcome: Outcome): (r: ToolResult)
    ensures IsError(r) <==> outcome.Rejected?
    ensures outcome.Rejected? ==> r == ErrorResult(Thrown(FailureMessage(outcome.failure)))
    ensures outcome.Resolved? && !t.Status? ==> r == JsonResult(outcome.result)
    ensures outcome.Resolved? && t.Status? ==> r.JsonResult? && r.value.Some? && r.value.value.Obj?
  {
    match outcome
    case Rejected(f) => ErrorResult(Thrown(FailureMessage(f)))
    case Resolved(result) =>
      if t.Status? then JsonResult(Some(Obj(StatusFields(result)))) else JsonResult(result)
  }

  /**
   * The whole CallTool handler, with `outcome` the bridge's answer to the
   * request when one is sent (and unused otherwise).
   */
  function CallTool(name: string, args: Option<Value>, connected: bool, outcome: Outcome): (r: ToolResult)
    ensures IsError(r) <==>
      || ToolOf(name).None?
      || (ToolOf(name).Some? && !ToolOf(name).value.Status? && Parse(SchemaOf(ToolOf(name).value), args).Failure?)
      || (Dispatch(name, args, connected).Call? && outcome.Rejected?)
    ensures ToolOf(name).None? ==> r == ErrorResult(Thrown("Unknown tool: " + name))
    ensures ToolOf(name) == Some(Status) && !connected ==> r == JsonResult(Some(NotConnectedStatus))
  {
    match Dispatch(name, args, connected)
    case Reply(result) => result
    case Call(t, _, _) => Complete(t, outcome)
  }

  /** An unknown tool name is shown as "Error: Unknown tool: <name>". */
  lemma UnknownToolText(name: string, args: Option<Value>, connected: bool, outcome: Outcome)
    requires ToolOf(name).None?
    ensures ErrorTextOf(CallTool(name, args, connected, outcome)) == Some("Error: Unknown tool: " + name)
  {
    assert "Error: " + ("Unknown tool: " + name) == "Error: Unknown tool: " + name;
  }

  /** A rejected request is shown as "Error: " followed by the rejection's message. */
  lemma RejectionText(name: string, args: Option<Value>, connected: bool, outcome: Outcome)
    requires Dispatch(name, args, connected).Call? && outcome.Rejected?
    ensures ErrorTextOf(CallTool(name, args, connected, outcome))
      == Some("Error: " + FailureMessage(outcome.failure))
  {
  }

  /**
   * A note tool whose request the bridge refuses for want of a plugin reports
   * that as an error, with the bridge's message.
   */
  lemma NoteToolWithoutPlugin(name: string, args: Option<Value>)
    requires ToolOf(name).Some? && !ToolOf(name).value.Status?
    requires Parse(SchemaOf(ToolOf(name).value), args).Success?
    ensures CallTool(name, args, false, Rejected(NotConnected)) == ErrorResult(Thrown(NotConnectedMessage))
  {
  }

  /**
   * The CallTool handler run against the bridge itself: dispatch on the
   * bridge's own `isConnected()`, and when a request is due, hand it to
   * `sendRequest` under the fresh `id`. `sendError` is what sending on the
   * socket throws, if anything; `answer` is how a request that went out is
   * later settled: by the plugin's response, its timeout, or the socket's
   * close, never by the two failures `sendRequest` itself raises.
   */
  method HandleCallTool(server: WebSocketServer, name: string, args: Option<Value>,
                        id: string, sendError: Option<string>, answer: Outcome)
    returns (r: ToolResult)
    requires server.Valid() && id !in server.issued
    requires answer.Rejected? ==>
      answer.failure.Timeout? || answer.failure.Remote? || answer.failure.ConnectionLost?
    modifies server, server.client
    ensures server.Valid()
    ensures server.client == old(server.client) && server.accepted == old(server.accepted)
    ensures !old(server.IsConnected()) ==>
      && r == CallTool(name, args, false, Rejected(NotConnected))
      && server.pendingRequests == old(server.pendingRequests)
      && server.issued == old(server.issued)
    ensures !old(server.IsConnected()) && ToolOf(name).Some? && !ToolOf(name).value.Status?
            && Parse(SchemaOf(ToolOf(name).value), args).Success? ==>
      r == ErrorResult(Thrown(NotConnectedMessage))
      && ErrorTextOf(r) == Some("Error: " + NotConnectedMessage)
    ensures old(server.IsConnected()) && sendError.None? ==> r == CallTool(name, args, true, answer)
    ensures old(server.IsConnected()) && sendError.Some? && Dispatch(name, args, true).Call? ==>
      r == ErrorResult(Thrown(sendError.value)) && server.pendingRequests == old(server.pendingRequests)
    ensures old(server.IsConnected()) && sendError.None? && Dispatch(name, args, true).Call? ==>
      var step := Dispatch(name, args, true);
      && server.pendingRequests == old(server.pendingRequests)[id := Pending(step.action)]
      && server.client.sent == old(server.client.sent) + [Request(BridgeRequest(id, step.action, step.payload))]
    ensures Dispatch(name, args, old(server.IsConnected())).Reply? ==>
      && r == Dispatch(name, args, old(server.IsConnected())).result
      && server.pendingRequests == old(server.pendingRequests)
      && server.issued == old(server.issued)
  {
    var connected := server.IsConnected();
    var step := Dispatch(name, args, connected);
    match step
    case Reply(result) =>
      r := result;
    case Call(t, action, payload) =>
      var call := server.SendRequest(action, payload, id, sendError);
      var outcome := if call.Settled? then call.outcome else answer;
      r := Complete(t, outcome);
      if !connected && ToolOf(name).Some? && !ToolOf(name).value.Status?
         && Parse(SchemaOf(ToolOf(name).value), args).Success? {
        NoteToolWithoutPlugin(name, args);
      }
  }

  /**
   * One advertised input property: its key, its JSON type, the JSON type of
   * its items when it is an array, and its description.
   */
  datatype Property = Property(key: string, typ: string, items: Option<string>, description: string)

  /** One entry of the tool list: name, input properties, and the `required` key, when present. */
  datatype ToolDefinition = ToolDefinition(
    name: string,
    description: string,
    properties: seq<Property>,
    required: Option<seq<string>>)

  const CreateNoteTool := ToolDefinition(ToolName(CreateNote),
    "Create a new note in RemNote with optional content, parent, and tags",
    [Property("title", "string", None, "The title of the note"),
     Property("content", "string", None, "Content as child bullets (newline-separated)"),
     Property("parentId", "string", None, "Parent Rem ID"),
     Property("tags", "array", Some("string"), "Tags to apply")],
    Some(["title"]))
  const SearchTool := ToolDefinition(ToolName(Search),
    "Search the RemNote knowledge base for notes matching a query",
    [Property("query", "string", None, "Search query text"),
     Property("limit", "number", None, "Maximum results (1-100, default: 20)"),
     Property("includeContent", "boolean", None, "Include child content (default: false)")],
    Some(["query"]))
  const ReadNoteTool := ToolDefinition(ToolName(ReadNote),
    "Read a specific note from RemNote by its Rem ID",
    [Property("remId", "string", None, "The Rem ID to read"),
     Property("depth", "number", None, "Depth of children to include (0-10, default: 3)")],
    Some(["remId"]))
  const UpdateNoteTool := ToolDefinition(ToolName(UpdateNote),
    "Update an existing note in RemNote (change title, append content, or modify tags)",
    [Property("remId", "string", None, "The Rem ID to update"),
     Property("title", "string", None, "New title"),
     Property("appendContent", "string", None, "Content to append as children"),
     Property("addTags", "array", Some("string"), "Tags to add"),
     Property("removeTags", "array", Some("string"), "Tags to remove")],
    Some(["remId"]))
  const AppendJournalTool := ToolDefinition(ToolName(AppendJournal),
    "Append content to today's daily document in RemNote",
    [Property("content", "string", None, "Content to append to today's daily document"),
     Property("timestamp", "boolean", None, "Include timestamp (default: true)")],
    Some(["content"]))
  const StatusTool := ToolDefinition(ToolName(Status),
    "Check the connection status and statistics of the RemNote MCP bridge",
    [], None)

  function Definition(t: Tool): ToolDefinition
  {
    match t
    case CreateNote => CreateNoteTool
    case Search => SearchTool
    case ReadNote => ReadNoteTool
    case UpdateNote => UpdateNoteTool
    case AppendJournal => AppendJournalTool
    case Status => StatusTool
  }

  /** The ListTools handler: the six definitions, in a fixed order. */
  function ListTools(): (tools: seq<ToolDefinition>)
    ensures |tools| == |AllTools| == 6
    ensures forall i :: 0 <= i < |tools| ==> tools[i] == Definition(AllTools[i])
  {
    [CreateNoteTool, SearchTool, ReadNoteTool, UpdateNoteTool, AppendJournalTool, StatusTool]
  }

  /** The position of a tool in the list. */
  function Position(t: Tool): (i: nat)
    ensures i < |AllTools| && AllTools[i] == t
  {
    match t
    case CreateNote => 0
    case Search => 1
    case ReadNote => 2
    case UpdateNote => 3
    case AppendJournal => 4
    case Status => 5
  }

  /** Each tool is listed exactly once. */
  lemma ListedOnce(i: nat)
    requires i < |AllTools|
    ensures Position(AllTools[i]) == i
  {
  }

  /** The JSON type a rule admits. */
  function TypeOfRule(rule: Rule): string
  {
    match rule
    case Text => "string"
    case OptionalText => "string"
    case OptionalTextList => "array"
    case IntIn(_, _, _) => "number"
    case Flag(_) => "boolean"
  }

  /** The JSON type of the items a rule admits, for the one rule that admits a list. */
  function ItemsOfRule(rule: Rule): Option<string>
  {
    if rule.OptionalTextList? then Some("string") else None
  }

  /** The keys a schema demands (rule `Text`), in schema order. */
  function RequiredKeys(s: seq<Field>): (keys: seq<string>)
    ensures forall k :: k in keys <==> exists i :: 0 <= i < |s| && s[i].key == k && s[i].rule.Text?
  {
    if s == [] then []
    else
      var rest := RequiredKeys(s[1..]);
      assert forall i :: 1 <= i < |s| ==> s[i] == s[1..][i - 1];
      if s[0].rule.Text? then [s[0].key] + rest else rest
  }

  lemma {:induction false} NoneRequired(s: seq<Field>)
    requires forall i :: 0 <= i < |s| ==> !s[i].rule.Text?
    ensures RequiredKeys(s) == []
  {
    if s != [] {
      assert forall i :: 1 <= i < |s| ==> s[i] == s[1..][i - 1];
      NoneRequired(s[1..]);
    }
  }

  /** A schema whose first key alone is demanded advertises just that key as required. */
  lemma OnlyFirstRequired(s: seq<Field>)
    requires s != [] && s[0].rule.Text?
    requires forall i :: 1 <= i < |s| ==> !s[i].rule.Text?
    ensures RequiredKeys(s) == [s[0].key]
  {
    assert forall i :: 1 <= i < |s| ==> s[i] == s[1..][i - 1];
    NoneRequired(s[1..]);
  }

  /** An advertised property describes a schema field: same key, type and item type. */
  predicate Describes(p: Property, f: Field)
  {
    p.key == f.key && p.typ == TypeOfRule(f.rule) && p.items == ItemsOfRule(f.rule)
  }

  /** The key, type and item type of each property, descriptions dropped. */
  function Shapes(ps: seq<Property>): (r: seq<(string, string, Option<string>)>)
    ensures |r| == |ps|
  {
    if ps == [] then [] else [(ps[0].key, ps[0].typ, ps[0].items)] + Shapes(ps[1..])
  }

  /** The key, type and item type each field of a schema calls for. */
  function Expected(s: seq<Field>): (r: seq<(string, string, Option<string>)>)
    ensures |r| == |s|
  {
    if s == [] then [] else [(s[0].key, TypeOfRule(s[0].rule), ItemsOfRule(s[0].rule))] + Expected(s[1..])
  }

  /** Equal shapes mean each property describes the field at its position. */
  lemma {:induction false} ShapesDescribe(ps: seq<Property>, s: seq<Field>)
    requires Shapes(ps) == Expected(s)
    ensures |ps| == |s|
    ensures forall i :: 0 <= i < |s| ==> Describes(ps[i], s[i])
  {
    if ps != [] && s != [] {
      assert Shapes(ps)[0] == Expected(s)[0];
      assert Shapes(ps[1..]) == Shapes(ps)[1..];
      assert Expected(s[1..]) == Expected(s)[1..];
      ShapesDescribe(ps[1..], s[1..]);
      assert forall i :: 1 <= i < |s| ==> ps[i] == ps[1..][i - 1] && s[i] == s[1..][i - 1];
    }
  }

  /**
   * The advertised input of each note tool agrees with its schema, key by
   * key and in order: the same keys with matching types (string items for
   * the list-valued keys), and `required` naming exactly the keys the
   * schema demands.
   */
  lemma DefinitionsMatchSchemas(t: Tool)
    requires !t.Status?
    ensures var d := Definition(t);
      var s := SchemaOf(t);
      && |d.properties| == |s|
      && (forall i :: 0 <= i < |s| ==> Describes(d.properties[i], s[i]))
      && d.required == Some(RequiredKeys(s))
  {
    var d, s := Definition(t), SchemaOf(t);
    ShapesDescribe(d.properties, s);
    OnlyFirstRequired(s);
  }

  /** Different tools have different names. */
  lemma ToolNamesDistinct(t: Tool, u: Tool)
    ensures ToolName(t) == ToolName(u) ==> t == u
  {
    ToolNamesSelect(t);
    ToolNamesSelect(u);
  }

  /** The listed names are the tool names, all different. */
  lemma ListedNamesDistinct(i: nat, j: nat)
    requires i < j < |ListTools()|
    ensures ListTools()[i].name != ListTools()[j].name
  {
    ListedOnce(i);
    ListedOnce(j);
    ToolNamesDistinct(AllTools[i], AllTools[j]);
  }
}
