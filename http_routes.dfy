/**
  The decision logic of the wrapper's HTTP routes: what `/tools`,
  `/tools/<tool_name>` and `/tools/batch` answer, as a status code and the
  envelope `jsonify` is given. A request body is what `request.get_json()`
  gave: None, or a JSON object. An exception that escapes a route body is
  returned as `Uncaught`; the decorator that turns it into a response is not
  part of this model.
*/
module HttpRoutes {
  import opened Wrappers
  import opened Json
  import opened ToolCatalog
  import opened ToolRegistry
  import opened Distinctness

  /** One result of a batch: the entry's `name` and the tool's data or the error's message. */
  datatype BatchEntry = Succeeded(tool: Value, data: Value) | Failed(tool: Value, error: string)

  /** The dictionaries the routes hand to `jsonify`. */
  datatype Envelope =
    | ToolResult(tool: string, data: Value)
    | BatchResult(results: seq<BatchEntry>)
    | Catalog(tools: seq<ToolDescriptor>, count: nat)
    | Error(error: string)

  /** What a route body does: answer with a status and an envelope, or let an exception escape. */
  datatype Response = Reply(status: int, envelope: Envelope) | Uncaught(fault: Fault)

  const InvalidJsonBody: string := "Request body must be valid JSON"
  const MissingToolsArray: string := "Request must contain \"tools\" array"

  type Body = Option<map<string, Value>>

  /** `not data`: no JSON at all, or an empty object. */
  function Falsy(body: Body): (falsy: bool)
    ensures falsy <==> body.None? || Object(body.value) == EmptyObject
    ensures body.Some? && |body.value| > 0 ==> !falsy
  {
    body.None? || body.value == map[]
  }

  /** The `success` flag an envelope carries. */
  function Success(e: Envelope): bool
  {
    !e.Error?
  }

  /** A batch result as the dictionary the route appends. */
  function EntryJson(r: BatchEntry): (v: Value)
    ensures v.Object? && "tool" in v.fields && "success" in v.fields
    ensures v.fields["tool"] == r.tool && v.fields["success"] == Bool(r.Succeeded?)
    ensures r.Succeeded? ==> v.fields.Keys == {"tool", "success", "data"} && v.fields["data"] == r.data
    ensures r.Failed? ==> v.fields.Keys == {"tool", "success", "error"} && v.fields["error"] == Str(r.error)
  {
    match r
    case Succeeded(tool, data) => Object(map["tool" := tool, "success" := Bool(true), "data" := data])
    case Failed(tool, error) => Object(map["tool" := tool, "success" := Bool(false), "error" := Str(error)])
  }

  /** The batch results in the order the route appended them. */
  function EntriesJson(rs: seq<BatchEntry>): (vs: seq<Value>)
    ensures |vs| == |rs|
    ensures forall k :: 0 <= k < |rs| ==> vs[k] == EntryJson(rs[k])
  {
    if rs == [] then [] else [EntryJson(rs[0])] + EntriesJson(rs[1..])
  }

  /** The dictionary given to `jsonify`. */
  function EnvelopeJson(e: Envelope): (v: Value)
    ensures v.Object? && "success" in v.fields && v.fields["success"] == Bool(Success(e))
    ensures e.Error? ==> v.fields.Keys == {"success", "error"} && v.fields["error"] == Str(e.error)
    ensures e.ToolResult? ==> v.fields.Keys == {"success", "tool", "data"} && v.fields["tool"] == Str(e.tool) && v.fields["data"] == e.data
    ensures e.BatchResult? ==> v.fields.Keys == {"success", "results"} && v.fields["results"] == List(EntriesJson(e.results))
    ensures e.Catalog? ==> v.fields.Keys == {"success", "tools", "count"} && v.fields["count"] == Int(e.count)
    ensures e.Catalog? ==>
              && v.fields["tools"].List? && |v.fields["tools"].items| == |e.tools|
              && forall i :: 0 <= i < |e.tools| ==> v.fields["tools"].items[i] == ToolJson(e.tools[i])
  {
    match e
    case ToolResult(tool, data) => Object(map["success" := Bool(true), "tool" := Str(tool), "data" := data])
    case BatchResult(results) => Object(map["success" := Bool(true), "results" := List(EntriesJson(results))])
    case Catalog(tools, count) =>
      Object(map["success" := Bool(true), "tools" := List(seq(|tools|, i requires 0 <= i < |tools| => ToolJson(tools[i]))), "count" := Int(count)])
    case Error(error) => Object(map["success" := Bool(false), "error" := Str(error)])
  }

  /** GET `/tools`: the catalog and its length. */
  function ListToolsRoute(): (r: Response)
    ensures r.Reply? && r.status == 200 && r.envelope.Catalog?
    ensures r.envelope.tools == ListTools() && r.envelope.count == |r.envelope.tools|
  {
    Reply(200, Catalog(ListTools(), |ListTools()|))
  }

  /** The `/tools` route advertises exactly the thirty dispatchable tools, each once. */
  lemma ListToolsRouteAdvertisesMapping()
    ensures var e := ListToolsRoute().envelope;
            && e.count == 30
            && Distinct(Names(e.tools))
            && Elements(Names(e.tools)) == ToolMapping().Keys
  {
    CatalogMatchesMapping();
  }

  /** POST `/tools/<tool_name>`: 400 without a body, else the call's outcome as 200, 404 or 500. */
  function ExecuteTool(manager: Manager, toolName: string, body: Body): (r: Response)
    ensures r.Reply?
    ensures r.status == 400 <==> Falsy(body)
    ensures Falsy(body) ==> r.envelope == Error(InvalidJsonBody)
  {
    if Falsy(body) then Reply(400, Error(InvalidJsonBody))
    else
      var arguments := Get(body.value, "arguments", EmptyObject);
      match CallTool(manager, Str(toolName), arguments)
      case Ok(data) => Reply(200, ToolResult(toolName, data))
      case Err(f) => Reply(if IsValueError(f) then 404 else 500, Error(Message(f)))
  }

  /**
    With a body, the status follows the call's outcome: 200 with the result
    on success; 404 for any ValueError, whether the lookup or the Manager
    raised it; 500 for any other exception; the error's message in both
    failure cases.
  */
  lemma ExecuteToolStatus(manager: Manager, toolName: string, fields: map<string, Value>)
    requires fields != map[]
    ensures var r := ExecuteTool(manager, toolName, Some(fields));
            var outcome := CallTool(manager, Str(toolName), Get(fields, "arguments", EmptyObject));
            && (r.status == 200 <==> outcome.Ok?)
            && (outcome.Ok? ==> r.envelope == ToolResult(toolName, outcome.value))
            && (r.status == 404 <==> outcome.Err? && IsValueError(outcome.error))
            && (r.status == 500 <==> outcome.Err? && !IsValueError(outcome.error))
            && (outcome.Err? ==> r.envelope == Error(Message(outcome.error)))
  {
  }

  /** A falsy body is answered 400 before any tool is called: the answer is the same for every Manager and tool name. */
  lemma FalsyBodyCallsNoTool(m1: Manager, m2: Manager, t1: string, t2: string, body: Body)
    requires Falsy(body)
    ensures ExecuteTool(m1, t1, body) == ExecuteTool(m2, t2, body) == Reply(400, Error(InvalidJsonBody))
  {
  }

  /** An unknown tool name is answered 404 with "Unknown tool: <name>", whatever the Manager does. */
  lemma UnknownToolIs404(manager: Manager, toolName: string, fields: map<string, Value>)
    requires fields != map[]
    requires toolName !in ToolMapping()
    ensures ExecuteTool(manager, toolName, Some(fields)) == Reply(404, Error("Unknown tool: " + toolName))
  {
  }

  /** A ValueError raised by the Manager for a known tool is also answered 404. */
  lemma HandlerValueErrorIs404(manager: Manager, toolName: string, fields: map<string, Value>)
    requires fields != map[] && toolName in ToolMapping()
    requires Dispatch(Str(toolName), Get(fields, "arguments", EmptyObject)).Ok?
    requires manager(Dispatch(Str(toolName), Get(fields, "arguments", EmptyObject)).value).Threw?
    requires manager(Dispatch(Str(toolName), Get(fields, "arguments", EmptyObject)).value).isValueError
    ensures ExecuteTool(manager, toolName, Some(fields)).status == 404
  {
  }

  /** A body without an `arguments` key is handled as if it held `"arguments": {}`. */
  lemma MissingArgumentsKeyMeansEmpty(manager: Manager, toolName: string, fields: map<string, Value>)
    requires fields != map[] && "arguments" !in fields
    ensures ExecuteTool(manager, toolName, Some(fields)) == ExecuteTool(manager, toolName, Some(fields["arguments" := EmptyObject]))
  {
  }

  /** The result of one batch entry, which is a dict: the call's outcome, keyed by the entry's `name`. */
  function RunEntry(manager: Manager, entry: map<string, Value>): (r: BatchEntry)
    ensures r.tool == Get(entry, "name", Null)
    ensures var outcome := CallTool(manager, Get(entry, "name", Null), Get(entry, "arguments", EmptyObject));
            && (r.Succeeded? <==> outcome.Ok?)
            && (outcome.Ok? ==> r.data == outcome.value)
            && (outcome.Err? ==> r.error == Message(outcome.error))
  {
    var tool := Get(entry, "name", Null);
    match CallTool(manager, tool, Get(entry, "arguments", EmptyObject))
    case Ok(data) => Succeeded(tool, data)
    case Err(f) => Failed(tool, Message(f))
  }

  /**
    The values `for tool_request in data['tools']` visits: a list's items, a
    string's characters, a dict's keys (all strings, so the first one's
    `.get` raises); None, a bool or an int cannot be iterated.
  */
  function ToolRequests(tools: Value): (r: Result<seq<Value>, Fault>)
    ensures tools.List? ==> r == Ok(tools.items)
    ensures tools.Str? ==> r.Ok? && |r.value| == |tools.s| && forall k :: 0 <= k < |tools.s| ==> r.value[k] == Str([tools.s[k]])
    ensures r.Err? <==> tools.Null? || tools.Bool? || tools.Int? || (tools.Object? && tools.fields != map[])
    ensures tools.Object? && tools.fields == map[] ==> r == Ok([])
    ensures tools.Object? && tools.fields != map[] ==> r == Err(NoGet("str"))
    ensures (tools.Null? || tools.Bool? || tools.Int?) ==> r == Err(NotIterable(TypeName(tools)))
  {
    match tools
    case List(items) => Ok(items)
    case Str(s) => Ok(seq(|s|, k requires 0 <= k < |s| => Str([s[k]])))
    case Object(fields) => if fields == map[] then Ok([]) else Err(NoGet("str"))
    case _ => Err(NotIterable(TypeName(tools)))
  }

  /**
    The loop over the entries: one result per entry, in order, until an entry
    that is not a dict, whose `.get` raises outside the per-entry `try`.
  */
  function RunEntries(manager: Manager, entries: seq<Value>): (r: Result<seq<BatchEntry>, Fault>)
    ensures r.Ok? ==> |r.value| == |entries|
    ensures r.Ok? && entries != [] ==> entries[0].Object? && r.value[0] == RunEntry(manager, entries[0].fields)
    ensures r.Err? ==> r.error.NoGet? && r.error.typeName != "dict"
  {
    if entries == [] then Ok([])
    else if !entries[0].Object? then Err(NoGet(TypeName(entries[0])))
    else
      match RunEntries(manager, entries[1..])
      case Err(f) => Err(f)
      case Ok(rest) => Ok([RunEntry(manager, entries[0].fields)] + rest)
  }

  /** The loop completes exactly when every entry is a dict, and then gives each entry's result at its own position. */
  lemma {:induction false} RunEntriesShape(manager: Manager, entries: seq<Value>)
    ensures RunEntries(manager, entries).Ok? <==> forall k :: 0 <= k < |entries| ==> entries[k].Object?
    ensures RunEntries(manager, entries).Ok? ==>
              var results := RunEntries(manager, entries).value;
              |results| == |entries| &&
              forall k :: 0 <= k < |entries| ==> results[k] == RunEntry(manager, entries[k].fields)
  {
    if entries != [] {
      RunEntriesShape(manager, entries[1..]);
      if entries[0].Object? && RunEntries(manager, entries[1..]).Ok? {
        var results := RunEntries(manager, entries).value;
        forall k | 0 <= k < |entries| ensures results[k] == RunEntry(manager, entries[k].fields) {
          if k > 0 {
            assert entries[k] == entries[1..][k - 1];
          }
        }
      } else if entries[0].Object? {
        var k :| 0 <= k < |entries[1..]| && !entries[1..][k].Object?;
        assert !entries[k + 1].Object?;
      }
    }
  }

  /** When the loop stops early, the exception is the `.get` of the first entry that is not a dict. */
  lemma {:induction false} RunEntriesFirstFault(manager: Manager, entries: seq<Value>, j: nat)
    requires j < |entries| && !entries[j].Object?
    requires forall k :: 0 <= k < j ==> entries[k].Object?
    ensures RunEntries(manager, entries) == Err(NoGet(TypeName(entries[j])))
  {
    if j > 0 {
      RunEntriesFirstFault(manager, entries[1..], j - 1);
    }
  }

  /** POST `/tools/batch`, as a function of the body. */
  function BatchResponse(manager: Manager, body: Body): (r: Response)
    ensures r.Reply? && r.status == 400 <==> Falsy(body) || "tools" !in body.value
    ensures (Falsy(body) || "tools" !in body.value) ==> r == Reply(400, Error(MissingToolsArray))
    ensures r.Reply? && r.status != 400 ==> r.status == 200 && r.envelope.BatchResult?
  {
    if Falsy(body) || "tools" !in body.value then Reply(400, Error(MissingToolsArray))
    else
      match ToolRequests(body.value["tools"])
      case Err(f) => Uncaught(f)
      case Ok(entries) =>
        match RunEntries(manager, entries)
        case Err(f) => Uncaught(f)
        case Ok(results) => Reply(200, BatchResult(results))
  }

  /**
    The `for` loop of the batch route: one result appended per entry, the
    per-entry `try` catching whatever the call raises, until an entry that is
    not a dict makes the `.get` before the `try` raise.
  */
  method CollectResults(manager: Manager, entries: seq<Value>) returns (r: Result<seq<BatchEntry>, Fault>)
    ensures r == RunEntries(manager, entries)
  {
    var results: seq<BatchEntry> := [];
    var i := 0;
    while i < |entries|
      invariant 0 <= i <= |entries|
      invariant |results| == i
      invariant forall k :: 0 <= k < i ==> entries[k].Object? && results[k] == RunEntry(manager, entries[k].fields)
    {
      var entry := entries[i];
      if !entry.Object? {
        RunEntriesFirstFault(manager, entries, i);
        return Err(NoGet(TypeName(entry)));
      }
      var tool := Get(entry.fields, "name", Null);
      var arguments := Get(entry.fields, "arguments", EmptyObject);
      var outcome := CallTool(manager, tool, arguments);
      if outcome.Ok? {
        results := results + [Succeeded(tool, outcome.value)];
      } else {
        results := results + [Failed(tool, Message(outcome.error))];
      }
      i := i + 1;
    }
    RunEntriesShape(manager, entries);
    assert RunEntries(manager, entries).value == results;
    r := Ok(results);
  }

  /** POST `/tools/batch`: 400 without a `tools` key, else the loop's results. */
  method ExecuteBatch(manager: Manager, body: Body) returns (r: Response)
    ensures r == BatchResponse(manager, body)
  {
    if Falsy(body) || "tools" !in body.value {
      return Reply(400, Error(MissingToolsArray));
    }
    var requests := ToolRequests(body.value["tools"]);
    if requests.Err? {
      return Uncaught(requests.error);
    }
    var results := CollectResults(manager, requests.value);
    if results.Err? {
      return Uncaught(results.error);
    }
    r := Reply(200, BatchResult(results.value));
  }

  /**
    A batch of dicts is answered 200 with one result per entry, in input
    order, each carrying that entry's `name` (None when absent) and its own
    call's outcome.
  */
  lemma BatchOneResultPerEntry(manager: Manager, fields: map<string, Value>, items: seq<Value>)
    requires "tools" in fields && fields["tools"] == List(items)
    requires forall k :: 0 <= k < |items| ==> items[k].Object?
    ensures var r := BatchResponse(manager, Some(fields));
            && r.Reply? && r.status == 200 && Success(r.envelope)
            && |r.envelope.results| == |items|
            && forall k :: 0 <= k < |items| ==>
                 && r.envelope.results[k].tool == Get(items[k].fields, "name", Null)
                 && r.envelope.results[k] == RunEntry(manager, items[k].fields)
  {
    RunEntriesShape(manager, items);
  }

  /**
    A failing entry does not disturb the others: two batches of dicts that
    differ only at one position get the same result at every other position.
  */
  lemma BatchIsolation(manager: Manager, f1: map<string, Value>, f2: map<string, Value>, items1: seq<Value>, items2: seq<Value>, j: nat)
    requires "tools" in f1 && f1["tools"] == List(items1)
    requires "tools" in f2 && f2["tools"] == List(items2)
    requires |items1| == |items2| && j < |items1|
    requires forall k :: 0 <= k < |items1| ==> items1[k].Object? && items2[k].Object?
    requires forall k :: 0 <= k < |items1| && k != j ==> items1[k] == items2[k]
    ensures var r1, r2 := BatchResponse(manager, Some(f1)), BatchResponse(manager, Some(f2));
            && r1.Reply? && r2.Reply? && r1.status == r2.status == 200
            && r1.envelope.BatchResult? && r2.envelope.BatchResult?
            && |r1.envelope.results| == |r2.envelope.results| == |items1|
            && forall k :: 0 <= k < |items1| && k != j ==> r1.envelope.results[k] == r2.envelope.results[k]
  {
    BatchOneResultPerEntry(manager, f1, items1);
    BatchOneResultPerEntry(manager, f2, items2);
  }

  /** An entry that is not a dict makes the `.get` outside the per-entry `try` raise, so the route raises. */
  lemma BatchNonDictEntryEscapes(manager: Manager, fields: map<string, Value>, items: seq<Value>, j: nat)
    requires "tools" in fields && fields["tools"] == List(items)
    requires j < |items| && !items[j].Object?
    requires forall k :: 0 <= k < j ==> items[k].Object?
    ensures BatchResponse(manager, Some(fields)) == Uncaught(NoGet(TypeName(items[j])))
  {
    RunEntriesFirstFault(manager, items, j);
  }
}
