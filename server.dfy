/**
 * The JSON-RPC 2.0 STDIO front end of the MCP server (`MCPServerSTDIO`): it reads one request
 * per line, routes it by method, and writes one JSON value per output line.
 *
 * Values stand for the lines themselves: `json.dumps` of an output and `json.loads` of an input
 * line are not modelled, decoding is a parameter (`None` standing for `JSONDecodeError`), and
 * the FastMCP tool registry is given as its tool list and a tool-call outcome function.
 */
module McpServer {
  import opened Seqs
  import opened Text
  import opened JsonValue

  /** A registered tool as `list_tools()` reports it. */
  datatype Tool = Tool(name: string, description: string)

  /** What `server.call_tool(name, args)` does: return a value, or raise with a message. */
  datatype CallOutcome = Returned(value: Json) | Raised(message: string)

  /** The JSON-RPC error code of a line that is not JSON (section 5.1 of the JSON-RPC 2.0 Specification). */
  const ParseErrorCode := -32700

  /** The code every other error response carries. */
  const ToolErrorCode := -1

  function ErrorObject(code: int, message: string): Json
  {
    JObj(map["code" := JInt(code), "message" := JStr(message)])
  }

  /**
   * `send_response`: the envelope with the id, and then an "error" member when the error
   * string is non-empty, a "result" member otherwise.
   */
  function Response(id: Json, result: Json, error: string): (r: Json)
    ensures r.JObj? && r.fields.Keys == {"jsonrpc", "id", if error != "" then "error" else "result"}
    ensures r.fields["jsonrpc"] == JStr("2.0") && r.fields["id"] == id
    ensures "error" in r.fields <==> error != ""
    ensures "result" in r.fields <==> error == ""
    ensures error == "" ==> r.fields["result"] == result
    ensures error != "" ==> r.fields["error"] == ErrorObject(ToolErrorCode, error)
  {
    var base := map["jsonrpc" := JStr("2.0"), "id" := id];
    if error != "" then JObj(base["error" := ErrorObject(ToolErrorCode, error)])
    else JObj(base["result" := result])
  }

  /** `send_notification(method)` without parameters. */
  function Notification(methodName: string): (r: Json)
    ensures r.JObj? && r.fields.Keys == {"jsonrpc", "method"} && r.fields["method"] == JStr(methodName)
  {
    JObj(map["jsonrpc" := JStr("2.0"), "method" := JStr(methodName)])
  }

  /** The line written for an undecodable input line. */
  const ParseErrorLine: Json :=
    JObj(map["jsonrpc" := JStr("2.0"), "id" := JNull, "error" := ErrorObject(ParseErrorCode, "Parse error")])

  /** The `initialize` result: tool capabilities that may change, and the server's name and version. */
  function InitializeResult(serverName: string): Json
  {
    JObj(map[
      "capabilities" := JObj(map["tools" := JObj(map["listChanged" := JBool(true)])]),
      "serverInfo" := JObj(map["name" := JStr(serverName), "version" := JStr("1.0.0")])])
  }

  function NumberParam(description: string): Json
  {
    JObj(map["type" := JStr("number"), "description" := JStr(description)])
  }

  /** The input schema every tool is advertised with, whatever its real parameters. */
  const InputSchema: Json :=
    JObj(map[
      "type" := JStr("object"),
      "properties" := JObj(map["a" := NumberParam("First number"), "b" := NumberParam("Second number")]),
      "required" := JArr([JStr("a"), JStr("b")])])

  function Descriptor(t: Tool): (r: Json)
    ensures r.JObj? && r.fields.Keys == {"name", "description", "inputSchema"}
    ensures r.fields["name"] == JStr(t.name) && r.fields["inputSchema"] == InputSchema
  {
    JObj(map["name" := JStr(t.name), "description" := JStr(t.description), "inputSchema" := InputSchema])
  }

  /** The `tools` array of a `tools/list` result: one descriptor per registered tool, in registry order. */
  function Descriptors(registry: seq<Tool>): (r: seq<Json>)
    ensures |r| == |registry|
    ensures forall i :: 0 <= i < |r| ==> r[i] == Descriptor(registry[i])
  {
    seq(|registry|, i requires 0 <= i < |registry| => Descriptor(registry[i]))
  }

  /** The single text item a successful tool call is wrapped in. */
  function TextContent(text: string): Json
  {
    JObj(map["content" := JArr([JObj(map["type" := JStr("text"), "text" := JStr(text)])])])
  }

  /**
   * `handle_tools_call`: the response to a `tools/call` with the given params. Calling `.get`
   * on params that are not a dict raises inside the `try`, so it ends in an error response too.
   */
  function CallReply(id: Json, params: Json, call: (Json, Json) -> CallOutcome, repr: Json -> string): (r: Json)
  {
    if !params.JObj? then Response(id, JNull, NoGetMessage(params))
    else
      var name := Get(params.fields, "name", JNull);
      var args := Get(params.fields, "arguments", JObj(map[]));
      match call(name, args)
      case Returned(v) => Response(id, TextContent(Show(v, repr)), "")
      case Raised(message) => Response(id, JNull, message)
  }

  /** The method of a request, when it is one of the strings routed on. */
  predicate IsMethod(m: Json, name: string) { m == JStr(name) }

  /**
   * `handle_request`: the lines one request object writes. The request's "method" and "id"
   * default to `None` and its "params" to `{}`.
   */
  function Reply(serverName: string, registry: seq<Tool>, call: (Json, Json) -> CallOutcome, repr: Json -> string,
                 request: map<string, Json>): (r: seq<Json>)
  {
    var m := Get(request, "method", JNull);
    var id := Get(request, "id", JNull);
    var params := Get(request, "params", JObj(map[]));
    if IsMethod(m, "initialize") then
      [Response(id, InitializeResult(serverName), ""), Notification("initialized")]
    else if IsMethod(m, "initialized") then []
    else if IsMethod(m, "tools/list") then
      [Response(id, JObj(map["tools" := JArr(Descriptors(registry))]), "")]
    else if IsMethod(m, "tools/call") then
      [CallReply(id, params, call, repr)]
    else if id != JNull then
      [Response(id, JNull, "Unknown method: " + Show(m, repr))]
    else []
  }

  /**
   * One input line of `run`: the lines it writes, or `None` when it ends the server. Blank
   * lines are skipped; an undecodable line writes the parse-error line; a decoded value that
   * is not an object makes `request.get` raise outside the per-line handler.
   */
  function LineOutput(serverName: string, registry: seq<Tool>, call: (Json, Json) -> CallOutcome, repr: Json -> string,
                      decode: string -> Option<Json>, raw: string): (r: Option<seq<Json>>)
  {
    var line := Strip(raw);
    if line == "" then Some([])
    else match decode(line)
      case None => Some([ParseErrorLine])
      case Some(request) =>
        if request.JObj? then Some(Reply(serverName, registry, call, repr, request.fields)) else None
  }

  /** What `run` ends with: the lines written and the exit status (0 at end of input). */
  datatype RunResult = RunResult(out: seq<Json>, status: int)

  /** `run` over the remaining input lines: the first line that ends the server gives status 1. */
  function RunLines(serverName: string, registry: seq<Tool>, call: (Json, Json) -> CallOutcome, repr: Json -> string,
                    decode: string -> Option<Json>, lines: seq<string>): (r: RunResult)
    ensures r.status == 0 || r.status == 1
  {
    if lines == [] then RunResult([], 0)
    else match LineOutput(serverName, registry, call, repr, decode, lines[0])
      case None => RunResult([], 1)
      case Some(o) =>
        var rest := RunLines(serverName, registry, call, repr, decode, lines[1..]);
        RunResult(o + rest.out, rest.status)
  }

  /** `run` from line `i` on: that line's output, then the rest unless the line ends the server. */
  lemma RunLinesAt(serverName: string, registry: seq<Tool>, call: (Json, Json) -> CallOutcome, repr: Json -> string,
                   decode: string -> Option<Json>, lines: seq<string>, i: nat)
    requires i < |lines|
    ensures var o := LineOutput(serverName, registry, call, repr, decode, lines[i]);
      var next := RunLines(serverName, registry, call, repr, decode, lines[i + 1..]);
      RunLines(serverName, registry, call, repr, decode, lines[i..])
        == if o.None? then RunResult([], 1) else RunResult(o.value + next.out, next.status)
  {
    assert lines[i..][1..] == lines[i + 1..];
    assert lines[i..][0] == lines[i];
  }

  class Server {
    /** `self.server.name`. */
    const name: string
    /** `self.server.list_tools()`. */
    const registry: seq<Tool>
    /** The lines written to standard output so far. */
    var out: seq<Json>

    constructor(name: string, registry: seq<Tool>)
      ensures this.name == name && this.registry == registry && out == []
    {
      this.name := name;
      this.registry := registry;
      out := [];
    }

    method SendResponse(id: Json, result: Json, error: string)
      modifies this
      ensures out == old(out) + [Response(id, result, error)]
    {
      var response := map["jsonrpc" := JStr("2.0"), "id" := id];
      if error != "" {
        response := response["error" := ErrorObject(ToolErrorCode, error)];
      } else {
        response := response["result" := result];
      }
      out := out + [JObj(response)];
    }

    method SendNotification(methodName: string)
      modifies this
      ensures out == old(out) + [Notification(methodName)]
    {
      out := out + [Notification(methodName)];
    }

    method HandleInitialize(id: Json)
      modifies this
      ensures out == old(out) + [Response(id, InitializeResult(name), ""), Notification("initialized")]
    {
      SendResponse(id, InitializeResult(name), "");
      SendNotification("initialized");
    }

    method HandleToolsList(id: Json)
      modifies this
      ensures out == old(out) + [Response(id, JObj(map["tools" := JArr(Descriptors(registry))]), "")]
    {
      var tools: seq<Json> := [];
      var i := 0;
      while i < |registry|
        invariant 0 <= i <= |registry|
        invariant tools == Descriptors(registry[..i])
      {
        tools := tools + [Descriptor(registry[i])];
        i := i + 1;
      }
      assert registry[..i] == registry;
      SendResponse(id, JObj(map["tools" := JArr(tools)]), "");
    }

    method HandleToolsCall(id: Json, params: Json, call: (Json, Json) -> CallOutcome, repr: Json -> string)
      modifies this
      ensures out == old(out) + [CallReply(id, params, call, repr)]
    {
      if !params.JObj? {
        SendResponse(id, JNull, NoGetMessage(params));
        return;
      }
      var name := Get(params.fields, "name", JNull);
      var args := Get(params.fields, "arguments", JObj(map[]));
      var outcome := call(name, args);
      match outcome {
        case Returned(v) =>
          SendResponse(id, TextContent(Show(v, repr)), "");
        case Raised(message) =>
          SendResponse(id, JNull, message);
      }
    }

    method HandleRequest(request: map<string, Json>, call: (Json, Json) -> CallOutcome, repr: Json -> string)
      modifies this
      ensures out == old(out) + Reply(name, registry, call, repr, request)
    {
      var m := Get(request, "method", JNull);
      var id := Get(request, "id", JNull);
      var params := Get(request, "params", JObj(map[]));
      if m == JStr("initialize") {
        HandleInitialize(id);
      } else if m == JStr("initialized") {
      } else if m == JStr("tools/list") {
        HandleToolsList(id);
      } else if m == JStr("tools/call") {
        HandleToolsCall(id, params, call, repr);
      } else if id != JNull {
        SendResponse(id, JNull, "Unknown method: " + Show(m, repr));
      }
    }

    /** The body of `run`'s loop for one line; `stop` when the line ends the server. */
    method HandleLine(raw: string, decode: string -> Option<Json>, call: (Json, Json) -> CallOutcome, repr: Json -> string)
      returns (stop: bool)
      modifies this
      ensures var o := LineOutput(name, registry, call, repr, decode, raw);
        stop == o.None? && (o.Some? ==> out == old(out) + o.value) && (o.None? ==> out == old(out))
    {
      var line := Strip(raw);
      if line == "" {
        return false;
      }
      var request := decode(line);
      match request {
        case None =>
          out := out + [ParseErrorLine];
          return false;
        case Some(req) =>
          if !req.JObj? {
            return true;
          }
          HandleRequest(req.fields, call, repr);
          return false;
      }
    }

    /** One turn of `run`'s loop, stated against what `run` does with the rest of the input. */
    method Step(lines: seq<string>, i: nat, decode: string -> Option<Json>, call: (Json, Json) -> CallOutcome, repr: Json -> string)
      returns (stop: bool)
      requires i < |lines|
      modifies this
      ensures var now := RunLines(name, registry, call, repr, decode, lines[i..]);
        var next := RunLines(name, registry, call, repr, decode, lines[i + 1..]);
        if stop then out == old(out) && now == RunResult([], 1)
        else out + next.out == old(out) + now.out && next.status == now.status
    {
      RunLinesAt(name, registry, call, repr, decode, lines, i);
      stop := HandleLine(lines[i], decode, call, repr);
    }

    method Run(lines: seq<string>, decode: string -> Option<Json>, call: (Json, Json) -> CallOutcome, repr: Json -> string)
      returns (status: int)
      modifies this
      ensures out == old(out) + RunLines(name, registry, call, repr, decode, lines).out
      ensures status == RunLines(name, registry, call, repr, decode, lines).status
    {
      var i := 0;
      while i < |lines|
        invariant 0 <= i <= |lines|
        invariant out + RunLines(name, registry, call, repr, decode, lines[i..]).out == old(out) + RunLines(name, registry, call, repr, decode, lines).out
        invariant RunLines(name, registry, call, repr, decode, lines[i..]).status == RunLines(name, registry, call, repr, decode, lines).status
      {
        var stop := Step(lines, i, decode, call, repr);
        if stop {
          return 1;
        }
        i := i + 1;
      }
      assert out + [] == out;
      return 0;
    }
  }

  // ---------------------------------------------------------------------------
  // Properties
  // ---------------------------------------------------------------------------

  /** An empty error message turns an error response into a null result. */
  lemma EmptyErrorIsNullResult(id: Json, params: Json, call: (Json, Json) -> CallOutcome, repr: Json -> string)
    requires params.JObj?
    requires call(Get(params.fields, "name", JNull), Get(params.fields, "arguments", JObj(map[]))) == Raised("")
    ensures var r := CallReply(id, params, call, repr);
      "error" !in r.fields && r.fields["result"] == JNull
  {
  }

  /** Every line a request writes is a response with exactly one of "error" and "result", or the "initialized" notification. */
  lemma ReplyShapes(serverName: string, registry: seq<Tool>, call: (Json, Json) -> CallOutcome, repr: Json -> string,
                    request: map<string, Json>)
    ensures forall line :: line in Reply(serverName, registry, call, repr, request) ==>
      line == Notification("initialized")
      || (line.JObj? && "id" in line.fields && ("error" in line.fields <==> "result" !in line.fields))
  {
  }

  /**
   * "initialize" answers with the result and then the "initialized" notification, even
   * without an id; the result advertises that the tool list can change.
   */
  lemma InitializeWritesTwoLines(serverName: string, registry: seq<Tool>, call: (Json, Json) -> CallOutcome, repr: Json -> string,
                                 request: map<string, Json>)
    requires "method" in request && request["method"] == JStr("initialize")
    ensures var r := Reply(serverName, registry, call, repr, request);
      |r| == 2 && r[1] == Notification("initialized")
      && r[0].fields["id"] == (if "id" in request then request["id"] else JNull)
      && r[0].fields["result"].fields["capabilities"].fields["tools"].fields["listChanged"] == JBool(true)
  {
  }

  /**
   * The routing of a request that is none of the four known methods: it is answered with
   * "Unknown method: <m>" when it has an id, and silently dropped when it is a notification.
   * The "initialized" notification is never answered.
   */
  lemma UnknownMethodAnsweredOnlyWithId(serverName: string, registry: seq<Tool>, call: (Json, Json) -> CallOutcome, repr: Json -> string,
                                        request: map<string, Json>)
    requires var m := Get(request, "method", JNull);
      !IsMethod(m, "initialize") && !IsMethod(m, "tools/list") && !IsMethod(m, "tools/call")
    ensures var r := Reply(serverName, registry, call, repr, request);
      var m := Get(request, "method", JNull);
      var id := Get(request, "id", JNull);
      (r == [] <==> id == JNull || IsMethod(m, "initialized"))
      && (r != [] ==> r == [Response(id, JNull, "Unknown method: " + Show(m, repr))])
  {
  }

  /** "tools/list" lists every registered tool by name, in registry order, with the shared schema. */
  lemma ToolsListInOrder(serverName: string, registry: seq<Tool>, call: (Json, Json) -> CallOutcome, repr: Json -> string,
                         request: map<string, Json>)
    requires "method" in request && request["method"] == JStr("tools/list")
    ensures var r := Reply(serverName, registry, call, repr, request);
      |r| == 1 && r[0].fields["result"].fields["tools"].JArr?
      && var items := r[0].fields["result"].fields["tools"].items;
      |items| == |registry|
      && forall i :: 0 <= i < |items| ==> items[i].fields["name"] == JStr(registry[i].name) && items[i].fields["inputSchema"] == InputSchema
  {
  }

  /**
   * "tools/call" wraps `str(result)` in one text item, or reports the exception's message;
   * params that are not a dict are reported as the `AttributeError` they raise.
   */
  lemma ToolsCallOutcome(id: Json, params: Json, call: (Json, Json) -> CallOutcome, repr: Json -> string)
    ensures var r := CallReply(id, params, call, repr);
      r.fields["id"] == id
      && (!params.JObj? ==> r.fields["error"] == ErrorObject(ToolErrorCode, NoGetMessage(params)))
      && (params.JObj? ==>
            var o := call(Get(params.fields, "name", JNull), Get(params.fields, "arguments", JObj(map[])));
            (o.Returned? ==> r.fields["result"] == TextContent(Show(o.value, repr)))
            && (o.Raised? && o.message != "" ==> r.fields["error"] == ErrorObject(ToolErrorCode, o.message)))
  {
  }

  /** An undecodable line writes exactly the parse-error line, and the server goes on with the next line. */
  lemma ParseErrorContinues(serverName: string, registry: seq<Tool>, call: (Json, Json) -> CallOutcome, repr: Json -> string,
                   decode: string -> Option<Json>, line: string, rest: seq<string>)
    requires Strip(line) != "" && decode(Strip(line)) == None
    ensures var r := RunLines(serverName, registry, call, repr, decode, rest);
      RunLines(serverName, registry, call, repr, decode, [line] + rest) == RunResult([ParseErrorLine] + r.out, r.status)
  {
    assert ([line] + rest)[1..] == rest;
  }

  /** A blank line writes nothing and the server goes on with the next line. */
  lemma BlankLineSkipped(serverName: string, registry: seq<Tool>, call: (Json, Json) -> CallOutcome, repr: Json -> string,
                   decode: string -> Option<Json>, line: string, rest: seq<string>)
    requires Strip(line) == ""
    ensures RunLines(serverName, registry, call, repr, decode, [line] + rest) == RunLines(serverName, registry, call, repr, decode, rest)
  {
    assert ([line] + rest)[1..] == rest;
  }

  /** A request object writes its reply and the server goes on with the next line. */
  lemma RequestAnswered(serverName: string, registry: seq<Tool>, call: (Json, Json) -> CallOutcome, repr: Json -> string,
                   decode: string -> Option<Json>, line: string, rest: seq<string>)
    requires Strip(line) != "" && decode(Strip(line)).Some? && decode(Strip(line)).value.JObj?
    ensures var r := RunLines(serverName, registry, call, repr, decode, rest);
      RunLines(serverName, registry, call, repr, decode, [line] + rest) == RunResult(Reply(serverName, registry, call, repr, decode(Strip(line)).value.fields) + r.out, r.status)
  {
    assert ([line] + rest)[1..] == rest;
  }

  /** Only a line that holds JSON but not an object ends the server. */
  lemma NonObjectIsTheOnlyStop(serverName: string, registry: seq<Tool>, call: (Json, Json) -> CallOutcome, repr: Json -> string,
                   decode: string -> Option<Json>, raw: string)
    ensures LineOutput(serverName, registry, call, repr, decode, raw) == None
        <==> Strip(raw) != "" && decode(Strip(raw)).Some? && !decode(Strip(raw)).value.JObj?
  {
  }

  /** A line holding JSON that is not an object stops the server with status 1: nothing after it is read. */
  lemma {:induction false} NonObjectStops(serverName: string, registry: seq<Tool>, call: (Json, Json) -> CallOutcome, repr: Json -> string,
                   decode: string -> Option<Json>, before: seq<string>, bad: string, after: seq<string>)
    requires LineOutput(serverName, registry, call, repr, decode, bad) == None
    ensures RunLines(serverName, registry, call, repr, decode, before + [bad] + after).status == 1
    ensures RunLines(serverName, registry, call, repr, decode, before + [bad] + after).out == RunLines(serverName, registry, call, repr, decode, before + [bad]).out
  {
    if before != [] {
      assert (before + [bad] + after)[1..] == before[1..] + [bad] + after;
      assert (before + [bad])[1..] == before[1..] + [bad];
      NonObjectStops(serverName, registry, call, repr, decode, before[1..], bad, after);
    } else {
      assert (before + [bad] + after)[0] == bad && (before + [bad])[0] == bad;
    }
  }

  /** Without a stopping line, the server reads all of its input and exits normally. */
  lemma {:induction false} NoStopExitsNormally(serverName: string, registry: seq<Tool>, call: (Json, Json) -> CallOutcome, repr: Json -> string,
                   decode: string -> Option<Json>, lines: seq<string>)
    requires forall k :: 0 <= k < |lines| ==> LineOutput(serverName, registry, call, repr, decode, lines[k]).Some?
    ensures RunLines(serverName, registry, call, repr, decode, lines).status == 0
  {
    if lines != [] {
      NoStopExitsNormally(serverName, registry, call, repr, decode, lines[1..]);
    }
  }
}
