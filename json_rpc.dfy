/**
 * The wire format both tool clients speak to the stdio server: JSON-RPC 2.0
 * request objects (section 4 of the JSON-RPC 2.0 specification) written one
 * per line, the MCP `initialize` handshake and `tools/call`, and the
 * classification of a decoded reply by its `result` / `error` members
 * (section 5) into the content list handed back to callers.
 */
module JsonRpc {
  import opened Wrappers
  import opened Values
  import opened Text

  const ProtocolVersion: string := "2024-11-05"
  /** The handshake always uses id 0 and every tool call id 1: there is no request correlation. */
  const InitializeId: int := 0
  const ToolCallId: int := 1

  /** Section 4: a request object carries `"jsonrpc": "2.0"`, a string method, structured params and a string, number or null id. */
  predicate IsRequest(v: Value)
  {
    && v.Dict?
    && "jsonrpc" in v.fields && v.fields["jsonrpc"] == Str("2.0")
    && "method" in v.fields && v.fields["method"].Str?
    && ("params" in v.fields ==> v.fields["params"].List? || v.fields["params"].Dict?)
    && ("id" in v.fields ==> v.fields["id"].Str? || v.fields["id"].Int? || v.fields["id"].Num? || v.fields["id"].Null?)
  }

  /** The `initialize` request; the local client names itself enhanced-mcp-client, the AWS one enhanced-mcp-client-aws. */
  function InitializeRequest(clientName: string): (r: Value)
    ensures IsRequest(r)
    ensures Get(r, "id") == Some(Int(InitializeId)) && Get(r, "method") == Some(Str("initialize"))
    ensures HasKey(r, "params") && Get(r.fields["params"], "protocolVersion") == Some(Str(ProtocolVersion))
  {
    Dict(map[
      "jsonrpc" := Str("2.0"),
      "id" := Int(InitializeId),
      "method" := Str("initialize"),
      "params" := Dict(map[
        "protocolVersion" := Str(ProtocolVersion),
        "capabilities" := Dict(map["tools" := Dict(map[])]),
        "clientInfo" := Dict(map["name" := Str(clientName), "version" := Str("1.0.0")])])])
  }

  /** The `tools/call` request for one tool invocation. */
  function ToolsCallRequest(tool: string, arguments: Value): (r: Value)
    ensures IsRequest(r)
    ensures Get(r, "id") == Some(Int(ToolCallId)) && Get(r, "method") == Some(Str("tools/call"))
    ensures HasKey(r, "params") && Get(r.fields["params"], "name") == Some(Str(tool))
    ensures HasKey(r, "params") && Get(r.fields["params"], "arguments") == Some(arguments)
  {
    Dict(map[
      "jsonrpc" := Str("2.0"),
      "id" := Int(ToolCallId),
      "method" := Str("tools/call"),
      "params" := Dict(map["name" := Str(tool), "arguments" := arguments])])
  }

  /** Newline-delimited framing: the serialised request followed by one newline. */
  function Frame(payload: string): string
  {
    payload + "\n"
  }

  /** A frame whose payload has no raw newline reads back as exactly that payload, then the empty rest. */
  lemma {:induction false} FrameSplits(payload: string)
    requires '\n' !in payload
    ensures Split(Frame(payload), '\n') == [payload, []]
    decreases |payload|
  {
    if payload == [] {
      assert Frame(payload) == ['\n'];
      assert Frame(payload)[1..] == [];
    } else {
      assert Frame(payload)[1..] == Frame(payload[1..]);
      FrameSplits(payload[1..]);
      assert payload == [payload[0]] + payload[1..];
    }
  }

  /** Section 5: a response object has an id and exactly one of `result` and `error`; an error object has an integer code and a string message. */
  predicate IsResponse(v: Value)
  {
    && v.Dict?
    && "jsonrpc" in v.fields && v.fields["jsonrpc"] == Str("2.0")
    && "id" in v.fields
    && (("result" in v.fields) != ("error" in v.fields))
    && ("error" in v.fields ==> IsErrorObject(v.fields["error"]))
  }

  predicate IsErrorObject(e: Value)
  {
    && HasKey(e, "code") && e.fields["code"].Int?
    && HasKey(e, "message") && e.fields["message"].Str?
  }

  /**
   * The content list made from a `result` member: the `content` of a dict
   * result, a list result itself, `[result]` for any other truthy result
   * and `[]` for a falsy one.
   */
  function Normalise(result: Value): (content: Value)
    ensures HasKey(result, "content") ==> content == result.fields["content"]
    ensures !HasKey(result, "content") ==> content.List?
    ensures result.List? ==> content == result
    ensures !HasKey(result, "content") && !result.List? ==>
              content.items == (if Truthy(result) then [result] else [])
  {
    if HasKey(result, "content") then result.fields["content"]
    else if result.List? then result
    else if Truthy(result) then List([result])
    else List([])
  }

  /**
   * A decoded reply as `call_tool` treats it: an `error` member gives None,
   * a `result` member its normalised content, and a reply with neither the
   * empty list.
   */
  function ClassifyReply(reply: Value): (r: Option<Value>)
    ensures HasKey(reply, "error") ==> r.None?
    ensures !HasKey(reply, "error") && HasKey(reply, "result") ==> r == Some(Normalise(reply.fields["result"]))
    ensures !HasKey(reply, "error") && !HasKey(reply, "result") ==> r == Some(List([]))
  {
    if HasKey(reply, "error") then None
    else if HasKey(reply, "result") then Some(Normalise(reply.fields["result"]))
    else Some(List([]))
  }

  /** The local client's retry path reads only `result`, and gives None when it is missing. */
  function ClassifyRetryReply(reply: Value): (r: Option<Value>)
    ensures HasKey(reply, "result") ==> r == Some(Normalise(reply.fields["result"]))
    ensures !HasKey(reply, "result") ==> r.None?
  {
    if HasKey(reply, "result") then Some(Normalise(reply.fields["result"])) else None
  }

  /** On a well-formed response the reply is rejected exactly when it is an error response. */
  lemma ClassifyWellFormed(reply: Value)
    requires IsResponse(reply)
    ensures ClassifyReply(reply).None? <==> "error" in reply.fields
    ensures "result" in reply.fields ==> ClassifyReply(reply) == Some(Normalise(reply.fields["result"]))
  {
  }

  /** The two classifications agree on every well-formed response; they differ only on replies section 5 does not allow. */
  lemma RetryAgreesOnWellFormed(reply: Value)
    requires IsResponse(reply)
    ensures ClassifyRetryReply(reply) == ClassifyReply(reply)
  {
  }

  /** A reply carrying both members is rejected by `call_tool` but accepted by the retry path. */
  lemma ClassificationsDifferOffSpec()
    ensures ClassifyReply(Dict(map["result" := List([]), "error" := Null])).None?
    ensures ClassifyRetryReply(Dict(map["result" := List([]), "error" := Null])) == Some(List([]))
  {
  }

  /** `response_str.strip().startswith('{')`: the line the clients are willing to decode. */
  predicate LooksLikeJsonObject(line: string)
  {
    StartsWith(Strip(line), "{")
  }
}
