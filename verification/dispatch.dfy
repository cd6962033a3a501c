/**
  `_handle_jsonrpc`: the JSON-RPC shim's method table, from the parsed request
  body to the HTTP reply.
 */
module Dispatch {
  import opened Results
  import opened Json
  import opened JsonRpc
  import opened ToolNames
  import opened Content
  import opened Backend
  import opened Tools

  /** An exception that escapes the handler; the web framework answers it, not the shim. */
  datatype Fault =
    | PayloadNotObject(kind: string)  // `payload.get` on a body that is not a dict
    | ParamsNotObject(kind: string)   // `params.get` on truthy `params` that are not a dict
    | BadToolName(fault: NameFault)   // `_resolve_tool_name` raised: it runs outside the `try`

  /** What the handler does with a request. */
  datatype Reply =
    | Http(status: int, body: Json)
    | Raised(fault: Fault)

  const InvalidPayload := "Invalid JSON-RPC payload"

  /** The fixed answer to `initialize`. */
  function InitializeResult(serverName: string): map<string, Json> {
    map[
      "protocolVersion" := Str("0.1"),
      "serverInfo" := Obj(map["name" := Str(serverName), "version" := Str("0.1.0")]),
      "capabilities" := Obj(map["tools" := Obj(map["listChanged" := Bool(true)])])
    ]
  }

  /** The methods the table knows. */
  const KnownMethods: set<string> := {"initialize", "tools/list", "tools/list_changed", "tools/call", "ping"}

  /** The `content` array of a successful `tools/call`. */
  function ContentArray(texts: seq<string>): Json {
    var blocks := SerializeContent(TextItems(texts));
    Arr(seq(|blocks|, i requires 0 <= i < |blocks| => Obj(blocks[i])))
  }

  /** The `tools/call` branch. */
  function ToolsCall(srv: Server, id: Json, payload: map<string, Json>): (r: Result<Response, Fault>)
    ensures r.Ok? ==> r.value.id == id
    ensures r.Ok? && r.value.Failure? ==> r.value.code == ServerError
    ensures var params := Or(Get(payload, "params"), EmptyObj);
            && (!params.Obj? ==> r == Err(ParamsNotObject(TypeName(params))))
            && (params.Obj? && ResolveToolName(Get(params.fields, "name")).Err? ==>
                  r == Err(BadToolName(ResolveToolName(Get(params.fields, "name")).error)))
            && (params.Obj? && ResolveToolName(Get(params.fields, "name")).Ok? ==>
                  var call := CallTool(srv, ResolveToolName(Get(params.fields, "name")).value,
                                       Or(Get(params.fields, "arguments"), EmptyObj));
                  && (call.Err? ==> r == Ok(Failure(id, ServerError, call.error)))
                  && (call.Ok? ==> r == Ok(Success(id, map["content" := ContentArray(call.value)]))))
  {
    var params := Or(Get(payload, "params"), EmptyObj);
    if !params.Obj? then Err(ParamsNotObject(TypeName(params)))
    else
      match ResolveToolName(Get(params.fields, "name"))
      case Err(fault) => Err(BadToolName(fault))
      case Ok(name) =>
        var arguments := Or(Get(params.fields, "arguments"), EmptyObj);
        match CallTool(srv, name, arguments)
        case Err(message) => Ok(Failure(id, ServerError, message))
        case Ok(blocks) => Ok(Success(id, map["content" := ContentArray(blocks)]))
  }

  /** The method table, applied to a parsed body. */
  function DispatchPayload(srv: Server, payload: Json): (r: Result<Response, Fault>)
    ensures !payload.Obj? ==> r == Err(PayloadNotObject(TypeName(payload)))
    ensures r.Ok? ==> payload.Obj? && r.value.id == Get(payload.fields, "id")
    ensures r.Err? ==> !payload.Obj? || Get(payload.fields, "method") == Str("tools/call")
    ensures payload.Obj? ==>
              var methodName := Get(payload.fields, "method");
              var id := Get(payload.fields, "id");
              && (methodName == Str("initialize") ==> r == Ok(Success(id, InitializeResult(srv.name))))
              && (methodName == Str("tools/list") ==> r == Ok(Success(id, map["tools" := Arr(srv.toolCatalog)])))
              && (methodName == Str("tools/list_changed") ==> r == Ok(Success(id, map[])))
              && (methodName == Str("tools/call") ==> r == ToolsCall(srv, id, payload.fields))
              && (methodName == Str("ping") ==> r == Ok(Success(id, map["status" := Str("ok")])))
              && (!(methodName.Str? && methodName.s in KnownMethods) ==>
                    r == Ok(Failure(id, MethodNotFound, "Method not implemented: " + Display(methodName, srv.show))))
  {
    if !payload.Obj? then Err(PayloadNotObject(TypeName(payload)))
    else
      var methodName := Get(payload.fields, "method");
      var id := Get(payload.fields, "id");
      if methodName == Str("initialize") then Ok(Success(id, InitializeResult(srv.name)))
      else if methodName == Str("tools/list") then Ok(Success(id, map["tools" := Arr(srv.toolCatalog)]))
      else if methodName == Str("tools/list_changed") then Ok(Success(id, map[]))
      else if methodName == Str("tools/call") then ToolsCall(srv, id, payload.fields)
      else if methodName == Str("ping") then Ok(Success(id, map["status" := Str("ok")]))
      else Ok(Failure(id, MethodNotFound, "Method not implemented: " + Display(methodName, srv.show)))
  }

  /** `_handle_jsonrpc(request)`; `body` is `None` when the request body is not JSON. */
  function HandleJsonRpc(srv: Server, body: Option<Json>): (r: Reply)
    ensures body.None? <==> r == Http(400, Obj(map["error" := Str(InvalidPayload)]))
    ensures r.Http? && r.status == 200 ==>
              && body.Some? && body.value.Obj?
              && r.body.Obj? && "jsonrpc" in r.body.fields && r.body.fields["jsonrpc"] == Str(Version)
              && "id" in r.body.fields && r.body.fields["id"] == Get(body.value.fields, "id")
              && ("result" in r.body.fields) != ("error" in r.body.fields)
    ensures r.Http? ==> r.status == 200 || r.status == 400
    ensures r.Raised? ==> body.Some? && DispatchPayload(srv, body.value) == Err(r.fault)
    ensures r.Http? && r.status == 200 ==>
              exists resp :: DispatchPayload(srv, body.value) == Ok(resp) && Decode(r.body) == Some(resp)
  {
    match body
    case None => Http(400, Obj(map["error" := Str(InvalidPayload)]))
    case Some(payload) =>
      match DispatchPayload(srv, payload)
      case Err(fault) => Raised(fault)
      case Ok(resp) =>
        DecodeEncode(resp);
        Http(200, Encode(resp))
  }

  /** The id of the request is echoed verbatim in every JSON-RPC reply, whatever the method. */
  lemma IdEchoed(srv: Server, payload: map<string, Json>)
    requires HandleJsonRpc(srv, Some(Obj(payload))).Http?
    ensures var reply := HandleJsonRpc(srv, Some(Obj(payload)));
            reply.status == 200 && reply.body.Obj? && "id" in reply.body.fields &&
            reply.body.fields["id"] == Get(payload, "id")
  {
  }

  /** A request envelope for `tools/call`. */
  function CallRequest(id: Json, name: string, arguments: map<string, Json>): map<string, Json> {
    map["jsonrpc" := Str(Version), "id" := id, "method" := Str("tools/call"),
        "params" := Obj(map["name" := Str(name), "arguments" := Obj(arguments)])]
  }

  /** A tool name the shim serves resolves to itself. */
  lemma ServedNameIsCanonical(name: string)
    requires name == StoreTool || name == FindTool
    ensures ResolveToolName(Str(name)) == Ok(name)
  {
    assert forall i :: 0 <= i < |name| ==> name[i] != '.';
    assert '.' !in name;
    assert name[6] == '-';
    assert !Text.StartsWith(name, LegacyPrefix);
    CanonicalNameIsFixed(name);
  }

  /** A well-formed `tools/call` replies with what the resolved tool returned, failures as -32000. */
  lemma CallRequestReply(srv: Server, id: Json, name: string, arguments: map<string, Json>)
    requires name != ""
    ensures DispatchPayload(srv, Obj(CallRequest(id, name, arguments))) ==
              match CallTool(srv, ResolveName(name), Obj(arguments))
              case Err(message) => Ok(Failure(id, ServerError, message))
              case Ok(blocks) => Ok(Success(id, map["content" := ContentArray(blocks)]))
  {
    var payload := CallRequest(id, name, arguments);
    var params := map["name" := Str(name), "arguments" := Obj(arguments)];
    assert Get(payload, "method") == Str("tools/call");
    assert Get(payload, "id") == id;
    assert Get(payload, "params") == Obj(params);
    assert Or(Get(params, "arguments"), EmptyObj) == Obj(arguments) by {
      if |arguments| == 0 {
        assert arguments == map[];
      }
    }
  }

  /** `tools/call` of `qdrant-store` without `information` is a -32000 error naming the argument. */
  lemma StoreWithoutInformation(srv: Server, id: Json)
    ensures DispatchPayload(srv, Obj(CallRequest(id, StoreTool, map[])))
            == Ok(Failure(id, ServerError, InformationRequired))
  {
    CallRequestReply(srv, id, StoreTool, map[]);
    ServedNameIsCanonical(StoreTool);
    assert CallTool(srv, StoreTool, Obj(map[])) == Err(InformationRequired);
  }

  /** `tools/call` of `qdrant-find` with no matches answers with the single "no matches" text block. */
  lemma FindWithNoMatches(srv: Server, id: Json, query: string)
    requires query != "" && srv.defaultCollection.Some? && srv.defaultCollection.value != ""
    requires srv.search(Str(query), Str(srv.defaultCollection.value), srv.searchLimit, None) == Ok([])
    ensures DispatchPayload(srv, Obj(CallRequest(id, FindTool, map["query" := Str(query)])))
            == Ok(Success(id, map["content" := Arr([Obj(TextBlock(NoMatches))])]))
  {
    var args := map["query" := Str(query)];
    CallRequestReply(srv, id, FindTool, args);
    ServedNameIsCanonical(FindTool);
    assert ResolveCollection(Get(args, "collection_name"), srv.defaultCollection) == Ok(Str(srv.defaultCollection.value));
    assert BuildFilter(srv, Get(args, "query_filter")) == Ok(None);
    NoMatchesIsOneBlock(srv, Obj(args));
    SingleTextContent(NoMatches);
  }

  /** One text becomes a content array of one text block. */
  lemma SingleTextContent(text: string)
    ensures ContentArray([text]) == Arr([Obj(TextBlock(text))])
  {
    var blocks := SerializeContent(TextItems([text]));
    assert blocks == [TextBlock(text)];
  }

  /** A missing tool name escapes as an exception; it is never turned into a -32000 error. */
  lemma MissingNameEscapes(srv: Server, id: Json, params: map<string, Json>)
    requires !IsTruthy(Get(params, "name"))
    ensures DispatchPayload(srv, Obj(map["id" := id, "method" := Str("tools/call"), "params" := Obj(params)]))
            == Err(BadToolName(MissingToolName))
  {
    var payload := map["id" := id, "method" := Str("tools/call"), "params" := Obj(params)];
    if |params| == 0 {
      assert params == map[];
    }
  }
}
