/**
  `HybridMCPApp.__call__` and `_should_use_jsonrpc`: which of the two protocol
  handlers a request on the shared mount goes to. Only the header values the
  decision reads are modelled; an absent header reads as `""`.
 */
module Routing {
  import opened Results
  import opened Text

  /** The ASGI scope fields the decision reads. */
  datatype Scope = Scope(
    kind: string,                // `scope["type"]`
    verb: string,                // `scope["method"]`
    path: Option<string>,        // `scope.get("path")`
    accept: Option<string>,      // `headers.get("accept")`
    contentType: Option<string>  // `headers.get("content-type")`
  )

  datatype Handler = JsonRpcShim | StreamApp

  const MountPrefix := "/mcp"
  const JsonSeq := "application/json-seq"
  const EventStream := "text/event-stream"
  const JsonMedia := "application/json"

  /** `_should_use_jsonrpc`: a POST whose Accept asks for no streaming type and whose Content-Type is JSON. */
  method ShouldUseJsonRpc(verb: string, accept: Option<string>, contentType: Option<string>)
    returns (use: bool)
    ensures use <==>
              && verb == "POST"
              && !IsSubstring(JsonSeq, accept.GetOr(""))
              && !IsSubstring(EventStream, accept.GetOr(""))
              && IsSubstring(JsonMedia, Lower(contentType.GetOr("")))
  {
    if verb != "POST" {
      return false;
    }
    var acceptValue := accept.GetOr("");
    var wantsSeq := Contains(acceptValue, JsonSeq);
    var wantsStream := Contains(acceptValue, EventStream);
    if wantsSeq || wantsStream {
      return false;
    }
    use := Contains(Lower(contentType.GetOr("")), JsonMedia);
  }

  /** The requests the JSON-RPC shim answers. */
  predicate TakenByShim(scope: Scope) {
    && scope.kind == "http"
    && StartsWith(scope.path.GetOr(""), MountPrefix)
    && scope.verb == "POST"
    && !IsSubstring(JsonSeq, scope.accept.GetOr(""))
    && !IsSubstring(EventStream, scope.accept.GetOr(""))
    && IsSubstring(JsonMedia, Lower(scope.contentType.GetOr("")))
  }

  /** `HybridMCPApp.__call__`: the shim takes an HTTP request under `/mcp` that qualifies; everything else streams. */
  method Route(scope: Scope) returns (handler: Handler)
    ensures handler == JsonRpcShim <==> TakenByShim(scope)
  {
    if scope.kind != "http" {
      return StreamApp;
    }
    if !StartsWith(scope.path.GetOr(""), MountPrefix) {
      return StreamApp;
    }
    var use := ShouldUseJsonRpc(scope.verb, scope.accept, scope.contentType);
    handler := if use then JsonRpcShim else StreamApp;
  }

  /** A streaming client that also accepts JSON is still forwarded, whatever its Content-Type. */
  lemma StreamingClientForwarded(scope: Scope)
    requires scope.accept == Some("application/json, text/event-stream")
    ensures !TakenByShim(scope)
  {
    assert OccursAt(EventStream, scope.accept.value, 18);
  }

  /** A plain JSON POST with no Accept header is taken by the shim, whatever the case of its Content-Type. */
  lemma PlainJsonPostTaken(scope: Scope)
    requires scope == Scope("http", "POST", Some("/mcp/"), None, Some("Application/JSON; charset=utf-8"))
    ensures TakenByShim(scope)
  {
    var contentType := scope.contentType.value;
    var lowered := Lower(contentType);
    assert forall i :: 0 <= i < 16 ==> lowered[i] == LowerChar(contentType[i]);
    assert LowerChar('A') == 'a' && LowerChar('J') == 'j' && LowerChar('S') == 's'
        && LowerChar('O') == 'o' && LowerChar('N') == 'n';
    assert forall i :: 0 <= i < 16 ==> lowered[i] == JsonMedia[i];
    assert lowered[..16] == JsonMedia;
    assert OccursAt(JsonMedia, lowered, 0);
    assert scope.path.value[..4] == MountPrefix;
  }
}
