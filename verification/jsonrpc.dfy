/**
  The JSON-RPC 2.0 response envelope written by `_jsonrpc_result` and
  `_jsonrpc_error` (section 5 of the JSON-RPC 2.0 Specification), and a strict
  reader for it that serves as its inverse.
 */
module JsonRpc {
  import opened Results
  import opened Json

  const Version := "2.0"

  /** "Method not found", section 5.1 of the JSON-RPC 2.0 Specification. */
  const MethodNotFound: int := -32601

  /** The first code of the implementation-defined server-error range -32000 .. -32099 (section 5.1). */
  const ServerError: int := -32000

  /** A response: exactly one of a result object or an error, with the request id echoed. */
  datatype Response =
    | Success(id: Json, result: map<string, Json>)
    | Failure(id: Json, code: int, message: string)

  /** `_jsonrpc_result`: the success envelope. */
  function ResultEnvelope(id: Json, result: map<string, Json>): Json {
    Obj(map["jsonrpc" := Str(Version), "id" := id, "result" := Obj(result)])
  }

  /** `_jsonrpc_error`: the error envelope. */
  function ErrorEnvelope(id: Json, code: int, message: string): Json {
    Obj(map["jsonrpc" := Str(Version), "id" := id,
            "error" := Obj(map["code" := Int(code), "message" := Str(message)])])
  }

  /** The wire form of a response. */
  function Encode(r: Response): (j: Json)
    ensures j.Obj? && "jsonrpc" in j.fields && j.fields["jsonrpc"] == Str(Version)
    ensures "id" in j.fields && j.fields["id"] == r.id
    ensures ("result" in j.fields) != ("error" in j.fields)
    ensures "result" in j.fields <==> r.Success?
    ensures j.fields.Keys == {"jsonrpc", "id", if r.Success? then "result" else "error"}
  {
    match r
    case Success(id, result) => ResultEnvelope(id, result)
    case Failure(id, code, message) => ErrorEnvelope(id, code, message)
  }

  /** Reads an envelope back; anything but exactly the shape `Encode` writes is rejected. */
  function Decode(j: Json): Option<Response> {
    if !j.Obj? || "jsonrpc" !in j.fields || j.fields["jsonrpc"] != Str(Version) then None
    else if j.fields.Keys == {"jsonrpc", "id", "result"} && j.fields["result"].Obj? then
      Some(Success(j.fields["id"], j.fields["result"].fields))
    else if j.fields.Keys == {"jsonrpc", "id", "error"} && j.fields["error"].Obj? then
      var e := j.fields["error"].fields;
      if e.Keys == {"code", "message"} && e["code"].Int? && e["message"].Str? then
        Some(Failure(j.fields["id"], e["code"].i, e["message"].s))
      else None
    else None
  }

  /** Reading an encoded response gives the response back. */
  lemma DecodeEncode(r: Response)
    ensures Decode(Encode(r)) == Some(r)
  {
    var j := Encode(r);
    match r
    case Success(id, result) =>
      assert j.fields["result"] == Obj(result);
    case Failure(id, code, message) =>
      assert j.fields.Keys != {"jsonrpc", "id", "result"} by {
        assert "result" !in j.fields;
      }
      assert j.fields["error"] == Obj(map["code" := Int(code), "message" := Str(message)]);
  }

  /** A JSON value is read as `r` exactly when it is the encoding of `r`. */
  lemma EnvelopeRoundTrip(j: Json, r: Response)
    ensures Decode(j) == Some(r) <==> Encode(r) == j
  {
    if Encode(r) == j {
      DecodeEncode(r);
    }
    if Decode(j) == Some(r) {
      var m := j.fields;
      match r
      case Success(id, result) =>
        assert m["result"] == Obj(result);
        assert m == Encode(r).fields;
      case Failure(id, code, message) =>
        var e := m["error"].fields;
        assert e == map["code" := Int(code), "message" := Str(message)];
        assert m == Encode(r).fields;
    }
  }
}
