# mcp-server-qdrant: the hybrid HTTP bridge and the OpenAI embedding provider

This project models two parts of mcp-server-qdrant.

The first is the hybrid HTTP transport. One `/mcp` mount serves two protocols.
The streaming MCP app gets most requests. A lightweight JSON-RPC 2.0 shim gets
plain JSON POSTs. The model covers:

- the routing decision (`HybridMCPApp.__call__` and `_should_use_jsonrpc`);
- the shim's method table (`_handle_jsonrpc`) and its two envelopes (`_jsonrpc_result`, `_jsonrpc_error`);
- tool-name aliasing (`_resolve_tool_name`);
- content serialization (`_serialize_content`);
- the two tools the shim serves itself, `qdrant-store` and `qdrant-find` (`_call_tool_direct`).

The second is `OpenAIEmbeddingProvider`: how it derives the vector name, how it
probes the vector size at construction, and how it puts batch responses in order.

Modules:

| file | module | models |
|---|---|---|
| results.dfy | `Results` | `Option`, `Result` (with `:-`), `Outcome` |
| json.dfy | `Json` | JSON values, Python truthiness, `dict.get`, `a or b`, `str()` of a value, the `AttributeError` raised by `.get` on a non-dict |
| text.dfy | `Text` | substring test (`in`), `startswith`, ASCII `lower()`, `replace` of one character |
| seqs.dfy | `Seqs` | small facts about sequences and multisets used by the sort proofs |
| jsonrpc.dfy | `JsonRpc` | the JSON-RPC 2.0 success and error envelopes, with a decoder |
| tool_names.dfy | `ToolNames` | `_resolve_tool_name` |
| content.dfy | `Content` | `_serialize_content` |
| backend.dfy | `Backend` | what the bridge reads from the FastMCP server: its name, settings, tool catalog, and the Qdrant connector |
| tools.dfy | `Tools` | `_call_tool_direct` |
| dispatch.dfy | `Dispatch` | `_handle_jsonrpc` |
| routing.dfy | `Routing` | `_should_use_jsonrpc`, `HybridMCPApp.__call__` |
| embeddings.dfy | `Embeddings` | `OpenAIEmbeddingProvider` |

Outside calls are inputs or fields of `Backend.Server`:

- the Qdrant connector's `store` and `search`;
- the `models.Filter` constructor;
- the tool catalog;
- Python's `str()` for values other than strings, `None`, `True` and `False`;
- the OpenAI embedding responses.

A Python exception that the shim turns into a `-32000` error is an `Err`
carrying the message `str(exc)` would give. An exception that escapes the shim
is a `Dispatch.Fault`.

Tool-name resolution runs outside the shim's `try`, so its failures escape.
The model states this.

Name resolution is not idempotent. `qdrant.qdrant.x` resolves to `qdrant.x`, and
resolving that again gives `x`.

## Model

| member | source | states |
|---|---|---|
| Json.FalsyValues | src/mcp_server_qdrant/http_app.py:174-175 | a JSON value is falsy exactly when it is `None`, `False`, zero, the empty string, the empty list or the empty dict |
| Text.Contains | src/mcp_server_qdrant/http_app.py:112-115 | the substring test answers true exactly when the needle occurs at some position of the haystack |
| Text.LowerIsLower | src/mcp_server_qdrant/http_app.py:115 | lowering keeps the length, leaves no upper-case letter and changes no other character |
| JsonRpc.Encode | src/mcp_server_qdrant/http_app.py:26-33 | every envelope carries `jsonrpc` "2.0" and the echoed id, and exactly one of `result` or `error`; `result` is there exactly for a success |
| JsonRpc.DecodeEncode | src/mcp_server_qdrant/http_app.py:26-33 | decoding an envelope gives back the response it was built from |
| JsonRpc.EnvelopeRoundTrip | src/mcp_server_qdrant/http_app.py:26-33 | a JSON value decodes to a response exactly when it is that response's envelope |
| ToolNames.FirstDot | src/mcp_server_qdrant/http_app.py:45-46 | the split point is the first `.`: none exactly when the name has no dot, and otherwise a `.` with no dot before it |
| ToolNames.ResolveName | src/mcp_server_qdrant/http_app.py:44-51 | a dotted name loses its namespace exactly when the namespace is `qdrant`, `qdrant-rag` or `qdrant-rag-mcp`; an undotted name loses a leading `qdrant_`; any other name is kept |
| ToolNames.ResolveDotted | src/mcp_server_qdrant/http_app.py:45-48 | for a name whose first dot is at `k` (a `.` with no `.` before it), the result is the part after the dot when the part before it is an alias namespace, and the whole name otherwise |
| ToolNames.FirstDotUnique | src/mcp_server_qdrant/http_app.py:46 | a name has at most one position that is a dot with no dot before it |
| ToolNames.ResolveToolName | src/mcp_server_qdrant/http_app.py:41-51 | a falsy name fails as "Missing tool name"; only a non-empty string resolves, and any other truthy value raises |
| ToolNames.CanonicalNameIsFixed | src/mcp_server_qdrant/http_app.py:44-51 | a name with no dot and no `qdrant_` prefix resolves to itself |
| ToolNames.AliasNamespaceDropped | src/mcp_server_qdrant/http_app.py:45-48 | `qdrant.qdrant-store` resolves to `qdrant-store` |
| ToolNames.UnknownNamespaceKept | src/mcp_server_qdrant/http_app.py:45-48 | `unknown-ns.foo` is kept whole |
| ToolNames.DottedNameKeepsPrefix | src/mcp_server_qdrant/http_app.py:45-50 | a dotted name keeps its `qdrant_` prefix: the prefix is stripped only from undotted names |
| ToolNames.ResolutionNotIdempotent | src/mcp_server_qdrant/http_app.py:41-51 | for any suffix, `qdrant.qdrant.` + suffix resolves to `qdrant.` + suffix, which does not resolve to itself |
| ToolNames.OneAliasDropped | src/mcp_server_qdrant/http_app.py:45-48 | `qdrant.` followed by any text resolves to that text |
| Content.SerializeContent | src/mcp_server_qdrant/http_app.py:54-63 | one block per item in item order: a model's dump, a dict as is, anything else as a text block of its string |
| Content.SerializeAppend | src/mcp_server_qdrant/http_app.py:54-63 | serializing a concatenation concatenates the serializations, so no item is reordered or merged |
| Content.TextRoundTrip | src/mcp_server_qdrant/http_app.py:62 | reading the `text` field back out of serialized strings gives the strings in order |
| Content.MixedItems | src/mcp_server_qdrant/http_app.py:54-63 | a model, a dict and a plain value become their dump, the dict and a text block, in that order |
| Tools.ResolveCollection | src/mcp_server_qdrant/http_app.py:177-180 | an explicit truthy collection wins; otherwise a non-empty default; otherwise "collection_name is required when no default is set" |
| Tools.Store | src/mcp_server_qdrant/http_app.py:172-183 | non-dict arguments raise the `.get` error; missing information is reported before the collection; success means the connector stored the entry and the single block names the information and collection; a connector failure's message is passed on |
| Tools.BuildFilter | src/mcp_server_qdrant/http_app.py:193-194 | a falsy filter gives no filter; a truthy one gives the converted filter when it converts and its conversion error when it does not |
| Tools.EntryBlocks | src/mcp_server_qdrant/http_app.py:204-208 | one entry block per found entry, in search order |
| Tools.FindResults | src/mcp_server_qdrant/http_app.py:201-209 | no entries give the single "No matching entries." block; otherwise a header naming the query comes first, then one block per entry |
| Tools.Find | src/mcp_server_qdrant/http_app.py:185-209 | non-dict arguments raise the `.get` error; the query is checked before the collection; success is the rendering of the connector's search with the configured limit and filter; any error comes from the filter or the search |
| Tools.InformationCheckedFirst | src/mcp_server_qdrant/http_app.py:172-175 | a store without information fails with "information is required" whatever the default collection |
| Tools.NoMatchesIsOneBlock | src/mcp_server_qdrant/http_app.py:201-202 | a find whose search returns nothing answers the single "No matching entries." block |
| Tools.CallTool | src/mcp_server_qdrant/http_app.py:166-211 | `qdrant-store` and `qdrant-find` are served; any other name fails with "Unknown tool: " and the name; a success has at least one block |
| Dispatch.ToolsCall | src/mcp_server_qdrant/http_app.py:89-100 | `params` are `params or {}`; a resolution failure escapes; a tool failure is a -32000 error with the tool's message; a success wraps the serialized blocks as `content` |
| Dispatch.DispatchPayload | src/mcp_server_qdrant/http_app.py:72-105 | a non-dict body escapes; the id is echoed; only `tools/call` can escape for a dict body; each known method has its fixed result, and `tools/call` is answered by the `tools/call` branch; an unknown method is -32601 "Method not implemented: " and the method |
| Dispatch.HandleJsonRpc | src/mcp_server_qdrant/http_app.py:66-105 | an unparsable body, and only that, is a 400 with "Invalid JSON-RPC payload"; every 200 reply is a JSON-RPC envelope echoing the id that decodes to the dispatched response |
| Dispatch.IdEchoed | src/mcp_server_qdrant/http_app.py:72-105 | every reply the shim writes is a 200 echoing the request's id |
| Dispatch.ServedNameIsCanonical | src/mcp_server_qdrant/http_app.py:41-51 | the names `qdrant-store` and `qdrant-find` resolve to themselves |
| Dispatch.CallRequestReply | src/mcp_server_qdrant/http_app.py:89-100 | a `tools/call` request for a non-empty name is answered from the tool table under the resolved name |
| Dispatch.StoreWithoutInformation | src/mcp_server_qdrant/http_app.py:172-175 | `qdrant-store` with no arguments is the -32000 error "information is required" |
| Dispatch.FindWithNoMatches | src/mcp_server_qdrant/http_app.py:201-202 | `qdrant-find` that finds nothing answers one text block "No matching entries." |
| Dispatch.SingleTextContent | src/mcp_server_qdrant/http_app.py:62 | one string becomes a content array of one text block |
| Dispatch.MissingNameEscapes | src/mcp_server_qdrant/http_app.py:89-96 | a `tools/call` without a tool name escapes as "Missing tool name" instead of becoming a -32000 error |
| Routing.ShouldUseJsonRpc | src/mcp_server_qdrant/http_app.py:108-115 | the shim is used exactly for a POST whose Accept names neither `application/json-seq` nor `text/event-stream` and whose lowered Content-Type contains `application/json` |
| Routing.Route | src/mcp_server_qdrant/http_app.py:122-136 | the shim takes exactly the HTTP requests under `/mcp` that qualify; everything else goes to the streaming app |
| Routing.StreamingClientForwarded | src/mcp_server_qdrant/http_app.py:112-113 | a client accepting `application/json, text/event-stream` is forwarded to the streaming app whatever its Content-Type |
| Routing.PlainJsonPostTaken | src/mcp_server_qdrant/http_app.py:111-115 | a POST to `/mcp/` with no Accept header and Content-Type `Application/JSON; charset=utf-8` is taken by the shim |
| Embeddings.VectorName | src/mcp_server_qdrant/embeddings/openai_provider.py:26-29 | the name is `openai-` followed by the model name, with each `/`, `:` and space replaced by `-` and each letter lowered; it has no separator and no upper-case letter |
| Embeddings.Construct | src/mcp_server_qdrant/embeddings/openai_provider.py:17-29 | construction embeds `vector-dimension-probe` once with the model and succeeds exactly when that probe answers with at least one item; a probe error is passed on and an empty answer raises "list index out of range"; the size is the first item's dimension and the name is the derived vector name |
| Embeddings.GettersReturnConstructionValues | src/mcp_server_qdrant/embeddings/openai_provider.py:45-49 | the getters answer the probed size and the derived name |
| Embeddings.Insert | src/mcp_server_qdrant/embeddings/openai_provider.py:36 | inserting adds exactly one occurrence of the item |
| Embeddings.InsertSorted | src/mcp_server_qdrant/embeddings/openai_provider.py:36 | inserting into an ordered response keeps it ordered |
| Embeddings.InsertWithKey | src/mcp_server_qdrant/embeddings/openai_provider.py:36 | an inserted item goes before the items sharing its index, and items with other indices keep their order |
| Embeddings.SortByIndex | src/mcp_server_qdrant/embeddings/openai_provider.py:36 | the sort is a permutation, ordered by index with a missing index read as 0, and stable: items sharing an index keep their delivery order |
| Embeddings.Embeddings | src/mcp_server_qdrant/embeddings/openai_provider.py:37 | one vector per item, the i-th vector being the i-th item's embedding |
| Embeddings.EmbedDocuments | src/mcp_server_qdrant/embeddings/openai_provider.py:31-37 | the vectors are those of a stable reordering of the items by ascending index: one vector per item, the same vectors as the response, unchanged when the response is already ordered |
| Embeddings.EmbedQuery | src/mcp_server_qdrant/embeddings/openai_provider.py:39-43 | the query's vector is the first item's; an empty response raises "list index out of range" |
| Embeddings.SortOfSorted | src/mcp_server_qdrant/embeddings/openai_provider.py:36 | sorting an ordered response changes nothing |
| Embeddings.EmbeddingsOfPermutation | src/mcp_server_qdrant/embeddings/openai_provider.py:37 | permuted items give permuted vectors |
| Embeddings.SortedStableUnique | src/mcp_server_qdrant/embeddings/openai_provider.py:36 | two ordered responses that keep the same items under every index, in the same order, are equal, ties included |
| Embeddings.StableSortUnique | src/mcp_server_qdrant/embeddings/openai_provider.py:35-37 | the sorted, stable arrangement `EmbedDocuments` promises is exactly `SortByIndex` of the response, so the returned vectors are determined |
| Embeddings.SortedDistinctUnique | src/mcp_server_qdrant/embeddings/openai_provider.py:36 | two ordered responses with distinct indices and the same items are equal |
| Embeddings.DistinctUnderPermutation | src/mcp_server_qdrant/embeddings/openai_provider.py:36 | permuting a response keeps its indices distinct |
| Embeddings.PermutationInvariant | src/mcp_server_qdrant/embeddings/openai_provider.py:35-37 | with distinct indices, the delivery order of a response does not change the returned vectors |
| Embeddings.CanonicalOrderRecovered | src/mcp_server_qdrant/embeddings/openai_provider.py:35-37 | a response numbered 0 to n-1, delivered in any order, gives the vectors in input order |
| Embeddings.MissingIndexCountsAsZero | src/mcp_server_qdrant/embeddings/openai_provider.py:36 | an item without an index goes before an item with a positive index |

## Left out

- ASGI plumbing (`receive`, `send`, `Request`, `JSONResponse`, `Headers`) is not modelled. Routing reads the scope's `type`, `method` and `path` and the `accept` and `content-type` header values; an absent header reads as `""`.
- `request.json()` is an input: the parsed body, or none when the body is not JSON.
- `create_app`, the `/healthz` and `/` health routes, and the streaming app itself are not modelled: they are framework wiring.
- `_tool_payload` is not modelled; `tools/list` answers a tool catalog that is a field of `Backend.Server`.
- The Qdrant connector (`store`, `search`) and `models.Filter(**query_filter)` are functions in `Backend.Server`. Their failures are `Err` messages.
- The pydantic validation inside `Entry(...)` is folded into the connector's `store`.
- Python's `str()` of values other than strings, `None`, `True` and `False` is an uninterpreted function in `Backend.Server`. That covers dicts, lists and numbers in messages and entry blocks.
- `Text.Lower` lowers ASCII letters only; Python's `str.lower` also lowers other Unicode letters.
- JSON numbers are `int` and `real`. The `NaN`, `Infinity` and `-Infinity` that `json.loads` accepts (and `1e999`, read as infinity) are not represented, and neither is the error `JSONResponse` raises when rendering them. So `Dispatch.IdEchoed` and `Dispatch.HandleJsonRpc` cover finite numbers only.
- Embedding components are floats the provider only copies; they are `real`s and nothing about float formatting is modelled.
- The OpenAI clients (`AsyncOpenAI`, `OpenAI`) are not modelled: their responses are inputs, and a failed probe is an `Err` passed through.
- `async`/`await` and concurrency are not modelled: every operation is a single synchronous step.
- `Embeddings.GetVectorName` and `Embeddings.GetVectorSize` carry no contract of their own; `Embeddings.GettersReturnConstructionValues` states what they answer.
- `Embeddings.SortByIndex` is modelled as an insertion sort rather than Python's `sorted` algorithm. Its contract (ordered, a permutation, stable) is what `sorted` with that key guarantees, and `Embeddings.StableSortUnique` shows that contract fixes the result.
